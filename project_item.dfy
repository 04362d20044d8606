/** A rendered project entry: its labels and its role as a drag source. */
module Items {
  import opened Text
  import opened Models
  import opened DragData

  /** The text an item shows: the element id (the project id), the heading
      (title), the head-count line and the paragraph (description). */
  datatype ItemView = ItemView(elementId: string, title: string, headCount: string, description: string)

  datatype ProjectItem = ProjectItem(project: Project) {

    /** The `persons` getter: "1 person" for one person, otherwise the
        number followed by " persons" (so "0 persons" too). */
    function Persons(): (r: string)
      ensures r == "1 person" <==> project.people == 1
      ensures project.people != 1 ==>
        |r| > 8 && r[..|r| - 8] == IntToString(project.people) && r[|r| - 8..] == " persons"
    {
      if project.people == 1 then "1 person"
      else IntToString(project.people) + " persons"
    }

    /** `renderContent`, with the element id the item is created under: the
        heading is the title, the paragraph is the description, and the h3
        line is the label followed by " assigned". */
    function RenderContent(): (v: ItemView)
      ensures v.elementId == project.id
      ensures v.title == project.title && v.description == project.description
      ensures |v.headCount| > 9 && v.headCount[..|v.headCount| - 9] == Persons()
      ensures v.headCount[|v.headCount| - 9..] == " assigned"
    {
      ItemView(project.id, project.title, Persons() + " assigned", project.description)
    }

    /** `dragStartHandler`: stores the project id as plain text and allows
        only a move. */
    method DragStart(dt: DataTransfer)
      requires dt.Valid()
      modifies dt
      ensures dt.Valid()
      ensures dt.items == old(dt.items)["text/plain" := project.id]
      ensures dt.types == WithFormat(old(dt.types), "text/plain")
      ensures dt.effectAllowed == "move"
      ensures dt.GetData("text/plain") == project.id
    {
      dt.SetData("text/plain", project.id);
      dt.effectAllowed := "move";
    }

    /** `dragEndHandler` only writes "event" to the console, returned here
        as `logged`; it changes no state. */
    method DragEnd() returns (logged: string)
      ensures logged == "event"
    {
      logged := "event";
    }
  }

  /** Two items show the same head-count label exactly when they have the
      same number of people. */
  lemma PersonsInjective(x: ProjectItem, y: ProjectItem)
    ensures x.Persons() == y.Persons() <==> x.project.people == y.project.people
  {
    var a, b := x.project.people, y.project.people;
    if x.Persons() == y.Persons() && a != 1 && b != 1 {
      IntToStringInjective(a, b);
    }
  }

  /** The "assigned" line of a rendered item determines its head count. */
  lemma RenderContentFaithful(x: ProjectItem, y: ProjectItem)
    ensures x.RenderContent().headCount == y.RenderContent().headCount <==>
      x.project.people == y.project.people
  {
    var u, v := x.RenderContent().headCount, y.RenderContent().headCount;
    if u == v {
      assert u[..|u| - 9] == x.Persons();
      assert v[..|v| - 9] == y.Persons();
    }
    PersonsInjective(x, y);
  }
}
