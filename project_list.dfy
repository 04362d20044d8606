/**
 * One of the two project lists ("active", "finished"): it subscribes to the
 * store, keeps the projects of its own status, re-renders them wholesale on
 * every notification, and acts as a drop target.
 */
module Lists {
  import opened Text
  import opened Models
  import opened State
  import opened DragData
  import opened Items

  /** The list's `type`. */
  datatype ListKind = ActiveList | FinishedList

  /** The list's `type`: one of the two literals of its union type, a
      different one for each kind. */
  function TypeName(k: ListKind): (r: string)
    ensures r == "active" <==> k == ActiveList
    ensures r == "finished" <==> k == FinishedList
  {
    match k
    case ActiveList => "active"
    case FinishedList => "finished"
  }

  /** The status a list shows and that a drop onto it requests. */
  function TargetStatus(k: ListKind): (r: ProjectStatus)
    ensures r == Active <==> k == ActiveList
    ensures r == Finished <==> k == FinishedList
  {
    match k
    case ActiveList => Active
    case FinishedList => Finished
  }

  /** The listener's `filter`: the snapshot's projects of the list's status,
      in snapshot order. */
  function Relevant(k: ListKind, ps: seq<Project>): (r: seq<Project>)
    ensures |r| <= |ps|
    ensures forall i :: 0 <= i < |r| ==> r[i].status == TargetStatus(k)
  {
    if ps == [] then []
    else
      var rest := Relevant(k, ps[1..]);
      if ps[0].status == TargetStatus(k) then [ps[0]] + rest else rest
  }

  /** A project is kept exactly when it is in the snapshot with the list's
      status. */
  lemma {:induction false} RelevantMembership(k: ListKind, ps: seq<Project>, p: Project)
    ensures p in Relevant(k, ps) <==> p in ps && p.status == TargetStatus(k)
  {
    if ps != [] {
      RelevantMembership(k, ps[1..], p);
      assert ps == [ps[0]] + ps[1..];
    }
  }

  /** Filtering distributes over concatenation, so the kept projects keep
      their snapshot order. */
  lemma {:induction false} RelevantConcat(k: ListKind, a: seq<Project>, b: seq<Project>)
    ensures Relevant(k, a + b) == Relevant(k, a) + Relevant(k, b)
  {
    if a != [] {
      assert (a + b)[1..] == a[1..] + b;
      RelevantConcat(k, a[1..], b);
    } else {
      assert a + b == b;
    }
  }

  /** The active and the finished list together hold every project of the
      snapshot exactly as often as the snapshot does. */
  lemma {:induction false} RelevantPartition(ps: seq<Project>)
    ensures multiset(Relevant(ActiveList, ps)) + multiset(Relevant(FinishedList, ps)) == multiset(ps)
    ensures |Relevant(ActiveList, ps)| + |Relevant(FinishedList, ps)| == |ps|
  {
    if ps != [] {
      RelevantPartition(ps[1..]);
      assert ps == [ps[0]] + ps[1..];
    }
  }

  /** The id given to the list's `ul`. */
  function ListId(k: ListKind): (r: string)
    ensures TypeName(k) <= r && |r| == |TypeName(k)| + 14
    ensures r[|r| - 14..] == "-projects-list"
  {
    TypeName(k) + "-projects-list"
  }

  /** The list's heading text. */
  function Heading(k: ListKind): (r: string)
    ensures |r| == |TypeName(k)| + 9 && r[|r| - 9..] == " PROJECTS"
    ensures forall i :: 0 <= i < |TypeName(k)| ==> r[i] == UpperChar(TypeName(k)[i])
  {
    ToUpperAscii(TypeName(k)) + " PROJECTS"
  }

  /** Upper-casing a word, letter by letter. */
  lemma UpperWord(s: string, u: string)
    requires |s| == |u|
    requires forall i :: 0 <= i < |s| ==> UpperChar(s[i]) == u[i]
    ensures ToUpperAscii(s) == u
  {
  }

  /** The heading of the active list. */
  lemma ActiveHeading()
    ensures Heading(ActiveList) == "ACTIVE PROJECTS"
  {
    UpperWord("active", "ACTIVE");
  }

  /** The heading of the finished list. */
  lemma FinishedHeading()
    ensures Heading(FinishedList) == "FINISHED PROJECTS"
  {
    UpperWord("finished", "FINISHED");
  }

  /** The container id of the active list. */
  lemma ActiveListId()
    ensures ListId(ActiveList) == "active-projects-list"
  {
    assert TypeName(ActiveList) == "active";
  }

  /** The container id of the finished list. */
  lemma FinishedListId()
    ensures ListId(FinishedList) == "finished-projects-list"
  {
    assert TypeName(FinishedList) == "finished";
  }

  /** The container ids of the two lists differ, so each list renders into
      its own container. */
  lemma ListIdsDistinct(a: ListKind, b: ListKind)
    ensures ListId(a) == ListId(b) <==> a == b
  {
    assert ListId(ActiveList)[0] == 'a' && ListId(FinishedList)[0] == 'f';
  }

  /** Whether a drag-over is accepted: the first declared format is plain
      text. */
  predicate AcceptsDrag(types: seq<string>)
    ensures AcceptsDrag(types) ==> "text/plain" in types
  {
    |types| > 0 && types[0] == "text/plain"
  }

  /** After `setData("text/plain", ...)` a drag-over is accepted exactly
      when no other format was declared, since `setData` declares its
      format last. A drag that starts from an empty record is accepted. */
  lemma AcceptsDragAfterSetData(types: seq<string>)
    ensures AcceptsDrag(WithFormat(types, "text/plain")) <==> forall t :: t in types ==> t == "text/plain"
    ensures AcceptsDrag(WithFormat([], "text/plain"))
  {
    var w := Without(types, "text/plain");
    if w != [] {
      assert w[0] in w;
    }
    assert WithFormat([], "text/plain") == ["text/plain"];
  }

  class ProjectList {
    const kind: ListKind
    var assignedProject: seq<Project>
    /** The items rendered into the list's `ul`, in order. */
    var rendered: seq<ItemView>
    /** The class list of the list's `ul`. */
    var classes: set<string>
    var listId: string
    var heading: string

    /** Creates the list, registers its listener and renders its chrome. */
    constructor(kind: ListKind, store: ProjectState)
      modifies store
      ensures this.kind == kind && assignedProject == [] && rendered == [] && classes == {}
      ensures listId == ListId(this.kind) && heading == Heading(this.kind)
      ensures store.listeners == old(store.listeners) + [this]
      ensures store.projects == old(store.projects) && store.log == old(store.log)
    {
      this.kind := kind;
      assignedProject, rendered, classes := [], [], {};
      new;
      Configure(store);
      RenderContent();
    }

    /** Subscribes this list to the store. */
    method Configure(store: ProjectState)
      modifies store
      ensures store.listeners == old(store.listeners) + [this]
      ensures store.projects == old(store.projects) && store.log == old(store.log)
    {
      store.AddListener(this);
    }

    /** The registered listener: keep the relevant projects, then re-render.
        The outcome depends on the snapshot alone, so delivering the same
        snapshot twice renders the same items. */
    method Notify(projects: seq<Project>)
      modifies this`assignedProject, this`rendered
      ensures assignedProject == Relevant(kind, projects)
      ensures |rendered| == |assignedProject|
      ensures forall i :: 0 <= i < |rendered| ==> rendered[i] == ProjectItem(assignedProject[i]).RenderContent()
    {
      assignedProject := Relevant(kind, projects);
      RenderProjects();
    }

    /** Clears the container, then renders one item per assigned project. */
    method RenderProjects()
      modifies this`rendered
      ensures |rendered| == |assignedProject|
      ensures forall i :: 0 <= i < |rendered| ==> rendered[i] == ProjectItem(assignedProject[i]).RenderContent()
    {
      rendered := [];
      for i := 0 to |assignedProject|
        invariant |rendered| == i
        invariant forall j :: 0 <= j < i ==> rendered[j] == ProjectItem(assignedProject[j]).RenderContent()
      {
        rendered := rendered + [ProjectItem(assignedProject[i]).RenderContent()];
      }
    }

    /** `dragOverHandler`: with plain text declared first it prevents the
        default (returned as `prevented`) and marks the list droppable;
        otherwise it does nothing. */
    method DragOver(dt: DataTransfer?) returns (prevented: bool)
      modifies this`classes
      ensures prevented <==> dt != null && AcceptsDrag(dt.types)
      ensures classes == if prevented then old(classes) + {"droppable"} else old(classes)
    {
      prevented := false;
      if dt != null && AcceptsDrag(dt.types) {
        prevented := true;
        classes := classes + {"droppable"};
      }
    }

    /** `dragLeaveHandler`: the droppable mark goes, whatever was dragged. */
    method DragLeave()
      modifies this`classes
      ensures classes == old(classes) - {"droppable"}
    {
      classes := classes - {"droppable"};
    }

    /** `dropHandler`: asks the store to move the dragged project to this
        list's status; it neither clears the droppable mark nor re-renders. */
    method Drop(dt: DataTransfer, store: ProjectState)
      modifies store
      ensures store.projects == Moved(old(store.projects), dt.GetData("text/plain"), TargetStatus(kind))
      ensures store.listeners == old(store.listeners)
      ensures store.log == old(store.log) +
        (if MoveChanges(old(store.projects), dt.GetData("text/plain"), TargetStatus(kind))
         then Round(store.listeners, store.projects) else [])
    {
      var prjId := dt.GetData("text/plain");
      store.MoveProject(prjId, if kind == ActiveList then Active else Finished);
    }

    /** Sets the container id and the heading. */
    method RenderContent()
      modifies this`listId, this`heading
      ensures listId == ListId(kind) && heading == Heading(kind)
      ensures assignedProject == old(assignedProject) && rendered == old(rendered)
      ensures classes == old(classes)
    {
      listId := TypeName(kind) + "-projects-list";
      heading := ToUpperAscii(TypeName(kind)) + " PROJECTS";
    }
  }

  /** One drag gesture from an item onto a list: the drag-over is accepted
      and the drop moves exactly the dragged project to the list's status. */
  method DragAndDrop(item: ProjectItem, target: ProjectList, store: ProjectState)
    returns (prevented: bool)
    modifies target, store
    ensures prevented && "droppable" in target.classes
    ensures store.projects == Moved(old(store.projects), item.project.id, TargetStatus(target.kind))
  {
    var dt := new DataTransfer();
    item.DragStart(dt);
    prevented := target.DragOver(dt);
    target.Drop(dt, store);
  }

  /** Two additions and a move of the first project to finished: the store
      keeps both projects in order, and the active list's filter keeps only
      the second while the finished list's keeps only the first. This holds
      for any two ids, since the move changes the first project that has
      the given id. */
  method BoardScenario(buildId: string, docsId: string) returns (store: ProjectState)
    ensures store.projects ==
      [Project(buildId, "Build site", "desc", 3, Finished), Project(docsId, "Write docs", "desc", 2, Active)]
    ensures Relevant(ActiveList, store.projects) == [Project(docsId, "Write docs", "desc", 2, Active)]
    ensures Relevant(FinishedList, store.projects) == [Project(buildId, "Build site", "desc", 3, Finished)]
  {
    store := new ProjectState();
    store.AddProjects(buildId, "Build site", "desc", 3);
    store.AddProjects(docsId, "Write docs", "desc", 2);
    var build, docs := store.projects[0], store.projects[1];
    store.MoveProject(buildId, Finished);
    MoveFirstMatch([build, docs], buildId, Finished, 0);
    var moved := build.(status := Finished);
    assert [moved, docs][1..] == [docs] && [docs][1..] == [];
    assert Relevant(ActiveList, [docs]) == [docs];
    assert Relevant(FinishedList, [docs]) == [];
  }
}
