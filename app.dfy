/**
 * The input form: field validation, the acceptance rule applied to the
 * three entered values, and the submit handler that hands accepted input to
 * the store. Also the application's start-up: one form, then the active
 * list, then the finished list.
 */
module Input {
  import opened Options
  import opened Text
  import opened Models
  import opened State
  import opened Lists

  /** A field value: the source validates strings and numbers. */
  datatype Value = Str(s: string) | Num(n: int)

  /** A value with the constraints to check; an absent bound is None. */
  datatype Validatable = Validatable(
    value: Value,
    required: bool,
    minLength: Option<int>,
    maxLength: Option<int>,
    min: Option<int>,
    max: Option<int>)

  /** `value.toString()`: a string is its own text; a number prints as
      a decimal integer that reads back as that number. */
  function ToText(v: Value): (r: string)
    ensures v.Str? ==> r == v.s
    ensures v.Num? ==> ParseInteger(r) == Some(v.n)
  {
    match v
    case Str(s) => s
    case Num(n) =>
      IntToStringRoundTrip(n);
      IntToString(n)
  }

  /** `validate`: starts from true and folds in each enabled check in turn.
      The length bounds apply to strings only, the numeric bounds to numbers
      only; minLength is inclusive, maxLength, min and max are exclusive. */
  function Validate(input: Validatable): (ok: bool)
    ensures ok <==>
      && (input.required ==> Trim(ToText(input.value)) != [])
      && (input.minLength.Some? && input.value.Str? ==> |input.value.s| >= input.minLength.value)
      && (input.maxLength.Some? && input.value.Str? ==> |input.value.s| < input.maxLength.value)
      && (input.min.Some? && input.value.Num? ==> input.value.n > input.min.value)
      && (input.max.Some? && input.value.Num? ==> input.value.n < input.max.value)
  {
    var isValid := true;
    var isValid := if input.required then isValid && |Trim(ToText(input.value))| != 0 else isValid;
    var isValid := if input.minLength.Some? && input.value.Str?
      then isValid && |input.value.s| >= input.minLength.value else isValid;
    var isValid := if input.maxLength.Some? && input.value.Str?
      then isValid && |input.value.s| < input.maxLength.value else isValid;
    var isValid := if input.min.Some? && input.value.Num?
      then isValid && input.value.n > input.min.value else isValid;
    var isValid := if input.max.Some? && input.value.Num?
      then isValid && input.value.n < input.max.value else isValid;
    isValid
  }

  /** With no constraint enabled every value is valid. */
  lemma ValidateUnconstrained(v: Value)
    ensures Validate(Validatable(v, false, None, None, None, None))
  {
  }

  /** `required` rejects exactly the strings made only of whitespace, and
      never rejects a number, whose printed form is never blank. */
  lemma RequiredRejectsBlank(v: Value)
    ensures Validate(Validatable(v, true, None, None, None, None)) <==>
      (v.Str? ==> !AllWhitespace(v.s))
  {
    match v
    case Str(s) =>
      TrimEmptyIffBlank(s);
    case Num(n) =>
      IntToStringTrimmed(n);
  }

  /** `b` checks the same value as `a` under every constraint `a` enables,
      and possibly more. */
  predicate Tightens(a: Validatable, b: Validatable) {
    && b.value == a.value
    && (a.required ==> b.required)
    && (a.minLength.Some? ==> b.minLength == a.minLength)
    && (a.maxLength.Some? ==> b.maxLength == a.maxLength)
    && (a.min.Some? ==> b.min == a.min)
    && (a.max.Some? ==> b.max == a.max)
  }

  /** Adding constraints never turns an invalid input valid. */
  lemma ValidateMonotone(a: Validatable, b: Validatable)
    requires Tightens(a, b)
    ensures Validate(b) ==> Validate(a)
  {
  }

  /** Unary `+` on the people field, for the integer inputs: surrounding
      whitespace is ignored, a blank field is 0, and an optional sign with
      decimal digits is that integer. Everything else is None. */
  function ToNumber(s: string): (r: Option<int>)
    ensures r.Some? <==> AllWhitespace(s) || IntegerLiteral(Trim(s))
    ensures AllWhitespace(s) ==> r == Some(0)
  {
    TrimEmptyIffBlank(s);
    var t := Trim(s);
    if t == [] then Some(0) else ParseInteger(t)
  }

  /** A printed integer reads back as itself. */
  lemma ToNumberRoundTrip(n: int)
    ensures ToNumber(IntToString(n)) == Some(n)
  {
    IntToStringTrimmed(n);
    IntToStringRoundTrip(n);
  }

  /** The constraints `gatherUserInput` puts on the title and the
      description: required only, so a text passes exactly when it is not
      all whitespace. */
  function TextField(s: string): (r: Validatable)
    ensures r.value == Str(s)
    ensures Validate(r) <==> !AllWhitespace(s)
  {
    RequiredRejectsBlank(Str(s));
    Validatable(Str(s), true, None, None, None, None)
  }

  /** The constraints `gatherUserInput` puts on the head count: required,
      above 1 and below 5, so a count passes exactly when it is 2, 3 or 4. */
  function PeopleField(n: int): (r: Validatable)
    ensures r.value == Num(n)
    ensures Validate(r) <==> 1 < n < 5
  {
    RequiredRejectsBlank(Num(n));
    Validatable(Num(n), true, None, None, Some(1), Some(5))
  }

  /** `gatherUserInput`: accepted values are returned as entered
      (untrimmed), with a head count of 2, 3 or 4. */
  function GatherUserInput(enteredTitle: string, enteredDescription: string, enteredPeople: string)
    : (r: Option<(string, string, int)>)
    ensures r.Some? ==> r.value.0 == enteredTitle && r.value.1 == enteredDescription
    ensures r.Some? ==> ToNumber(enteredPeople) == Some(r.value.2) && 2 <= r.value.2 <= 4
  {
    match ToNumber(enteredPeople)
    case None => None
    case Some(people) =>
      if Validate(TextField(enteredTitle)) && Validate(TextField(enteredDescription))
        && Validate(PeopleField(people))
      then Some((enteredTitle, enteredDescription, people))
      else None
  }

  /** The form accepts exactly when the title and the description are not
      blank and the people field reads as a number strictly between 1 and 5. */
  lemma GatherUserInputRule(enteredTitle: string, enteredDescription: string, enteredPeople: string)
    ensures GatherUserInput(enteredTitle, enteredDescription, enteredPeople).Some? <==>
      && !AllWhitespace(enteredTitle)
      && !AllWhitespace(enteredDescription)
      && ToNumber(enteredPeople).Some?
      && 1 < ToNumber(enteredPeople).value < 5
  {
  }

  /** The form: the current values of its three input fields. */
  class ProjectInput {
    var title: string
    var description: string
    var people: string

    constructor()
      ensures title == "" && description == "" && people == ""
    {
      title, description, people := "", "", "";
    }

    /** `clearInputs`. */
    method ClearInputs()
      modifies this
      ensures title == "" && description == "" && people == ""
    {
      title := "";
      description := "";
      people := "";
    }

    /** `submitHandler`: accepted input becomes a new project (with the
        caller-supplied id) and the form is cleared; rejected input raises
        the alert (`alerted`), stores nothing and keeps the fields. */
    method Submit(store: ProjectState, id: string) returns (alerted: bool)
      modifies this, store
      ensures var r := GatherUserInput(old(title), old(description), old(people));
        && alerted == r.None?
        && store.listeners == old(store.listeners)
        && (r.Some? ==>
          && store.projects == old(store.projects) + [Project(id, old(title), old(description), r.value.2, Active)]
          && store.log == old(store.log) + Round(store.listeners, store.projects)
          && title == "" && description == "" && people == "")
        && (r.None? ==>
          && store.projects == old(store.projects) && store.log == old(store.log)
          && title == old(title) && description == old(description) && people == old(people))
    {
      var userInput := GatherUserInput(title, description, people);
      alerted := userInput.None?;
      if userInput.Some? {
        var (t, d, p) := userInput.value;
        store.AddProjects(id, t, d, p);
        ClearInputs();
      }
    }
  }

  /** Non-blank texts and a people field reading as 2, 3 or 4 are accepted
      as entered. */
  lemma GatherUserInputAccepts(t: string, d: string, p: string, n: int)
    requires !AllWhitespace(t) && !AllWhitespace(d)
    requires ToNumber(p) == Some(n) && 1 < n < 5
    ensures GatherUserInput(t, d, p) == Some((t, d, n))
  {
  }

  /** A typical entry passes the form's rule; the people field is read as
      a number. */
  lemma SampleInputAccepted()
    ensures GatherUserInput("Build site", "desc", "3") == Some(("Build site", "desc", 3))
  {
    ToNumberRoundTrip(3);
    assert IntToString(3) == "3";
    assert !IsWhitespace("Build site"[0]) && !IsWhitespace("desc"[0]);
    GatherUserInputAccepts("Build site", "desc", "3", 3);
  }

  /** Start-up: the store is obtained through its single instance slot,
      then the form, the active list and the finished list are created, so
      the active list's listener is registered first. */
  method Startup() returns (store: ProjectState, form: ProjectInput, active: ProjectList, finished: ProjectList)
    ensures fresh(store) && fresh(form) && fresh(active) && fresh(finished)
    ensures store.projects == [] && store.listeners == [active, finished] && store.log == []
    ensures form.title == "" && form.description == "" && form.people == ""
    ensures active.kind == ActiveList && active.assignedProject == [] && active.rendered == []
    ensures finished.kind == FinishedList && finished.assignedProject == [] && finished.rendered == []
  {
    var slot := new InstanceSlot();
    store := slot.GetInstance();
    form := new ProjectInput();
    active := new ProjectList(ActiveList, store);
    finished := new ProjectList(FinishedList, store);
  }
}
