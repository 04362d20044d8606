/** The entity model: a project and its two-valued status. */
module Models {
  import opened Options

  /** The status enumeration. Its members carry the implicit ordinals 0
      (Active) and 1 (the source's `finished`, here `Finished`). */
  datatype ProjectStatus = Active | Finished

  /** The ordinal a TypeScript numeric enum gives each member. */
  function Ordinal(s: ProjectStatus): (n: nat)
    ensures n < 2
    ensures FromOrdinal(n) == Some(s)
  {
    match s
    case Active => 0
    case Finished => 1
  }

  /** The member with a given ordinal, if any. */
  function FromOrdinal(n: int): (r: Option<ProjectStatus>)
    ensures r.Some? <==> 0 <= n < 2
    ensures r == Some(Active) <==> n == 0
    ensures r == Some(Finished) <==> n == 1
  {
    if n == 0 then Some(Active) else if n == 1 then Some(Finished) else None
  }

  /** Two statuses are equal exactly when their ordinals are, so the
      store's `!==` on statuses is a genuine change test. */
  lemma OrdinalInjective(a: ProjectStatus, b: ProjectStatus)
    ensures Ordinal(a) == Ordinal(b) <==> a == b
  {
    assert FromOrdinal(Ordinal(a)) == Some(a);
    assert FromOrdinal(Ordinal(b)) == Some(b);
  }

  /** A project record. The constructor stores the five values it is given
      unchanged; the id is supplied by the caller. */
  datatype Project = Project(
    id: string,
    title: string,
    description: string,
    people: int,
    status: ProjectStatus)

  /** `q` agrees with `p` on every field except possibly the status. */
  predicate SameExceptStatus(p: Project, q: Project) {
    p.id == q.id && p.title == q.title && p.description == q.description && p.people == q.people
  }
}
