/**
 * The observable project store. It holds the ordered projects and the
 * registered listeners. Every change is followed by one notification round
 * that hands each listener, in registration order, a copy of all projects.
 * Listener callbacks are arbitrary code, so a round is recorded in a ghost
 * log of deliveries instead of being run.
 */
module State {
  import opened Options
  import opened Models

  /** One callback invocation: the listener's position in the registration
      list, the listener itself and the snapshot it received. */
  datatype Delivery = Delivery(listenerIndex: nat, listener: object, snapshot: seq<Project>)

  /** The deliveries of one notification round, in the order the loop over
      the listeners makes them. */
  function Round(listeners: seq<object>, snapshot: seq<Project>): (r: seq<Delivery>)
    ensures |r| == |listeners|
    ensures forall d :: d in r ==> d.snapshot == snapshot
  {
    if listeners == [] then []
    else
      var n := |listeners| - 1;
      Round(listeners[..n], snapshot) + [Delivery(n, listeners[n], snapshot)]
  }

  /** A round calls every listener exactly once, in registration order, and
      each call receives the whole snapshot. */
  lemma {:induction false} RoundInRegistrationOrder(listeners: seq<object>, snapshot: seq<Project>)
    ensures |Round(listeners, snapshot)| == |listeners|
    ensures forall i :: 0 <= i < |listeners| ==>
      Round(listeners, snapshot)[i] == Delivery(i, listeners[i], snapshot)
  {
    if listeners != [] {
      var n := |listeners| - 1;
      RoundInRegistrationOrder(listeners[..n], snapshot);
    }
  }

  /** The number of deliveries made to `f`. */
  function CallsTo(ds: seq<Delivery>, f: object): nat {
    if ds == [] then 0
    else CallsTo(ds[..|ds| - 1], f) + (if ds[|ds| - 1].listener == f then 1 else 0)
  }

  /** A listener registered k times is called k times per round: there is no
      de-duplication. */
  lemma {:induction false} CallsMatchRegistrations(listeners: seq<object>, snapshot: seq<Project>, f: object)
    ensures CallsTo(Round(listeners, snapshot), f) == multiset(listeners)[f]
  {
    if listeners != [] {
      var n := |listeners| - 1;
      var r := Round(listeners, snapshot);
      CallsMatchRegistrations(listeners[..n], snapshot, f);
      assert r[..|r| - 1] == Round(listeners[..n], snapshot);
      assert listeners == listeners[..n] + [listeners[n]];
    }
  }

  /** `find`: the index of the first project with the given id. */
  function FindIndex(ps: seq<Project>, id: string): (r: Option<nat>)
    ensures r.Some? ==> r.value < |ps| && ps[r.value].id == id
    ensures r.Some? ==> forall j :: 0 <= j < r.value ==> ps[j].id != id
    ensures r.None? ==> forall j :: 0 <= j < |ps| ==> ps[j].id != id
  {
    if ps == [] then None
    else if ps[0].id == id then Some(0)
    else
      match FindIndex(ps[1..], id)
      case None => None
      case Some(k) => Some(k + 1)
  }

  /** Whether `moveProject(id, st)` changes anything: a project with that id
      exists and the first one does not already have status `st`. */
  predicate MoveChanges(ps: seq<Project>, id: string, st: ProjectStatus)
    ensures MoveChanges(ps, id, st) <==>
      exists i :: 0 <= i < |ps| && ps[i].id == id && ps[i].status != st
        && (forall j :: 0 <= j < i ==> ps[j].id != id)
  {
    var k := FindIndex(ps, id);
    k.Some? && ps[k.value].status != st
  }

  /** The projects after `moveProject(id, st)`. */
  function Moved(ps: seq<Project>, id: string, st: ProjectStatus): (r: seq<Project>)
    ensures |r| == |ps|
    ensures forall j :: 0 <= j < |ps| ==> SameExceptStatus(ps[j], r[j])
    ensures r != ps <==> MoveChanges(ps, id, st)
  {
    if MoveChanges(ps, id, st) then
      var k := FindIndex(ps, id).value;
      assert ps[k := ps[k].(status := st)][k] != ps[k];
      ps[k := ps[k].(status := st)]
    else ps
  }

  /** With a project `i` that is the first to carry `id`, the move sets that
      project's status and leaves every other project as it was; it changes
      something exactly when the status was different. */
  lemma MoveFirstMatch(ps: seq<Project>, id: string, st: ProjectStatus, i: nat)
    requires i < |ps| && ps[i].id == id
    requires forall j :: 0 <= j < i ==> ps[j].id != id
    ensures Moved(ps, id, st) == ps[i := ps[i].(status := st)]
    ensures Moved(ps, id, st)[i].status == st
    ensures forall j :: 0 <= j < |ps| && j != i ==> Moved(ps, id, st)[j] == ps[j]
    ensures MoveChanges(ps, id, st) <==> ps[i].status != st
  {
    var k := FindIndex(ps, id);
    assert k == Some(i);
    if ps[i].status == st {
      assert ps[i := ps[i].(status := st)] == ps;
    }
  }

  /** An id no project has: nothing changes and nothing is announced. */
  lemma MoveUnknownId(ps: seq<Project>, id: string, st: ProjectStatus)
    requires forall j :: 0 <= j < |ps| ==> ps[j].id != id
    ensures Moved(ps, id, st) == ps && !MoveChanges(ps, id, st)
  {
  }

  /** Moving a second time to the same status is a no-op without
      notification: repeated drops onto one list re-render nothing. */
  lemma MoveIdempotent(ps: seq<Project>, id: string, st: ProjectStatus)
    ensures Moved(Moved(ps, id, st), id, st) == Moved(ps, id, st)
    ensures !MoveChanges(Moved(ps, id, st), id, st)
  {
    var qs := Moved(ps, id, st);
    match FindIndex(ps, id)
    case None =>
      MoveUnknownId(ps, id, st);
    case Some(i) =>
      MoveFirstMatch(ps, id, st, i);
      MoveFirstMatch(qs, id, st, i);
  }

  /** The store. `projects` and `listeners` grow with `push`; `moveProject`
      updates the status of one project in place. */
  class ProjectState {
    var projects: seq<Project>
    var listeners: seq<object>
    /** Every delivery made so far, oldest first. */
    ghost var log: seq<Delivery>

    constructor()
      ensures projects == [] && listeners == [] && log == []
    {
      projects, listeners := [], [];
      log := [];
    }

    /** Registers a callback; the same callback may be registered twice. */
    method AddListener(listenerFn: object)
      modifies this
      ensures listeners == old(listeners) + [listenerFn]
      ensures projects == old(projects) && log == old(log)
    {
      listeners := listeners + [listenerFn];
    }

    /** Appends a new Active project with the given id and notifies. */
    method AddProjects(id: string, title: string, description: string, numOfPeople: int)
      modifies this
      ensures projects == old(projects) + [Project(id, title, description, numOfPeople, Active)]
      ensures listeners == old(listeners)
      ensures log == old(log) + Round(listeners, projects)
    {
      var newProject := Project(id, title, description, numOfPeople, Active);
      projects := projects + [newProject];
      UpdateListeners();
    }

    /** Sets the status of the first project with `projectId`, and notifies,
        only when that project exists and its status differs. */
    method MoveProject(projectId: string, newStatus: ProjectStatus)
      modifies this
      ensures projects == Moved(old(projects), projectId, newStatus)
      ensures listeners == old(listeners)
      ensures log == old(log) +
        (if MoveChanges(old(projects), projectId, newStatus) then Round(listeners, projects) else [])
    {
      var found := FindIndex(projects, projectId);
      if found.Some? && projects[found.value].status != newStatus {
        var k := found.value;
        projects := projects[k := projects[k].(status := newStatus)];
        UpdateListeners();
      }
    }

    /** Hands every listener, in registration order, a copy of all projects. */
    method UpdateListeners()
      modifies this`log
      ensures log == old(log) + Round(listeners, projects)
    {
      var i := 0;
      while i < |listeners|
        invariant 0 <= i <= |listeners|
        invariant log == old(log) + Round(listeners[..i], projects)
      {
        assert listeners[..i + 1][..i] == listeners[..i];
        log := log + [Delivery(i, listeners[i], projects)];
        i := i + 1;
      }
      assert listeners[..i] == listeners;
    }
  }

  /** The static `instance` field behind `ProjectState.getInstance`. The
      ghost counter records how many stores it has constructed. */
  class InstanceSlot {
    var instance: ProjectState?
    ghost var constructed: nat

    ghost predicate Valid()
      reads this
    {
      constructed <= 1 && (instance == null <==> constructed == 0)
    }

    constructor()
      ensures Valid() && instance == null
    {
      instance := null;
      constructed := 0;
    }

    /** Returns the existing store, or constructs the one and only store on
        the first call. */
    method GetInstance() returns (s: ProjectState)
      requires Valid()
      modifies this
      ensures Valid() && instance == s
      ensures old(instance) != null ==> s == old(instance) && constructed == old(constructed)
      ensures old(instance) == null ==>
        fresh(s) && s.projects == [] && s.listeners == [] && s.log == [] && constructed == 1
    {
      if instance != null {
        return instance;
      }
      instance := new ProjectState();
      constructed := constructed + 1;
      s := instance;
    }
  }
}
