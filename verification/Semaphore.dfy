/**
 The bounded semaphore in front of wallet requests, as interleaved atomic steps of any number of
 acquires: take a slot or fail, wait for an active permit, and give both back.
 */
module Semaphore {

  datatype Task =
    | Idle
    | Refused
    | Failed
    | Waiting
    | Holding
    | Releasing
    | Finished

  /** `available` slots, which a burst may drive below zero, and free active permits. */
  datatype State = State(available: int, permits: nat, tasks: seq<Task>)

  datatype Limits = Limits(active: nat, waiting: nat)

  function Start(l: Limits, tasks: nat): State {
    State(l.active + l.waiting, l.active, seq(tasks, _ => Idle))
  }

  /** Whether task `i` can move: a waiting task needs a free permit. */
  predicate Enabled(s: State, i: nat) {
    i < |s.tasks| && (s.tasks[i].Waiting? ==> s.permits > 0)
  }

  /** The next atomic step of task `i`. */
  function Move(s: State, i: nat): (r: State)
    requires Enabled(s, i)
    ensures |r.tasks| == |s.tasks|
  {
    match s.tasks[i]
    case Idle => s.(available := s.available - 1, tasks := s.tasks[i := if s.available < 1 then Refused else Waiting])
    case Refused => s.(available := s.available + 1, tasks := s.tasks[i := Failed])
    case Waiting => s.(permits := s.permits - 1, tasks := s.tasks[i := Holding])
    case Holding => s.(available := s.available + 1, tasks := s.tasks[i := Releasing])
    case Releasing => s.(permits := s.permits + 1, tasks := s.tasks[i := Finished])
    case Failed => s
    case Finished => s
  }

  function Run(s: State, schedule: seq<nat>): (r: State)
    ensures |r.tasks| == |s.tasks|
  {
    if schedule == [] then s
    else
      var t := Run(s, schedule[..|schedule| - 1]);
      var i := schedule[|schedule| - 1];
      if Enabled(t, i) then Move(t, i) else t
  }

  function One(b: bool): nat {
    if b then 1 else 0
  }

  /** Tasks that hold a slot: waiting for a permit or running. */
  function Slots(ts: seq<Task>): nat {
    if ts == [] then 0
    else Slots(ts[..|ts| - 1]) + One(ts[|ts| - 1].Waiting? || ts[|ts| - 1].Holding?)
  }

  /** Failed acquires that have not yet given back their decrement. */
  function Unrestored(ts: seq<Task>): nat {
    if ts == [] then 0 else Unrestored(ts[..|ts| - 1]) + One(ts[|ts| - 1].Refused?)
  }

  /** Tasks that hold an active permit. */
  function Active(ts: seq<Task>): nat {
    if ts == [] then 0
    else Active(ts[..|ts| - 1]) + One(ts[|ts| - 1].Holding? || ts[|ts| - 1].Releasing?)
  }

  lemma {:induction false} CountsChange(ts: seq<Task>, i: nat, t: Task)
    requires i < |ts|
    ensures Slots(ts[i := t]) == Slots(ts) - One(ts[i].Waiting? || ts[i].Holding?) + One(t.Waiting? || t.Holding?)
    ensures Unrestored(ts[i := t]) == Unrestored(ts) - One(ts[i].Refused?) + One(t.Refused?)
    ensures Active(ts[i := t]) == Active(ts) - One(ts[i].Holding? || ts[i].Releasing?) + One(t.Holding? || t.Releasing?)
    decreases |ts|
  {
    var m := |ts| - 1;
    if i < m {
      CountsChange(ts[..m], i, t);
      assert ts[i := t][..m] == ts[..m][i := t];
    } else {
      assert ts[i := t][..m] == ts[..m];
    }
  }

  /** Slots, refusals in flight and the counter always add up; so do permits. */
  ghost predicate Conserved(l: Limits, s: State) {
    && s.available + Slots(s.tasks) + Unrestored(s.tasks) == l.active + l.waiting
    && s.permits + Active(s.tasks) == l.active
    && Slots(s.tasks) <= l.active + l.waiting
  }

  lemma MoveConserves(l: Limits, s: State, i: nat)
    requires Conserved(l, s) && Enabled(s, i)
    ensures Conserved(l, Move(s, i))
  {
    CountsChange(s.tasks, i, Move(s, i).tasks[i]);
    assert Move(s, i).tasks == s.tasks[i := Move(s, i).tasks[i]];
  }

  lemma {:induction false} StartConserves(ts: seq<Task>)
    requires forall i :: 0 <= i < |ts| ==> ts[i].Idle? || ts[i].Failed? || ts[i].Finished?
    ensures Slots(ts) == 0 && Unrestored(ts) == 0 && Active(ts) == 0
    decreases |ts|
  {
    if ts != [] {
      StartConserves(ts[..|ts| - 1]);
    }
  }

  /**
   In every interleaving the slots in use, the refusals not yet undone and the counter sum to the
   two limits; at most that many acquires hold a slot, and at most `active` run.
   */
  lemma {:induction false} RunConserves(l: Limits, tasks: nat, schedule: seq<nat>)
    ensures Conserved(l, Run(Start(l, tasks), schedule))
    ensures Active(Run(Start(l, tasks), schedule).tasks) <= l.active
    decreases |schedule|
  {
    if schedule == [] {
      StartConserves(Start(l, tasks).tasks);
    } else {
      var t, i := Run(Start(l, tasks), schedule[..|schedule| - 1]), schedule[|schedule| - 1];
      RunConserves(l, tasks, schedule[..|schedule| - 1]);
      if Enabled(t, i) {
        MoveConserves(l, t, i);
      }
    }
  }

  ghost predicate Quiet(s: State) {
    forall i :: 0 <= i < |s.tasks| ==> s.tasks[i].Idle? || s.tasks[i].Failed? || s.tasks[i].Finished?
  }

  /** With nothing in flight the semaphore is back where it started. */
  lemma QuietIsFull(l: Limits, tasks: nat, schedule: seq<nat>)
    requires Quiet(Run(Start(l, tasks), schedule))
    ensures var r := Run(Start(l, tasks), schedule); r.available == l.active + l.waiting && r.permits == l.active
  {
    RunConserves(l, tasks, schedule);
    StartConserves(Run(Start(l, tasks), schedule).tasks);
  }

  /** An acquire fails exactly when slots in use and refusals in flight already fill both limits. */
  lemma RefusedWhenFull(l: Limits, s: State, i: nat)
    requires Conserved(l, s) && i < |s.tasks| && s.tasks[i].Idle?
    ensures Move(s, i).tasks[i].Refused? <==> Slots(s.tasks) + Unrestored(s.tasks) >= l.active + l.waiting
  {
  }

  /** No acquire waits for ever: while anything is in flight, some task that is not idle can move. */
  lemma SomeoneMoves(l: Limits, s: State)
    requires Conserved(l, s) && l.active > 0 && !Quiet(s)
    ensures exists i :: 0 <= i < |s.tasks| && !s.tasks[i].Idle? && !s.tasks[i].Failed? && !s.tasks[i].Finished? && Enabled(s, i)
  {
    var i :| 0 <= i < |s.tasks| && !(s.tasks[i].Idle? || s.tasks[i].Failed? || s.tasks[i].Finished?);
    if !Enabled(s, i) {
      var h := HolderExists(s.tasks);
      assert Enabled(s, h);
    }
  }

  lemma {:induction false} HolderExists(ts: seq<Task>) returns (h: nat)
    requires Active(ts) > 0
    ensures h < |ts| && (ts[h].Holding? || ts[h].Releasing?)
    decreases |ts|
  {
    var m := |ts| - 1;
    if ts[m].Holding? || ts[m].Releasing? {
      h := m;
    } else {
      h := HolderExists(ts[..m]);
    }
  }
}
