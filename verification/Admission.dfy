/**
 Admission of spend bundles from many submitters at once, each taking the mempool lock in separate
 scopes, with the mempool free to evict or promote between any two steps.
 */
module Admission {
  type TxName = nat

  const SEEN_CACHE_SIZE: nat := 10000

  datatype Answer = Success | AlreadyIncluding | Invalid | Rejected | StoreError

  /** What validation or the mempool says of a bundle; `Broken` is a store that cannot be read. */
  datatype Verdict = Good | Bad | Broken

  /** Where a submission stands: each stage ends with one locked scope. */
  datatype Stage =
    | Arriving
    | Validating
    | Condemned
    | Admitting
    | Announcing
    | Answered(answer: Answer)

  datatype Task = Task(name: TxName, stage: Stage)

  /** Resident names, the bounded seen list, the announces queued, and a log of names newly resident. */
  datatype State = State(resident: set<TxName>, seen: seq<TxName>, announces: seq<TxName>, admits: seq<TxName>, tasks: seq<Task>)

  /** One step: a submission moves, or the mempool changes its residents by itself. */
  datatype Event =
    | Submit(task: nat, verdict: Verdict, evicted: set<TxName>)
    | Mempool(residents: set<TxName>)

  function Start(names: seq<TxName>): State {
    State({}, [], [], [], seq(|names|, i requires 0 <= i < |names| => Task(names[i], Arriving)))
  }

  function Without(s: seq<TxName>, name: TxName): seq<TxName> {
    if s == [] then []
    else Without(s[..|s| - 1], name) + if s[|s| - 1] == name then [] else [s[|s| - 1]]
  }

  function Trimmed(s: seq<TxName>): seq<TxName> {
    if |s| > SEEN_CACHE_SIZE then s[|s| - SEEN_CACHE_SIZE..] else s
  }

  function AddSeen(seen: seq<TxName>, name: TxName): seq<TxName> {
    if name in seen then seen else Trimmed(seen + [name])
  }

  function RemoveSeen(seen: seq<TxName>, name: TxName): seq<TxName> {
    if name in seen then Without(seen, name) else seen
  }

  function At(s: State, i: nat, stage: Stage): State
    requires i < |s.tasks|
  {
    s.(tasks := s.tasks[i := s.tasks[i].(stage := stage)])
  }

  /** The next locked scope of submission `i`; `verdict` is what validation or the mempool decides. */
  function Advance(s: State, i: nat, verdict: Verdict, evicted: set<TxName>): (r: State)
    requires i < |s.tasks|
    ensures |r.tasks| == |s.tasks|
  {
    var name := s.tasks[i].name;
    match s.tasks[i].stage
    case Arriving =>
      if name in s.resident then At(s, i, Answered(Success)).(seen := RemoveSeen(s.seen, name))
      else if name in s.seen then At(s, i, Answered(AlreadyIncluding))
      else At(s, i, Validating)
    case Validating => At(s, i, match verdict case Good => Admitting case Bad => Condemned case Broken => Answered(StoreError))
    case Condemned => At(s, i, Answered(Invalid)).(seen := AddSeen(s.seen, name))
    case Admitting =>
      if name in s.resident then At(s, i, Answered(Success))
      else if !verdict.Good? then At(s, i, Answered(Rejected))
      else At(s, i, Announcing).(resident := (s.resident - evicted) + {name}, seen := AddSeen(s.seen, name),
                                 admits := s.admits + [name])
    case Announcing => At(s, i, Answered(Success)).(announces := s.announces + [name])
    case Answered(_) => s
  }

  function Step(s: State, e: Event): (r: State)
    ensures |r.tasks| == |s.tasks|
  {
    match e
    case Submit(i, verdict, evicted) => if i < |s.tasks| then Advance(s, i, verdict, evicted) else s
    case Mempool(residents) => s.(resident := residents)
  }

  function Run(s: State, events: seq<Event>): (r: State)
    ensures |r.tasks| == |s.tasks|
  {
    if events == [] then s else Step(Run(s, events[..|events| - 1]), events[|events| - 1])
  }

  // ---- Announces and admissions balance -----------------------------------------------------------------

  function Times(s: seq<TxName>, name: TxName): nat {
    if s == [] then 0 else Times(s[..|s| - 1], name) + if s[|s| - 1] == name then 1 else 0
  }

  function Owes(t: Task, name: TxName): nat {
    if t.name == name && t.stage.Announcing? then 1 else 0
  }

  /** Submissions of `name` that admitted it and have not announced yet. */
  function Owing(ts: seq<Task>, name: TxName): nat {
    if ts == [] then 0 else Owing(ts[..|ts| - 1], name) + Owes(ts[|ts| - 1], name)
  }

  lemma {:induction false} OwingChange(ts: seq<Task>, i: nat, t: Task, name: TxName)
    requires i < |ts|
    ensures Owing(ts[i := t], name) == Owing(ts, name) - Owes(ts[i], name) + Owes(t, name)
    decreases |ts|
  {
    var m := |ts| - 1;
    if i < m {
      OwingChange(ts[..m], i, t, name);
      assert ts[i := t][..m] == ts[..m][i := t];
    } else {
      assert ts[i := t][..m] == ts[..m];
    }
  }

  lemma TimesGrow(s: seq<TxName>, x: TxName, name: TxName)
    ensures Times(s + [x], name) == Times(s, name) + if x == name then 1 else 0
  {
    assert (s + [x])[..|s|] == s;
  }

  ghost predicate Balanced(s: State, name: TxName) {
    Times(s.announces, name) + Owing(s.tasks, name) == Times(s.admits, name)
  }

  lemma AdvanceBalances(s: State, i: nat, verdict: Verdict, evicted: set<TxName>, name: TxName)
    requires i < |s.tasks| && Balanced(s, name)
    ensures Balanced(Advance(s, i, verdict, evicted), name)
  {
    hide Times, Owing, AddSeen, RemoveSeen;
    var r := Advance(s, i, verdict, evicted);
    OwingChange(s.tasks, i, r.tasks[i], name);
    assert r.tasks == s.tasks[i := r.tasks[i]];
    TimesGrow(s.announces, s.tasks[i].name, name);
    TimesGrow(s.admits, s.tasks[i].name, name);
  }

  lemma {:induction false} NobodyOwes(ts: seq<Task>, name: TxName)
    requires forall i :: 0 <= i < |ts| ==> !ts[i].stage.Announcing?
    ensures Owing(ts, name) == 0
    decreases |ts|
  {
    if ts != [] {
      NobodyOwes(ts[..|ts| - 1], name);
    }
  }

  /** In every run, for every name, announces queued and announces owed are the admissions. */
  lemma {:induction false} RunBalances(names: seq<TxName>, events: seq<Event>, name: TxName)
    ensures Balanced(Run(Start(names), events), name)
    decreases |events|
  {
    if events == [] {
      NobodyOwes(Start(names).tasks, name);
    } else {
      var s, e := Run(Start(names), events[..|events| - 1]), events[|events| - 1];
      RunBalances(names, events[..|events| - 1], name);
      if e.Submit? && e.task < |s.tasks| {
        AdvanceBalances(s, e.task, e.verdict, e.evicted, name);
      }
    }
  }

  /** The log of admissions is exact: a submission logs a name when, and only when, it makes it resident. */
  lemma AdmitsAreNew(s: State, i: nat, verdict: Verdict, evicted: set<TxName>)
    requires i < |s.tasks|
    ensures var r := Advance(s, i, verdict, evicted);
            var name := s.tasks[i].name;
            && r.resident <= s.resident + {name}
            && r.admits == (if name in r.resident && name !in s.resident then s.admits + [name] else s.admits)
  {
  }

  /** Once every submission has answered, each admission was announced exactly once. */
  lemma AllAnnounced(names: seq<TxName>, events: seq<Event>, name: TxName)
    requires forall i :: 0 <= i < |names| ==> Run(Start(names), events).tasks[i].stage.Answered?
    ensures Times(Run(Start(names), events).announces, name) == Times(Run(Start(names), events).admits, name)
  {
    RunBalances(names, events, name);
    NobodyOwes(Run(Start(names), events).tasks, name);
  }

  // ---- Admissions and residency ----------------------------------------------------------------------------

  /** How often `name` left the mempool during a run. */
  function Left(s: State, events: seq<Event>, name: TxName): nat {
    if events == [] then 0
    else
      var init := events[..|events| - 1];
      var before, after := Run(s, init), Run(s, events);
      Left(s, init, name) + if name in before.resident && name !in after.resident then 1 else 0
  }

  /** How often the mempool made `name` resident by itself during a run. */
  function Promoted(s: State, events: seq<Event>, name: TxName): nat {
    if events == [] then 0
    else
      var init := events[..|events| - 1];
      var before, after := Run(s, init), Run(s, events);
      Promoted(s, init, name) +
      if events[|events| - 1].Mempool? && name !in before.resident && name in after.resident then 1 else 0
  }

  function Present(s: State, name: TxName): nat {
    if name in s.resident then 1 else 0
  }

  /** In every run a name came in, by admission or promotion, as often as it left, and once more if it is resident. */
  lemma {:induction false} ResidencyBalances(names: seq<TxName>, events: seq<Event>, name: TxName)
    ensures var s := Run(Start(names), events);
            Times(s.admits, name) + Promoted(Start(names), events, name) == Left(Start(names), events, name) + Present(s, name)
    decreases |events|
  {
    if events != [] {
      var s, e := Run(Start(names), events[..|events| - 1]), events[|events| - 1];
      ResidencyBalances(names, events[..|events| - 1], name);
      hide Run, Left, Promoted, AddSeen, RemoveSeen;
      if e.Submit? && e.task < |s.tasks| {
        AdmitsAreNew(s, e.task, e.verdict, e.evicted);
        KeepsOrEvicts(s, e.task, e.verdict, e.evicted, name);
        TimesGrow(s.admits, s.tasks[e.task].name, name);
      }
    }
  }

  /** A submission makes no other name resident. */
  lemma KeepsOrEvicts(s: State, i: nat, verdict: Verdict, evicted: set<TxName>, name: TxName)
    requires i < |s.tasks|
    ensures name in Advance(s, i, verdict, evicted).resident && name !in s.resident ==> name == s.tasks[i].name
  {
  }

  /**
   In every run a name is announced, or owed an announce, at most once more than it left the mempool.
   While it never leaves, only one of any number of submissions of it announces.
   */
  lemma AnnouncedOncePerStay(names: seq<TxName>, events: seq<Event>, name: TxName)
    ensures var s := Run(Start(names), events);
            Times(s.announces, name) + Owing(s.tasks, name) <= Left(Start(names), events, name) + 1
  {
    hide Run, Left, Promoted, Times, Owing;
    RunBalances(names, events, name);
    ResidencyBalances(names, events, name);
  }

  // ---- The seen list stays bounded -----------------------------------------------------------------------

  ghost predicate Tidy(seen: seq<TxName>) {
    |seen| <= SEEN_CACHE_SIZE && forall i, j :: 0 <= i < j < |seen| ==> seen[i] != seen[j]
  }

  lemma {:induction false} WithoutIs(s: seq<TxName>, name: TxName)
    requires forall i, j :: 0 <= i < j < |s| ==> s[i] != s[j]
    ensures |Without(s, name)| <= |s| && name !in Without(s, name)
    ensures forall x :: x in Without(s, name) <==> x in s && x != name
    ensures forall i, j :: 0 <= i < j < |Without(s, name)| ==> Without(s, name)[i] != Without(s, name)[j]
    decreases |s|
  {
    if s != [] {
      var m := |s| - 1;
      WithoutIs(s[..m], name);
      assert s == s[..m] + [s[m]];
      assert s[m] !in s[..m];
    }
  }

  lemma AddSeenIsTidy(seen: seq<TxName>, name: TxName)
    requires Tidy(seen)
    ensures Tidy(AddSeen(seen, name)) && name in AddSeen(seen, name)
  {
    var more := seen + [name];
    assert more[|more| - 1] == name;
    if name !in seen {
      var r := Trimmed(more);
      assert r[|r| - 1] == name;
    }
  }

  lemma RemoveSeenIsTidy(seen: seq<TxName>, name: TxName)
    requires Tidy(seen)
    ensures Tidy(RemoveSeen(seen, name)) && name !in RemoveSeen(seen, name)
    ensures forall x :: x in RemoveSeen(seen, name) <==> x in seen && x != name
  {
    WithoutIs(seen, name);
  }

  /** A name joins the seen list only by a failed validation or an admission: a store fault leaves no trace. */
  lemma SeenMeansDecided(s: State, i: nat, verdict: Verdict, evicted: set<TxName>, name: TxName)
    requires i < |s.tasks| && Tidy(s.seen)
    requires name in Advance(s, i, verdict, evicted).seen && name !in s.seen
    ensures name == s.tasks[i].name
    ensures s.tasks[i].stage == Condemned || (s.tasks[i].stage == Admitting && name in Advance(s, i, verdict, evicted).resident)
  {
    var mine := s.tasks[i].name;
    RemoveSeenIsTidy(s.seen, mine);
    if name != mine && name in AddSeen(s.seen, mine) {
      AddSeenKeeps(s.seen, mine, name);
    }
  }

  lemma AddSeenKeeps(seen: seq<TxName>, mine: TxName, name: TxName)
    requires name in AddSeen(seen, mine) && name != mine
    ensures name in seen
  {
    var more := seen + [mine];
    var r := Trimmed(more);
    if mine !in seen {
      var k :| 0 <= k < |r| && r[k] == name;
      assert name == more[k + (|more| - |r|)];
    }
  }

  lemma {:induction false} SeenStaysTidy(names: seq<TxName>, events: seq<Event>)
    ensures Tidy(Run(Start(names), events).seen)
    decreases |events|
  {
    hide Tidy, AddSeen, RemoveSeen;
    if events == [] {
      NothingSeen();
    } else {
      var s, e := Run(Start(names), events[..|events| - 1]), events[|events| - 1];
      SeenStaysTidy(names, events[..|events| - 1]);
      if e.Submit? && e.task < |s.tasks| {
        AddSeenIsTidy(s.seen, s.tasks[e.task].name);
        RemoveSeenIsTidy(s.seen, s.tasks[e.task].name);
      }
    }
  }

  lemma NothingSeen()
    ensures Tidy([])
  {
  }
}
