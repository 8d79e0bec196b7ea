/**
 What each submission is answered, and which one makes a name resident, over whole runs: everything is
 read off what the submission found each time it took the mempool lock.
 */
module Submissions {
  import opened Admission

  /** What a submission finds when it moves: its name resident, its name seen, and the verdict it is given. */
  datatype Look = Look(resident: bool, seen: bool, verdict: Verdict)

  /** The looks of submission `i` during a run. */
  function Looks(names: seq<TxName>, events: seq<Event>, i: nat): seq<Look>
    requires i < |names|
  {
    if events == [] then []
    else
      var init, e := events[..|events| - 1], events[|events| - 1];
      var s := Run(Start(names), init);
      Looks(names, init, i) +
      if e.Submit? && e.task == i then [Look(names[i] in s.resident, names[i] in s.seen, e.verdict)] else []
  }

  predicate FoundResident(l: seq<Look>) {
    |l| >= 1 && l[0].resident
  }

  predicate FoundSeen(l: seq<Look>) {
    |l| >= 1 && !l[0].resident && l[0].seen
  }

  /** The submission found its name neither resident nor seen, and validation said `v`. */
  predicate Validated(l: seq<Look>, v: Verdict) {
    |l| >= 2 && !l[0].resident && !l[0].seen && l[1].verdict == v
  }

  /** Valid, but somebody else had made the name resident meanwhile. */
  predicate Overtaken(l: seq<Look>) {
    Validated(l, Good) && |l| >= 3 && l[2].resident
  }

  predicate Refused(l: seq<Look>) {
    Validated(l, Good) && |l| >= 3 && !l[2].resident && !l[2].verdict.Good?
  }

  predicate Admitted(l: seq<Look>) {
    Validated(l, Good) && |l| >= 3 && !l[2].resident && l[2].verdict.Good?
  }

  /** Where a submission stands after its looks. */
  ghost predicate StandsAt(l: seq<Look>, stage: Stage) {
    && (stage == Arriving <==> |l| == 0)
    && (stage == Validating <==> |l| == 1 && !l[0].resident && !l[0].seen)
    && (stage == Condemned <==> |l| == 2 && Validated(l, Bad))
    && (stage == Admitting <==> |l| == 2 && Validated(l, Good))
    && (stage == Announcing <==> |l| == 3 && Admitted(l))
    && (stage == Answered(Success) <==> FoundResident(l) || Overtaken(l) || (Admitted(l) && |l| >= 4))
    && (stage == Answered(AlreadyIncluding) <==> FoundSeen(l))
    && (stage == Answered(Invalid) <==> Validated(l, Bad) && |l| >= 3)
    && (stage == Answered(Rejected) <==> Refused(l))
    && (stage == Answered(StoreError) <==> Validated(l, Broken))
  }

  /** One more look of the submission moves it on. */
  lemma LookMoves(s: State, i: nat, verdict: Verdict, evicted: set<TxName>, l: seq<Look>)
    requires i < |s.tasks| && StandsAt(l, s.tasks[i].stage)
    ensures var name := s.tasks[i].name;
            StandsAt(l + [Look(name in s.resident, name in s.seen, verdict)], Advance(s, i, verdict, evicted).tasks[i].stage)
  {
    hide AddSeen, RemoveSeen;
  }

  /** Tasks keep their names, and an event moves only its own. */
  lemma OthersStay(s: State, e: Event, i: nat)
    requires i < |s.tasks|
    ensures Step(s, e).tasks[i].name == s.tasks[i].name
    ensures !(e.Submit? && e.task == i) ==> Step(s, e).tasks[i] == s.tasks[i]
  {
    hide AddSeen, RemoveSeen;
  }

  lemma {:induction false} NamesStay(names: seq<TxName>, events: seq<Event>, i: nat)
    requires i < |names|
    ensures Run(Start(names), events).tasks[i].name == names[i]
    decreases |events|
  {
    if events != [] {
      NamesStay(names, events[..|events| - 1], i);
      OthersStay(Run(Start(names), events[..|events| - 1]), events[|events| - 1], i);
    }
  }

  /**
   In every run, the answer of every submission: success exactly when it found its name resident, on
   arrival or before the mempool took it, or admitted it and announced it; already-including exactly when
   the name was seen and not resident on arrival; invalid exactly after validation failed; rejected
   exactly when the mempool refused it; store error exactly when validation could not read the store.
   */
  lemma {:induction false} AnswersFollowLooks(names: seq<TxName>, events: seq<Event>, i: nat)
    requires i < |names|
    ensures StandsAt(Looks(names, events, i), Run(Start(names), events).tasks[i].stage)
    decreases |events|
  {
    if events != [] {
      var init, e := events[..|events| - 1], events[|events| - 1];
      var s := Run(Start(names), init);
      AnswersFollowLooks(names, init, i);
      NamesStay(names, init, i);
      OthersStay(s, e, i);
      hide StandsAt, Advance, Run;
      if e.Submit? && e.task == i {
        LookMoves(s, i, e.verdict, e.evicted, Looks(names, init, i));
      } else {
        assert Looks(names, events, i) == Looks(names, init, i);
      }
    }
  }

  // ---- Who makes a name resident ------------------------------------------------------------------------

  /** A submission makes its name resident exactly by the look with which it is admitted. */
  lemma ResidentByAdmission(names: seq<TxName>, events: seq<Event>, verdict: Verdict, evicted: set<TxName>, i: nat)
    requires i < |names|
    ensures var e := Submit(i, verdict, evicted);
            var s, r := Run(Start(names), events), Run(Start(names), events + [e]);
            var l, l' := Looks(names, events, i), Looks(names, events + [e], i);
            && (names[i] !in s.resident && names[i] in r.resident <==> Admitted(l') && !Admitted(l))
            && (Admitted(l') && !Admitted(l) <==> |l'| == 3 && Admitted(l'))
            && (forall x :: x != names[i] && x in r.resident ==> x in s.resident)
  {
    var e := Submit(i, verdict, evicted);
    assert (events + [e])[..|events|] == events;
    AnswersFollowLooks(names, events, i);
    NamesStay(names, events, i);
    hide AddSeen, RemoveSeen, Run;
  }

  /** How many of the first `n` submissions are of `name` and were admitted. */
  function AdmittedCount(names: seq<TxName>, events: seq<Event>, name: TxName, n: nat): nat
    requires n <= |names|
  {
    if n == 0 then 0
    else
      AdmittedCount(names, events, name, n - 1) +
      if names[n - 1] == name && Admitted(Looks(names, events, n - 1)) then 1 else 0
  }

  lemma {:induction false} NoneAdmitted(names: seq<TxName>, name: TxName, n: nat)
    requires n <= |names|
    ensures AdmittedCount(names, [], name, n) == 0
  {
    if n > 0 {
      NoneAdmitted(names, name, n - 1);
    }
  }

  /** An event changes the looks of its own submission only. */
  lemma {:induction false} CountMoves(names: seq<TxName>, init: seq<Event>, e: Event, name: TxName, n: nat)
    requires n <= |names|
    ensures AdmittedCount(names, init + [e], name, n) == AdmittedCount(names, init, name, n) +
              if e.Submit? && e.task < n && names[e.task] == name
                && Admitted(Looks(names, init + [e], e.task)) && !Admitted(Looks(names, init, e.task)) then 1 else 0
  {
    hide Looks, Admitted;
    if n > 0 {
      CountMoves(names, init, e, name, n - 1);
      LooksGrow(names, init, e, n - 1);
    }
  }

  lemma LooksGrow(names: seq<TxName>, init: seq<Event>, e: Event, i: nat)
    requires i < |names|
    ensures Looks(names, init, i) <= Looks(names, init + [e], i)
    ensures !(e.Submit? && e.task == i) ==> Looks(names, init + [e], i) == Looks(names, init, i)
    ensures Admitted(Looks(names, init, i)) ==> Admitted(Looks(names, init + [e], i))
  {
    assert (init + [e])[..|init|] == init;
    hide Run;
  }

  /** In every run the admissions logged for a name are the submissions of it that were admitted. */
  lemma {:induction false} AdmissionsAreCounted(names: seq<TxName>, events: seq<Event>, name: TxName)
    ensures Times(Run(Start(names), events).admits, name) == AdmittedCount(names, events, name, |names|)
    decreases |events|
  {
    if events == [] {
      NoneAdmitted(names, name, |names|);
    } else {
      var init, e := events[..|events| - 1], events[|events| - 1];
      assert events == init + [e];
      AdmissionsAreCounted(names, init, name);
      CountMoves(names, init, e, name, |names|);
      if e.Submit? && e.task < |names| {
        AdmitsLogged(names, init, e.verdict, e.evicted, e.task, name);
      }
    }
  }

  lemma AdmitsLogged(names: seq<TxName>, init: seq<Event>, verdict: Verdict, evicted: set<TxName>, i: nat, name: TxName)
    requires i < |names|
    ensures var e := Submit(i, verdict, evicted);
            Times(Run(Start(names), init + [e]).admits, name) == Times(Run(Start(names), init).admits, name) +
              if names[i] == name && Admitted(Looks(names, init + [e], i)) && !Admitted(Looks(names, init, i)) then 1 else 0
  {
    var e := Submit(i, verdict, evicted);
    var s := Run(Start(names), init);
    assert (init + [e])[..|init|] == init;
    ResidentByAdmission(names, init, verdict, evicted, i);
    NamesStay(names, init, i);
    AdmitsAreNew(s, i, verdict, evicted);
    TimesGrow(s.admits, names[i], name);
    hide Advance, Admitted, Looks, Times;
  }

  /**
   In every run a name has been announced once for each submission of it that was admitted and moved
   again: those admitted and still to announce are the only ones missing.
   */
  lemma AnnouncesAreCounted(names: seq<TxName>, events: seq<Event>, name: TxName)
    ensures var s := Run(Start(names), events);
            Times(s.announces, name) + Owing(s.tasks, name) == AdmittedCount(names, events, name, |names|)
  {
    AdmissionsAreCounted(names, events, name);
    RunBalances(names, events, name);
  }

  // ---- The seen list, exactly -----------------------------------------------------------------------------

  /** `name` joins a list of at most 10 000, the oldest leaving a full one; a name that is there stays where it is. */
  ghost predicate Joins(seen: seq<TxName>, name: TxName, r: seq<TxName>) {
    if name in seen then r == seen
    else if |seen| < 10000 then r == seen + [name]
    else r == seen[1..] + [name]
  }

  /** `name` leaves the list; the others keep their order. */
  ghost predicate Leaves(seen: seq<TxName>, name: TxName, r: seq<TxName>) {
    if name in seen then exists k :: 0 <= k < |seen| && seen[k] == name && r == seen[..k] + seen[k + 1..]
    else r == seen
  }

  lemma {:induction false} WithoutAbsent(s: seq<TxName>, name: TxName)
    requires name !in s
    ensures Without(s, name) == s
    decreases |s|
  {
    if s != [] {
      WithoutAbsent(s[..|s| - 1], name);
    }
  }

  lemma {:induction false} WithoutLeaves(s: seq<TxName>, name: TxName, k: nat)
    requires k < |s| && s[k] == name && forall i :: 0 <= i < |s| && i != k ==> s[i] != name
    ensures Without(s, name) == s[..k] + s[k + 1..]
    decreases |s|
  {
    var m := |s| - 1;
    var init := s[..m];
    if k < m {
      WithoutLeaves(init, name, k);
      assert init[..k] == s[..k] && init[k + 1..] + [s[m]] == s[k + 1..];
    } else {
      WithoutAbsent(init, name);
      assert s[k + 1..] == [];
    }
  }

  /**
   In every run, what one more look does to the seen list: the name joins when its validation failed or it
   was admitted, leaves when it is found resident on arrival, and nothing else changes.
   */
  lemma SeenFollowsLooks(names: seq<TxName>, events: seq<Event>, verdict: Verdict, evicted: set<TxName>, i: nat)
    requires i < |names|
    ensures var e := Submit(i, verdict, evicted);
            var s, r := Run(Start(names), events).seen, Run(Start(names), events + [e]).seen;
            var l := Looks(names, events + [e], i);
            if |l| == 3 && (Validated(l, Bad) || Admitted(l)) then Joins(s, names[i], r)
            else if |l| == 1 && FoundResident(l) then Leaves(s, names[i], r)
            else r == s
  {
    var e := Submit(i, verdict, evicted);
    var s := Run(Start(names), events);
    assert (events + [e])[..|events|] == events;
    AnswersFollowLooks(names, events, i);
    NamesStay(names, events, i);
    SeenStaysTidy(names, events);
    AddSeenJoins(s.seen, names[i]);
    RemoveSeenLeaves(s.seen, names[i]);
    hide AddSeen, RemoveSeen, Run, Joins, Leaves, Tidy;
  }

  lemma AddSeenJoins(seen: seq<TxName>, name: TxName)
    requires Tidy(seen)
    ensures Joins(seen, name, AddSeen(seen, name))
  {
  }

  lemma RemoveSeenLeaves(seen: seq<TxName>, name: TxName)
    requires Tidy(seen)
    ensures Leaves(seen, name, RemoveSeen(seen, name))
  {
    if name in seen {
      var k :| 0 <= k < |seen| && seen[k] == name;
      WithoutLeaves(seen, name, k);
    }
  }
}
