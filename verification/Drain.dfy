/**
 The parallel proof drain: workers share an atomic cursor over the jobs and a failure flag. Each
 atomic access is one step, and a flag read may miss a store made by another worker.
 */
module Drain {
  datatype Worker =
    | Checking
    | Claiming
    | Holding(job: nat)
    | Failing
    | Stopping
    | Done(ok: bool)

  datatype Pool = Pool(next: nat, failed: bool, workers: seq<Worker>)

  /** One scheduling choice: which worker moves, and whether a flag read sees a store. */
  datatype Choice = Choice(worker: nat, sees: bool)

  type Check = nat -> bool

  function Start(workers: nat): (p: Pool)
    ensures |p.workers| == workers && forall w :: 0 <= w < workers ==> p.workers[w] == Checking
  {
    Pool(0, false, seq(workers, _ => Checking))
  }

  /** The next step of worker `w`. */
  function Move(jobs: nat, check: Check, p: Pool, w: nat, sees: bool): (r: Pool)
    requires w < |p.workers|
    ensures |r.workers| == |p.workers|
  {
    match p.workers[w]
    case Checking => p.(workers := p.workers[w := if p.failed && sees then Done(false) else Claiming])
    case Claiming => p.(next := p.next + 1, workers := p.workers[w := if p.next < jobs then Holding(p.next) else Done(true)])
    case Holding(n) => p.(workers := p.workers[w := if check(n) then Checking else Failing])
    case Failing => p.(failed := true, workers := p.workers[w := Stopping])
    case Stopping => p.(workers := p.workers[w := Done(false)])
    case Done(_) => p
  }

  function Run(jobs: nat, check: Check, p: Pool, schedule: seq<Choice>): (r: Pool)
    ensures |r.workers| == |p.workers|
  {
    if schedule == [] then p
    else
      var q := Run(jobs, check, p, schedule[..|schedule| - 1]);
      var c := schedule[|schedule| - 1];
      if c.worker < |q.workers| then Move(jobs, check, q, c.worker, c.sees) else q
  }

  ghost predicate Finished(p: Pool) {
    forall w :: 0 <= w < |p.workers| ==> p.workers[w].Done?
  }

  /** What joining the workers returns. */
  ghost predicate Joined(p: Pool) {
    forall w :: 0 <= w < |p.workers| ==> p.workers[w] == Done(true)
  }

  ghost predicate AllGood(jobs: nat, check: Check) {
    forall n :: 0 <= n < jobs ==> check(n)
  }

  // ---- What every interleaving keeps ------------------------------------------------------------------

  predicate Blames(w: Worker) {
    w == Failing || w == Stopping || w == Done(false)
  }

  ghost predicate Blamed(p: Pool) {
    exists w :: 0 <= w < |p.workers| && Blames(p.workers[w])
  }

  ghost predicate Held(p: Pool, n: nat) {
    exists w :: 0 <= w < |p.workers| && p.workers[w] == Holding(n)
  }

  ghost predicate Kept(jobs: nat, check: Check, p: Pool) {
    && (forall w :: 0 <= w < |p.workers| && p.workers[w].Holding? ==> p.workers[w].job < jobs)
    && (forall n :: 0 <= n < jobs && n < p.next && !check(n) ==> Blamed(p) || Held(p, n))
    && (forall w :: 0 <= w < |p.workers| && p.workers[w] == Done(true) ==> p.next >= jobs)
    && (p.failed ==> Blamed(p))
    && (Blamed(p) ==> !AllGood(jobs, check))
  }

  lemma BlameStays(jobs: nat, check: Check, p: Pool, w: nat, sees: bool)
    requires w < |p.workers| && Blamed(p)
    ensures Blamed(Move(jobs, check, p, w, sees))
  {
    var b :| 0 <= b < |p.workers| && Blames(p.workers[b]);
    assert Blames(Move(jobs, check, p, w, sees).workers[b]);
  }

  lemma BlameStarts(jobs: nat, check: Check, p: Pool, w: nat, sees: bool)
    requires w < |p.workers| && Kept(jobs, check, p) && Blamed(Move(jobs, check, p, w, sees))
    ensures !AllGood(jobs, check)
  {
    var b :| 0 <= b < |p.workers| && Blames(Move(jobs, check, p, w, sees).workers[b]);
    assert b != w ==> Blames(p.workers[b]);
  }

  lemma BadStaysHeld(jobs: nat, check: Check, p: Pool, w: nat, sees: bool, n: nat)
    requires w < |p.workers| && Kept(jobs, check, p)
    requires n < jobs && n < Move(jobs, check, p, w, sees).next && !check(n)
    ensures Blamed(Move(jobs, check, p, w, sees)) || Held(Move(jobs, check, p, w, sees), n)
  {
    var r := Move(jobs, check, p, w, sees);
    if n == p.next {
      assert r.workers[w] == Holding(n);
    } else if Blamed(p) {
      BlameStays(jobs, check, p, w, sees);
    } else {
      var h :| 0 <= h < |p.workers| && p.workers[h] == Holding(n);
      assert if h == w then Blames(r.workers[h]) else r.workers[h] == Holding(n);
    }
  }

  lemma MoveKeeps(jobs: nat, check: Check, p: Pool, w: nat, sees: bool)
    requires w < |p.workers| && Kept(jobs, check, p)
    ensures Kept(jobs, check, Move(jobs, check, p, w, sees))
  {
    var r := Move(jobs, check, p, w, sees);
    forall n | 0 <= n < jobs && n < r.next && !check(n)
      ensures Blamed(r) || Held(r, n)
    {
      BadStaysHeld(jobs, check, p, w, sees, n);
    }
    if Blamed(p) {
      BlameStays(jobs, check, p, w, sees);
    }
    if Blamed(r) {
      BlameStarts(jobs, check, p, w, sees);
    }
    if p.workers[w].Failing? {
      assert Blames(r.workers[w]);
    }
  }

  lemma {:induction false} RunKeeps(jobs: nat, check: Check, workers: nat, schedule: seq<Choice>)
    ensures Kept(jobs, check, Run(jobs, check, Start(workers), schedule))
    decreases |schedule|
  {
    if schedule != [] {
      var c := schedule[|schedule| - 1];
      RunKeeps(jobs, check, workers, schedule[..|schedule| - 1]);
      if c.worker < workers {
        MoveKeeps(jobs, check, Run(jobs, check, Start(workers), schedule[..|schedule| - 1]), c.worker, c.sees);
      }
    }
  }

  lemma KeptDecides(jobs: nat, check: Check, p: Pool)
    requires Kept(jobs, check, p) && Finished(p) && p.workers != []
    ensures Joined(p) <==> AllGood(jobs, check)
  {
    if Joined(p) {
      assert p.workers[0] == Done(true);
      forall n | 0 <= n < jobs
        ensures check(n)
      {
        assert !Held(p, n);
      }
    } else {
      var w :| 0 <= w < |p.workers| && p.workers[w] != Done(true);
      assert Blames(p.workers[w]);
    }
  }

  /** Every finished interleaving returns the conjunction of all the checks. */
  lemma DrainIsAnd(jobs: nat, check: Check, workers: nat, schedule: seq<Choice>)
    requires workers > 0 && Finished(Run(jobs, check, Start(workers), schedule))
    ensures Joined(Run(jobs, check, Start(workers), schedule)) <==> AllGood(jobs, check)
  {
    RunKeeps(jobs, check, workers, schedule);
    KeptDecides(jobs, check, Run(jobs, check, Start(workers), schedule));
  }

  // ---- Every interleaving ends ----------------------------------------------------------------------------

  function Rank(w: Worker): nat {
    match w
    case Checking => 2
    case Claiming => 1
    case Holding(_) => 3
    case Failing => 2
    case Stopping => 1
    case Done(_) => 0
  }

  function Ranks(ws: seq<Worker>): nat {
    if ws == [] then 0 else Ranks(ws[..|ws| - 1]) + Rank(ws[|ws| - 1])
  }

  /** Steps left at most. */
  function Fuel(jobs: nat, p: Pool): nat {
    (if p.next < jobs then 3 * (jobs - p.next) else 0) + Ranks(p.workers)
  }

  lemma {:induction false} RanksUpdate(ws: seq<Worker>, i: nat, w: Worker)
    requires i < |ws|
    ensures Ranks(ws[i := w]) == Ranks(ws) - Rank(ws[i]) + Rank(w)
    decreases |ws|
  {
    var m := |ws| - 1;
    if i < m {
      RanksUpdate(ws[..m], i, w);
      assert ws[i := w][..m] == ws[..m][i := w];
    } else {
      assert ws[i := w][..m] == ws[..m];
    }
  }

  lemma MoveBurns(jobs: nat, check: Check, p: Pool, w: nat, sees: bool)
    requires w < |p.workers| && !p.workers[w].Done?
    ensures Fuel(jobs, Move(jobs, check, p, w, sees)) < Fuel(jobs, p)
  {
    var r := Move(jobs, check, p, w, sees);
    RanksUpdate(p.workers, w, r.workers[w]);
    assert r.workers == p.workers[w := r.workers[w]];
  }

  lemma {:induction false} StartRanks(ws: seq<Worker>)
    requires forall w :: 0 <= w < |ws| ==> ws[w] == Checking
    ensures Ranks(ws) == 2 * |ws|
    decreases |ws|
  {
    if ws != [] {
      StartRanks(ws[..|ws| - 1]);
    }
  }

  /** A schedule that only ever moves unfinished workers. */
  ghost predicate Busy(jobs: nat, check: Check, p: Pool, schedule: seq<Choice>) {
    forall k :: 0 <= k < |schedule| ==>
      && schedule[k].worker < |p.workers|
      && !Run(jobs, check, p, schedule[..k]).workers[schedule[k].worker].Done?
  }

  lemma {:induction false} RunBurns(jobs: nat, check: Check, p: Pool, schedule: seq<Choice>)
    requires Busy(jobs, check, p, schedule)
    ensures Fuel(jobs, Run(jobs, check, p, schedule)) + |schedule| <= Fuel(jobs, p)
    decreases |schedule|
  {
    if schedule != [] {
      var init, c := schedule[..|schedule| - 1], schedule[|schedule| - 1];
      assert forall k :: 0 <= k < |init| ==> init[..k] == schedule[..k];
      RunBurns(jobs, check, p, init);
      MoveBurns(jobs, check, Run(jobs, check, p, init), c.worker, c.sees);
    }
  }

  /** No interleaving runs for more than three steps a job and two a worker. */
  lemma DrainEnds(jobs: nat, check: Check, workers: nat, schedule: seq<Choice>)
    requires Busy(jobs, check, Start(workers), schedule)
    ensures |schedule| <= 3 * jobs + 2 * workers
  {
    RunBurns(jobs, check, Start(workers), schedule);
    StartRanks(Start(workers).workers);
  }

  // ---- The drain under any scheduler ------------------------------------------------------------------------

  /** The unfinished worker the scheduler lands on, looking from `from` on; none when all are done. */
  method Pick(p: Pool, from: nat) returns (w: nat)
    requires p.workers != []
    ensures w <= |p.workers|
    ensures w < |p.workers| ==> !p.workers[w].Done?
    ensures w == |p.workers| ==> Finished(p)
  {
    var n := |p.workers|;
    w := from % n;
    if !p.workers[w].Done? {
      return;
    }
    w := 0;
    while w < n && p.workers[w].Done?
      invariant w <= n && forall i :: 0 <= i < w ==> p.workers[i].Done?
    {
      w := w + 1;
    }
  }

  /** Run `workers` workers over the jobs; `scheduler` chooses every step. */
  method RunPool(jobs: nat, check: Check, workers: nat, scheduler: nat -> Choice) returns (ok: bool)
    requires workers > 0
    ensures ok <==> AllGood(jobs, check)
  {
    var p, tick := Start(workers), 0;
    RunKeeps(jobs, check, workers, []);
    while true
      invariant |p.workers| == workers && Kept(jobs, check, p)
      decreases Fuel(jobs, p)
    {
      var c := scheduler(tick);
      var w := Pick(p, c.worker);
      if w == workers {
        break;
      }
      MoveBurns(jobs, check, p, w, c.sees);
      MoveKeeps(jobs, check, p, w, c.sees);
      p, tick := Move(jobs, check, p, w, c.sees), tick + 1;
    }
    KeptDecides(jobs, check, p);
    ok := Join(p);
  }

  method Join(p: Pool) returns (ok: bool)
    requires Finished(p)
    ensures ok <==> Joined(p)
  {
    var i := 0;
    while i < |p.workers|
      invariant i <= |p.workers| && forall w :: 0 <= w < i ==> p.workers[w] == Done(true)
    {
      if p.workers[i] != Done(true) {
        return false;
      }
      i := i + 1;
    }
    return true;
  }
}
