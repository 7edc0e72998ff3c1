/** LOG_FIRST_N: one atomic counter per site, read and raised by any number of threads. */
module FirstN {
  const UINT: nat := 0x1_0000_0000

  /** The atomic access a thread does next: both tests read the counter, and in between it may raise it. */
  datatype Place = AtFirstTest | AtRaise | AtSecondTest(raised: bool)

  /** The counter, where each thread is, and how many messages were logged. */
  datatype Global = Global(count: nat, at: seq<Place>, logged: nat)

  function Start(threads: nat): Global { Global(0, seq(threads, _ => AtFirstTest), 0) }

  /** Thread "t" does its next access; the unsigned counter wraps. */
  function Step(n: nat, s: Global, t: nat): Global
    requires t < |s.at|
  {
    match s.at[t]
    case AtFirstTest => s.(at := s.at[t := if s.count <= n then AtRaise else AtSecondTest(false)])
    case AtRaise => s.(count := (s.count + 1) % UINT, at := s.at[t := AtSecondTest(true)])
    case AtSecondTest(_) => s.(at := s.at[t := AtFirstTest], logged := s.logged + if s.count <= n then 1 else 0)
  }

  predicate ThreadsIn(schedule: seq<nat>, threads: nat) { forall i :: 0 <= i < |schedule| ==> schedule[i] < threads }

  /** A run: which thread moves at each step. */
  function Run(n: nat, threads: nat, schedule: seq<nat>): (s: Global)
    requires ThreadsIn(schedule, threads)
    ensures |s.at| == threads
  {
    if schedule == [] then Start(threads)
    else Step(n, Run(n, threads, schedule[..|schedule| - 1]), schedule[|schedule| - 1])
  }

  /** One site, updated access by access. */
  class Site {
    const n: nat
    var occurrences: nat
    var at: seq<Place>
    var logged: nat

    ghost function Value(): Global
      reads this
    {
      Global(occurrences, at, logged)
    }

    constructor (n: nat, threads: nat)
      ensures this.n == n && Value() == Start(threads)
    {
      this.n := n;
      occurrences, logged := 0, 0;
      at := seq(threads, _ => AtFirstTest);
    }

    method Move(t: nat)
      requires t < |at|
      modifies this
      ensures Value() == Step(n, old(Value()), t)
    {
      if at[t] == AtFirstTest {
        at := at[t := if occurrences <= n then AtRaise else AtSecondTest(false)];
      } else if at[t] == AtRaise {
        occurrences := (occurrences + 1) % UINT;
        at := at[t := AtSecondTest(true)];
      } else {
        if occurrences <= n { logged := logged + 1; }
        at := at[t := AtFirstTest];
      }
    }
  }

  // ---------------------------------------------------------------- every interleaving

  function Count(at: seq<Place>, p: Place): (k: nat)
    ensures k <= |at|
  {
    if at == [] then 0 else Count(at[1..], p) + if at[0] == p then 1 else 0
  }

  lemma {:induction false} CountUpdate(at: seq<Place>, t: nat, new_: Place, p: Place)
    requires t < |at|
    ensures Count(at[t := new_], p) ==
              Count(at, p) - (if at[t] == p then 1 else 0) + (if new_ == p then 1 else 0)
  {
    if t == 0 {
      assert at[t := new_][1..] == at[1..];
    } else {
      CountUpdate(at[1..], t - 1, new_, p);
      assert at[t := new_][1..] == at[1..][t - 1 := new_];
    }
  }

  /** What holds in every reachable state of "threads" threads. */
  ghost predicate Inv(n: nat, threads: nat, s: Global) {
    && |s.at| == threads
    && s.count + Count(s.at, AtRaise) <= n + threads
    && (s.count <= n ==> s.logged + Count(s.at, AtSecondTest(true)) == s.count && Count(s.at, AtSecondTest(false)) == 0)
    && (s.count > n ==> n + 1 <= s.logged + threads && s.logged <= n)
  }

  lemma StepKeeps(n: nat, threads: nat, s: Global, t: nat)
    requires Inv(n, threads, s) && n + threads < UINT && t < threads
    ensures Inv(n, threads, Step(n, s, t))
  {
    var new_ := Step(n, s, t).at[t];
    CountUpdate(s.at, t, new_, AtRaise);
    CountUpdate(s.at, t, new_, AtSecondTest(true));
    CountUpdate(s.at, t, new_, AtSecondTest(false));
  }

  lemma {:induction false} StartKeeps(threads: nat, p: Place)
    requires p != AtFirstTest
    ensures Count(Start(threads).at, p) == 0
  {
    if threads > 0 {
      StartKeeps(threads - 1, p);
      assert Start(threads).at[1..] == Start(threads - 1).at;
    }
  }

  lemma {:induction false} RunKeeps(n: nat, threads: nat, schedule: seq<nat>)
    requires n + threads < UINT && ThreadsIn(schedule, threads)
    ensures Inv(n, threads, Run(n, threads, schedule))
  {
    if schedule == [] {
      StartKeeps(threads, AtRaise);
      StartKeeps(threads, AtSecondTest(true));
      StartKeeps(threads, AtSecondTest(false));
    } else {
      var front := schedule[..|schedule| - 1];
      RunKeeps(n, threads, front);
      StepKeeps(n, threads, Run(n, threads, front), schedule[|schedule| - 1]);
    }
  }

  /**
   * Never more than "n" messages; and once the counter has passed "n", at most one fewer for each
   * other thread. The counter stays within "n" plus the number of threads, so it does not wrap.
   */
  lemma AtMostN(n: nat, threads: nat, schedule: seq<nat>)
    requires n + threads < UINT && ThreadsIn(schedule, threads)
    ensures var s := Run(n, threads, schedule);
            s.logged <= n && s.count <= n + threads && (s.count > n ==> s.logged + threads >= n + 1)
  {
    RunKeeps(n, threads, schedule);
  }

  /** The first "j" threads are at one place, the others at another. */
  function Mixed(threads: nat, j: nat, front: Place, back: Place): (at: seq<Place>)
    ensures |at| == threads && forall i :: 0 <= i < threads ==> at[i] == if i < j then front else back
  {
    seq(threads, i => if i < j then front else back)
  }

  lemma MixedStep(threads: nat, j: nat, front: Place, back: Place)
    requires j < threads
    ensures Mixed(threads, j, front, back)[j := front] == Mixed(threads, j + 1, front, back)
    ensures Mixed(threads, threads, front, back) == Mixed(threads, 0, back, front)
  {
  }

  /** The messages that may be missing really can be, for every "n" and number of threads: with more than "n"
      threads all of them. */
  lemma {:induction false} BoundIsReached(n: nat, threads: nat) returns (schedule: seq<nat>)
    requires 0 < threads && n + threads < UINT
    ensures ThreadsIn(schedule, threads)
    ensures var s := Run(n, threads, schedule); s.count > n && s.logged == if threads <= n then n + 1 - threads else 0
  {
    hide Run;
    var alone := if threads <= n then n + 1 - threads else 0;
    schedule := AloneFor(n, threads, alone);
    for j := 0 to threads
      invariant ThreadsIn(schedule, threads)
      invariant Run(n, threads, schedule) == Global(alone, Mixed(threads, j, AtRaise, AtFirstTest), alone)
    {
      RunSnoc(n, threads, schedule, j);
      MixedStep(threads, j, AtRaise, AtFirstTest);
      schedule := schedule + [j];
    }
    MixedStep(threads, 0, AtRaise, AtFirstTest);
    MixedStep(threads, 0, AtRaise, AtSecondTest(true));
    assert Mixed(threads, threads, AtRaise, AtFirstTest) == Mixed(threads, 0, AtSecondTest(true), AtRaise);
    for j := 0 to threads
      invariant ThreadsIn(schedule, threads)
      invariant Run(n, threads, schedule) == Global(alone + j, Mixed(threads, j, AtSecondTest(true), AtRaise), alone)
    {
      RunSnoc(n, threads, schedule, j);
      MixedStep(threads, j, AtSecondTest(true), AtRaise);
      schedule := schedule + [j];
    }
  }

  /** The first thread alone executes the statement "k" times. */
  lemma {:induction false} AloneFor(n: nat, threads: nat, k: nat) returns (schedule: seq<nat>)
    requires 0 < threads && k <= n && n + 1 < UINT
    ensures ThreadsIn(schedule, threads)
    ensures Run(n, threads, schedule) == Global(k, Mixed(threads, 0, AtRaise, AtFirstTest), k)
  {
    hide Run, Step;
    if k == 0 {
      schedule := [];
      RunNone(n, threads);
    } else {
      var front := AloneFor(n, threads, k - 1);
      RunSnoc(n, threads, front, 0);
      RunSnoc(n, threads, front + [0], 0);
      schedule := front + [0] + [0] + [0];
      RunSnoc(n, threads, front + [0] + [0], 0);
      AloneOnce(n, k - 1, Mixed(threads, 0, AtRaise, AtFirstTest));
    }
  }

  lemma RunNone(n: nat, threads: nat)
    ensures Run(n, threads, []) == Global(0, Mixed(threads, 0, AtRaise, AtFirstTest), 0)
  {
    assert Start(threads).at == Mixed(threads, 0, AtRaise, AtFirstTest);
  }

  /** Three accesses of the first thread, while fewer than "n" executions are counted. */
  lemma AloneOnce(n: nat, k: nat, at: seq<Place>)
    requires at != [] && at[0] == AtFirstTest && k < n && n + 1 < UINT
    ensures Step(n, Step(n, Step(n, Global(k, at, k), 0), 0), 0) == Global(k + 1, at, k + 1)
  {
    assert at[0 := AtRaise][0 := AtSecondTest(true)][0 := AtFirstTest] == at;
  }

  lemma RunSnoc(n: nat, threads: nat, schedule: seq<nat>, t: nat)
    requires t < threads && ThreadsIn(schedule, threads)
    ensures Run(n, threads, schedule + [t]) == Step(n, Run(n, threads, schedule), t)
  {
    assert (schedule + [t])[..|schedule|] == schedule;
  }

  // ---------------------------------------------------------------- a single thread

  /** One execution of the statement by the only thread: its accesses up to being back at the first test. */
  function Execute(n: nat, s: Global): Global
    requires s.at == [AtFirstTest]
  {
    var tested := Step(n, s, 0);
    if tested.at[0] == AtRaise then Step(n, Step(n, tested, 0), 0) else Step(n, tested, 0)
  }

  function Executions(n: nat, k: nat): (s: Global)
    ensures s.at == [AtFirstTest]
  {
    if k == 0 then Start(1) else Execute(n, Executions(n, k - 1))
  }

  /** The first "n" executions log, and no later one does. */
  lemma {:induction false} AloneLogsTheFirstN(n: nat, k: nat)
    requires n + 1 < UINT
    ensures Executions(n, k).logged == if k <= n then k else n
    ensures Executions(n, k).count == if k <= n then k else n + 1
  {
    hide Execute;
    if k > 0 {
      AloneLogsTheFirstN(n, k - 1);
      ExecuteOnce(n, Executions(n, k - 1));
    }
  }

  lemma ExecuteOnce(n: nat, s: Global)
    requires s.at == [AtFirstTest] && n + 1 < UINT
    ensures Execute(n, s).count == if s.count <= n then s.count + 1 else s.count
    ensures Execute(n, s).logged == if s.count < n then s.logged + 1 else s.logged
  {
  }
}
