/**
 The facilitator's submission lock: a chain of promises.  Every call hangs its
 function on the current tail with `then(fn, fn)` and makes a new tail that
 swallows the outcome.  Functions run one at a time, in call order, and a
 rejection delays nobody.
 */
module SubmissionQueue {

  datatype Status = Waiting | Running | Fulfilled | Rejected

  /** A promise hung on promise `on`; a job runs its function, any other swallows the outcome. */
  datatype Promise = Promise(on: nat, job: bool, status: Status)

  datatype State = State(promises: seq<Promise>, tail: nat)

  datatype Action =
    | Call                      // withFacilitatorSubmissionLock(fn)
    | React(i: nat)             // promise i's predecessor settled: its reaction runs
    | Settle(i: nat, ok: bool)  // the function of job i resolves or throws

  predicate Settled(p: Promise) {
    p.status == Fulfilled || p.status == Rejected
  }

  function Init(): State {
    State([Promise(0, false, Fulfilled)], 0)
  }

  /** `p.then(f, f)`: a new promise waiting on `on`. */
  function Then(s: State, on: nat, job: bool): State {
    s.(promises := s.promises + [Promise(on, job, Waiting)])
  }

  function SetStatus(s: State, i: nat, status: Status): State
    requires i < |s.promises|
  {
    s.(promises := s.promises[i := s.promises[i].(status := status)])
  }

  predicate CanReact(s: State, i: nat) {
    i < |s.promises| && s.promises[i].status == Waiting
    && s.promises[i].on < |s.promises| && Settled(s.promises[s.promises[i].on])
  }

  predicate CanSettle(s: State, i: nat) {
    i < |s.promises| && s.promises[i].status == Running
  }

  function Step(s: State, a: Action): State {
    match a
    case Call =>
      var run := |s.promises|;
      Then(Then(s, s.tail, true), run, false).(tail := run + 1)
    case React(i) => if CanReact(s, i) then SetStatus(s, i, if s.promises[i].job then Running else Fulfilled) else s
    case Settle(i, ok) => if CanSettle(s, i) then SetStatus(s, i, if ok then Fulfilled else Rejected) else s
  }

  function Exec(s: State, actions: seq<Action>): State {
    if actions == [] then s else Step(Exec(s, actions[..|actions| - 1]), actions[|actions| - 1])
  }

  /** Promise `i` hangs on the one before it, jobs at odd places, and has not moved before that one settled. */
  predicate Link(ps: seq<Promise>, i: nat)
    requires 1 <= i < |ps|
  {
    && ps[i].on == i - 1
    && ps[i].job == (i % 2 == 1)
    && (ps[i].status != Waiting ==> Settled(ps[i - 1]))
    && (!ps[i].job ==> ps[i].status in {Waiting, Fulfilled})
  }

  predicate Inv(s: State) {
    && |s.promises| % 2 == 1 && s.tail == |s.promises| - 1
    && s.promises[0].status == Fulfilled && !s.promises[0].job
    && forall i: nat | 1 <= i < |s.promises| :: Link(s.promises, i)
  }

  lemma StepKeepsInv(s: State, a: Action)
    requires Inv(s)
    ensures Inv(Step(s, a))
  {
    var t := Step(s, a);
    forall i: nat | 1 <= i < |t.promises| ensures Link(t.promises, i) {
      if i < |s.promises| {
        assert Link(s.promises, i);
      }
    }
    if !a.Call? && 1 <= a.i < |s.promises| {
      assert Link(s.promises, a.i);
    }
  }

  lemma {:induction false} RunKeepsInv(actions: seq<Action>)
    ensures Inv(Exec(Init(), actions))
  {
    if actions != [] {
      RunKeepsInv(actions[..|actions| - 1]);
      StepKeepsInv(Exec(Init(), actions[..|actions| - 1]), actions[|actions| - 1]);
    }
  }

  lemma {:induction false} EarlierAreSettled(s: State, i: nat, j: nat)
    requires Inv(s) && j < i < |s.promises| && s.promises[i].status != Waiting
    ensures Settled(s.promises[j])
  {
    assert Link(s.promises, i);
    if j < i - 1 {
      EarlierAreSettled(s, i - 1, j);
    }
  }

  /** In every run at most one function is started and unsettled. */
  lemma MutualExclusion(actions: seq<Action>, i: nat, j: nat)
    requires var s := Exec(Init(), actions); CanSettle(s, i) && CanSettle(s, j)
    ensures i == j
  {
    RunKeepsInv(actions);
    var s := Exec(Init(), actions);
    if j < i {
      EarlierAreSettled(s, i, j);
    } else if i < j {
      EarlierAreSettled(s, j, i);
    }
  }

  /** A function starts only after every earlier one has settled and before any later one starts: call order. */
  lemma StartsInCallOrder(actions: seq<Action>, i: nat, j: nat)
    requires var s := Exec(Init(), actions); CanReact(s, i) && s.promises[i].job && j < |s.promises| && j != i
    ensures var s := Exec(Init(), actions); if j < i then Settled(s.promises[j]) else s.promises[j].status == Waiting
  {
    RunKeepsInv(actions);
    var s := Exec(Init(), actions);
    assert Link(s.promises, i);
    if j < i - 1 {
      EarlierAreSettled(s, i - 1, j);
    } else if i < j && s.promises[j].status != Waiting {
      EarlierAreSettled(s, j, i);
    }
  }

  lemma {:induction false} ExecAppend(s: State, first: seq<Action>, second: seq<Action>)
    ensures Exec(s, first + second) == Exec(Exec(s, first), second)
  {
    hide Step;
    if second == [] {
      assert first + second == first;
    } else {
      var n, all := |second| - 1, first + second;
      assert all[..|all| - 1] == first + second[..n] && all[|all| - 1] == second[n];
      ExecAppend(s, first, second[..n]);
    }
  }

  /** A settled promise keeps its outcome. */
  lemma {:induction false} OutcomeStands(s: State, actions: seq<Action>, i: nat)
    requires i < |s.promises| && Settled(s.promises[i])
    ensures var t := Exec(s, actions); i < |t.promises| && t.promises[i].status == s.promises[i].status
  {
    if actions != [] {
      OutcomeStands(s, actions[..|actions| - 1], i);
    }
  }

  /** The caller's own promise is fulfilled or rejected as its function resolves or throws, in every later state. */
  lemma CallerGetsItsOutcome(before: seq<Action>, i: nat, ok: bool, after: seq<Action>)
    requires CanSettle(Exec(Init(), before), i)
    ensures var t := Exec(Init(), before + [Settle(i, ok)] + after);
            i < |t.promises| && t.promises[i].status == if ok then Fulfilled else Rejected
  {
    var s := Exec(Init(), before);
    ExecAppend(Init(), before, [Settle(i, ok)]);
    assert [Settle(i, ok)][..0] == [];
    assert Exec(s, [Settle(i, ok)]) == Step(s, Settle(i, ok));
    ExecAppend(Init(), before + [Settle(i, ok)], after);
    OutcomeStands(Step(s, Settle(i, ok)), after, i);
  }

  /** The promises the queue variable ever holds never reject, whatever the functions do. */
  lemma TailNeverRejects(actions: seq<Action>, i: nat)
    requires var s := Exec(Init(), actions); i < |s.promises| && !s.promises[i].job
    ensures var s := Exec(Init(), actions);
            s.promises[i].status in {Waiting, Fulfilled} && s.tail < |s.promises| && !s.promises[s.tail].job
  {
    RunKeepsInv(actions);
    var s := Exec(Init(), actions);
    assert i > 0 ==> Link(s.promises, i);
    assert s.tail > 0 ==> Link(s.promises, s.tail);
  }

  // ---- progress ----

  function Work(p: Promise): nat {
    match p.status
    case Waiting => if p.job then 2 else 1
    case Running => 1
    case _ => 0
  }

  /** What is left to do: two moves for each waiting function, one for a running one or a waiting tail. */
  function Remaining(ps: seq<Promise>): nat {
    if ps == [] then 0 else Remaining(ps[..|ps| - 1]) + Work(ps[|ps| - 1])
  }

  lemma {:induction false} RemainingUpdate(ps: seq<Promise>, i: nat, p: Promise)
    requires i < |ps|
    ensures Remaining(ps[i := p]) == Remaining(ps) - Work(ps[i]) + Work(p)
  {
    var n := |ps| - 1;
    if i < n {
      assert ps[i := p][..n] == ps[..n][i := p];
      RemainingUpdate(ps[..n], i, p);
    } else {
      assert ps[i := p][..n] == ps[..n];
    }
  }

  lemma {:induction false} SomeWaitsIfWorkRemains(ps: seq<Promise>) returns (i: nat)
    requires Remaining(ps) > 0
    ensures i < |ps| && Work(ps[i]) > 0 && forall j | 0 <= j < i :: Work(ps[j]) == 0
  {
    var n := |ps| - 1;
    if Remaining(ps[..n]) > 0 {
      i := SomeWaitsIfWorkRemains(ps[..n]);
    } else {
      NoWork(ps[..n]);
      i := n;
    }
  }

  lemma {:induction false} NoWork(ps: seq<Promise>)
    requires Remaining(ps) == 0
    ensures forall j | 0 <= j < |ps| :: Work(ps[j]) == 0
  {
    if ps != [] {
      NoWork(ps[..|ps| - 1]);
    }
  }

  /** Every move, succeeding or throwing, takes exactly one off the remaining work. */
  lemma MovesTakeOne(s: State, i: nat, ok: bool)
    ensures CanReact(s, i) ==> Remaining(Step(s, React(i)).promises) == Remaining(s.promises) - 1
    ensures CanSettle(s, i) ==> Remaining(Step(s, Settle(i, ok)).promises) == Remaining(s.promises) - 1
  {
    if CanReact(s, i) {
      RemainingUpdate(s.promises, i, Step(s, React(i)).promises[i]);
    } else if CanSettle(s, i) {
      RemainingUpdate(s.promises, i, Step(s, Settle(i, ok)).promises[i]);
    }
  }

  /**
   In every run, whatever the outcomes so far: while some promise is unsettled, a reaction is ready or
   a function is running.  Each such move takes one off the remaining work, so if each function
   settles, every waiter starts and settles after finitely many moves.
   */
  lemma Progress(actions: seq<Action>) returns (i: nat)
    ensures var s := Exec(Init(), actions);
            if Remaining(s.promises) == 0 then AllSettled(s.promises) else CanReact(s, i) || CanSettle(s, i)
  {
    RunKeepsInv(actions);
    var s := Exec(Init(), actions);
    i := 0;
    if Remaining(s.promises) > 0 {
      i := SomeWaitsIfWorkRemains(s.promises);
      assert Link(s.promises, i);
    } else {
      NoWork(s.promises);
    }
  }

  lemma ExecOne(actions: seq<Action>, a: Action)
    ensures Exec(Init(), actions + [a]) == Step(Exec(Init(), actions), a)
  {
    assert (actions + [a])[..|actions|] == actions;
  }

  predicate Moves(moves: seq<Action>, resolves: nat -> bool) {
    forall a | a in moves :: a.React? || (a.Settle? && a.ok == resolves(a.i))
  }

  predicate AllSettled(ps: seq<Promise>) {
    forall j | 0 <= j < |ps| :: Settled(ps[j])
  }

  /** So, whichever functions throw, exactly `Remaining` further moves settle every promise. */
  lemma {:induction false} QueueDrains(actions: seq<Action>, resolves: nat -> bool) returns (moves: seq<Action>)
    ensures |moves| == Remaining(Exec(Init(), actions).promises) && Moves(moves, resolves)
    ensures AllSettled(Exec(Init(), actions + moves).promises)
    decreases Remaining(Exec(Init(), actions).promises)
  {
    var s := Exec(Init(), actions);
    var i := Progress(actions);
    hide Exec, Step, Remaining;
    if Remaining(s.promises) == 0 {
      moves := [];
      assert actions + moves == actions;
    } else {
      var a := if CanReact(s, i) then React(i) else Settle(i, resolves(i));
      MovesTakeOne(s, i, resolves(i));
      ExecOne(actions, a);
      hide CanReact, CanSettle, AllSettled, Settled;
      var rest := QueueDrains(actions + [a], resolves);
      moves := [a] + rest;
      assert actions + moves == actions + [a] + rest;
    }
  }

  // ---- the module variable ----

  /** facilitator-signer's module state: the promises made so far and the queue variable. */
  class FacilitatorSigner {
    var promises: seq<Promise>
    var submissionQueue: nat

    constructor ()
      ensures Queue() == Init()
    {
      promises, submissionQueue := [Promise(0, false, Fulfilled)], 0;
    }

    function Queue(): State
      reads this
    {
      State(promises, submissionQueue)
    }

    method HangOn(on: nat, job: bool) returns (promise: nat)
      modifies this`promises
      ensures promise == |old(promises)| && Queue() == Then(old(Queue()), on, job)
    {
      promise := |promises|;
      promises := promises + [Promise(on, job, Waiting)];
    }

    /** The caller's promise is the run, never the tail; the tail moves on. */
    method WithFacilitatorSubmissionLock() returns (run: nat)
      modifies this
      ensures Queue() == Step(old(Queue()), Call)
      ensures run < |promises| && promises[run].job && promises[run].on == old(submissionQueue)
    {
      run := HangOn(submissionQueue, true);
      submissionQueue := HangOn(run, false);
    }
  }
}
