/**
 Sequence numbers of the facilitator's account.  A submission fetches the account,
 simulates from a disposable clone, builds, sends and polls, all inside the
 submission lock.  If every poll ends with a definite answer, each accepted
 transaction carries the ledger's sequence plus one and no number is used twice;
 the machine also has the poll that gives up, and shows what it costs.
 */
module SequenceNumbers {
  import opened Common
  import Q = SubmissionQueue

  datatype Phase = Fetched(seen: nat) | InFlight(number: nat) | Landed

  /** `accepted` lists each transaction the network took as pending: its number and the ledger's at that time. */
  datatype Sent = Sent(number: nat, ledger: nat)

  datatype State = State(queue: Q.State, ledger: nat, phases: map<nat, Phase>, accepted: seq<Sent>)

  datatype Action =
    | Queue(call: Q.Action)          // Call and React; settling goes through Finish and GiveUp
    | Fetch(i: nat)                  // getAccount
    | Send(i: nat, pending: bool)    // build, sign, sendTransaction
    | Land(i: nat)                   // the transaction enters the ledger, successful or failed
    | Finish(i: nat, ok: bool)       // the function ends with nothing of its own in flight
    | GiveUp(i: nat)                 // the poll's budget runs out

  predicate Started(s: State, i: nat) {
    Q.CanSettle(s.queue, i)
  }

  predicate InPhase(s: State, i: nat) {
    i in s.phases
  }

  predicate Flying(s: State, i: nat) {
    i in s.phases && s.phases[i].InFlight?
  }

  /** Its transaction was accepted: it is in flight or has landed. */
  predicate Submitted(s: State, i: nat) {
    i in s.phases && !s.phases[i].Fetched?
  }

  function Step(s: State, a: Action): State {
    match a
    case Queue(call) => if call.Settle? then s else s.(queue := Q.Step(s.queue, call))
    case Fetch(i) => if Started(s, i) && !InPhase(s, i) then s.(phases := s.phases[i := Fetched(s.ledger)]) else s
    case Send(i, pending) =>
      if Started(s, i) && InPhase(s, i) && s.phases[i].Fetched? && pending then
        var number := s.phases[i].seen + 1;
        s.(phases := s.phases[i := InFlight(number)], accepted := s.accepted + [Sent(number, s.ledger)])
      else s
    case Land(i) =>
      // the ledger takes exactly the next number
      if Flying(s, i) && s.phases[i].number == s.ledger + 1
      then s.(ledger := s.phases[i].number, phases := s.phases[i := Landed]) else s
    case Finish(i, ok) => if Started(s, i) && !Flying(s, i) then s.(queue := Q.Step(s.queue, Q.Settle(i, ok))) else s
    case GiveUp(i) => if Started(s, i) && Submitted(s, i) then s.(queue := Q.Step(s.queue, Q.Settle(i, true))) else s
  }

  function Exec(s: State, actions: seq<Action>): State {
    if actions == [] then s else Step(Exec(s, actions[..|actions| - 1]), actions[|actions| - 1])
  }

  function Init(ledger: nat): State {
    State(Q.Init(), ledger, map[], [])
  }

  predicate Definite(actions: seq<Action>) {
    forall a | a in actions :: !a.GiveUp?
  }

  predicate Increasing(sent: seq<Sent>) {
    forall i, j | 0 <= i < j < |sent| :: sent[i].number < sent[j].number
  }

  predicate NumbersDiffer(sent: seq<Sent>) {
    forall i, j | 0 <= i < j < |sent| :: sent[i].number != sent[j].number
  }

  /** Only the running function is between fetch and landing, and what it fetched is still current. */
  predicate PhaseOk(s: State, i: nat)
    requires i in s.phases
  {
    match s.phases[i]
    case Fetched(seen) =>
      && (Started(s, i) ==> seen == s.ledger)
      && i < |s.queue.promises| && s.queue.promises[i].status != Q.Waiting
    case InFlight(number) =>
      && Started(s, i) && number == s.ledger + 1
      && s.accepted != [] && s.accepted[|s.accepted| - 1].number == number
    case Landed => i < |s.queue.promises| && s.queue.promises[i].status != Q.Waiting
  }

  predicate AnyFlying(s: State) {
    exists i | i in s.phases :: s.phases[i].InFlight?
  }

  predicate AcceptedOk(s: State) {
    && (forall x | x in s.accepted :: x.number == x.ledger + 1)
    && Increasing(s.accepted)
    && (s.accepted != [] ==>
          var last := s.accepted[|s.accepted| - 1].number;
          last <= s.ledger || (last == s.ledger + 1 && AnyFlying(s)))
  }

  predicate Inv(s: State) {
    && Q.Inv(s.queue)
    && (forall i | i in s.phases :: PhaseOk(s, i))
    && AcceptedOk(s)
  }

  lemma OneStarted(s: State, i: nat, j: nat)
    requires Q.Inv(s.queue) && Started(s, i) && Started(s, j)
    ensures i == j
  {
    if j < i {
      Q.EarlierAreSettled(s.queue, i, j);
    } else if i < j {
      Q.EarlierAreSettled(s.queue, j, i);
    }
  }

  /** A flying transaction belongs to the running function. */
  lemma FlyingIsStarted(s: State, i: nat, j: nat)
    requires Inv(s) && Started(s, i) && Flying(s, j)
    ensures i == j
  {
    assert PhaseOk(s, j);
    OneStarted(s, i, j);
  }

  lemma QueueKeepsInv(s: State, call: Q.Action)
    requires Inv(s) && !call.Settle?
    ensures Inv(Step(s, Queue(call)))
  {
    Q.StepKeepsInv(s.queue, call);
    var t := Step(s, Queue(call));
    forall i | i in t.phases ensures PhaseOk(t, i) {
      assert PhaseOk(s, i);
    }
    assert t.phases == s.phases;
  }

  lemma SendKeepsInv(s: State, i: nat, pending: bool)
    requires Inv(s)
    ensures Inv(Step(s, Send(i, pending)))
  {
    var t := Step(s, Send(i, pending));
    if t != s {
      assert PhaseOk(s, i) && t.phases[i].InFlight?;
      if AnyFlying(s) {
        var j :| j in s.phases && s.phases[j].InFlight?;
        FlyingIsStarted(s, i, j);
      }
      forall j | j in t.phases ensures PhaseOk(t, j) {
        assert j == i || PhaseOk(s, j);
      }
    }
  }

  lemma LandKeepsInv(s: State, i: nat)
    requires Inv(s)
    ensures Inv(Step(s, Land(i)))
  {
    var t := Step(s, Land(i));
    if t != s {
      assert PhaseOk(s, i);
      forall j | j in t.phases ensures PhaseOk(t, j) {
        assert PhaseOk(s, j);
        if j != i && Started(s, j) {
          OneStarted(s, i, j);
        }
      }
    }
  }

  lemma FinishKeepsInv(s: State, i: nat, ok: bool)
    requires Inv(s)
    ensures Inv(Step(s, Finish(i, ok)))
  {
    Q.StepKeepsInv(s.queue, Q.Settle(i, ok));
    var t := Step(s, Finish(i, ok));
    forall j | j in t.phases ensures PhaseOk(t, j) {
      assert PhaseOk(s, j);
    }
    assert t.phases == s.phases;
  }

  lemma StepKeepsInv(s: State, a: Action)
    requires Inv(s) && !a.GiveUp?
    ensures Inv(Step(s, a))
  {
    match a
    case Queue(call) => if !call.Settle? { QueueKeepsInv(s, call); }
    case Fetch(i) =>
      var t := Step(s, a);
      forall j | j in t.phases ensures PhaseOk(t, j) {
        assert j == i || PhaseOk(s, j);
      }
      if AnyFlying(s) {
        var j :| j in s.phases && s.phases[j].InFlight?;
        assert t.phases[j].InFlight?;
      }
    case Send(i, pending) => SendKeepsInv(s, i, pending);
    case Land(i) => LandKeepsInv(s, i);
    case Finish(i, ok) => FinishKeepsInv(s, i, ok);
  }

  lemma {:induction false} RunKeepsInvFrom(s: State, actions: seq<Action>)
    requires Inv(s) && Definite(actions)
    ensures Inv(Exec(s, actions))
  {
    hide Inv, Step;
    if actions != [] {
      RunKeepsInvFrom(s, actions[..|actions| - 1]);
      StepKeepsInv(Exec(s, actions[..|actions| - 1]), actions[|actions| - 1]);
    }
  }

  lemma RunKeepsInv(ledger: nat, actions: seq<Action>)
    requires Definite(actions)
    ensures Inv(Exec(Init(ledger), actions))
  {
    RunKeepsInvFrom(Init(ledger), actions);
  }

  /** With definite answers every accepted transaction carries the ledger's sequence plus one, and none repeats. */
  lemma SequenceFreshness(ledger: nat, actions: seq<Action>)
    requires Definite(actions)
    ensures var s := Exec(Init(ledger), actions);
            (forall x | x in s.accepted :: x.number == x.ledger + 1) && NumbersDiffer(s.accepted)
  {
    RunKeepsInv(ledger, actions);
  }

  /** Giving up frees the queue for the next waiter. */
  lemma NextStarts(s: State, i: nat)
    requires Inv(s) && Flying(s, i) && i + 2 < |s.queue.promises|
    ensures var t := Step(Step(Step(s, GiveUp(i)), Queue(Q.React(i + 1))), Queue(Q.React(i + 2)));
            Started(t, i + 2) && t.phases == s.phases && t.ledger == s.ledger && t.accepted == s.accepted
  {
    assert PhaseOk(s, i) && i > 0;
    assert Q.Link(s.queue.promises, i) && Q.Link(s.queue.promises, i + 1) && Q.Link(s.queue.promises, i + 2);
    hide AcceptedOk, Q.Inv, PhaseOk, Q.Link;
    var s1 := Step(s, GiveUp(i));
    assert s1 == s.(queue := Q.Step(s.queue, Q.Settle(i, true)));
    var s2 := Step(s1, Queue(Q.React(i + 1)));
    assert s2 == s.(queue := Q.Step(s1.queue, Q.React(i + 1)));
    assert Q.CanReact(s2.queue, i + 2);
  }

  lemma FetchAndSend(s: State, i: nat)
    requires Started(s, i) && i !in s.phases
    ensures var t := Step(Step(s, Fetch(i)), Send(i, true));
            t.accepted == s.accepted + [Sent(s.ledger + 1, s.ledger)] && forall j | Flying(s, j) :: Flying(t, j)
  {
  }

  /** A poll that gives up while its transaction is still in flight hands the same number to the next waiter. */
  lemma GivingUpReusesTheNumber(s: State, i: nat)
    requires Inv(s) && Flying(s, i) && i + 2 < |s.queue.promises| && i + 2 !in s.phases
    ensures var s1 := Step(Step(Step(s, GiveUp(i)), Queue(Q.React(i + 1))), Queue(Q.React(i + 2)));
            var t := Step(Step(s1, Fetch(i + 2)), Send(i + 2, true));
            Flying(t, i) && t.accepted == s.accepted + [Sent(s.phases[i].number, s.ledger)]
  {
    assert PhaseOk(s, i);
    hide Step, AcceptedOk, Q.Inv, PhaseOk;
    NextStarts(s, i);
    FetchAndSend(Step(Step(Step(s, GiveUp(i)), Queue(Q.React(i + 1))), Queue(Q.React(i + 2))), i + 2);
  }

  lemma {:induction false} ExecAppend(s: State, first: seq<Action>, second: seq<Action>)
    ensures Exec(s, first + second) == Exec(Exec(s, first), second)
  {
    if second == [] {
      assert first + second == first;
    } else {
      var n := |second| - 1;
      assert (first + second)[..|first| + n] == first + second[..n];
      ExecAppend(s, first, second[..n]);
    }
  }

  lemma Do(s: State, actions: seq<Action>, a: Action) returns (more: seq<Action>)
    ensures more == actions + [a] && Exec(s, more) == Step(Exec(s, actions), a)
  {
    more := actions + [a];
    assert more[..|more| - 1] == actions;
  }

  lemma PhasesHaveBegun(s: State)
    requires Inv(s)
    ensures forall j | j in s.phases :: j < |s.queue.promises| && s.queue.promises[j].status != Q.Waiting
  {
    forall j | j in s.phases ensures j < |s.queue.promises| && s.queue.promises[j].status != Q.Waiting {
      assert PhaseOk(s, j);
    }
  }

  /** The job after a running one still waits, and has fetched nothing. */
  lemma NextWaits(s: State, i: nat)
    requires Inv(s) && Flying(s, i) && i + 2 < |s.queue.promises|
    ensures i + 2 !in s.phases
  {
    assert PhaseOk(s, i);
    assert Q.Link(s.queue.promises, i + 1) && Q.Link(s.queue.promises, i + 2);
    PhasesHaveBegun(s);
  }

  /** One more call leaves the flight as it is, with a waiter behind it. */
  lemma CallAddsAWaiter(s: State, i: nat)
    requires Inv(s) && Flying(s, i)
    ensures var t := Step(s, Queue(Q.Call));
            && Inv(t) && Flying(t, i) && i + 2 < |t.queue.promises| && i + 2 !in t.phases
            && t.accepted == s.accepted && t.phases == s.phases && t.ledger == s.ledger
  {
    QueueKeepsInv(s, Q.Call);
    var t := Step(s, Queue(Q.Call));
    assert PhaseOk(s, i) && Flying(t, i);
    hide AcceptedOk;
    NextWaits(t, i);
  }

  lemma LastIsFlying(s: State, i: nat)
    requires Inv(s) && Flying(s, i)
    ensures s.accepted != [] && s.accepted[|s.accepted| - 1].number == s.phases[i].number
  {
    assert PhaseOk(s, i);
  }

  /** With one more call before it, the poll that gives up lets the same number be sent again. */
  lemma ReuseAfterCall(s: State, i: nat)
    requires Inv(s) && Flying(s, i)
    ensures var t := Step(Step(Step(s, Queue(Q.Call)), GiveUp(i)), Queue(Q.React(i + 1)));
            !NumbersDiffer(Step(Step(Step(t, Queue(Q.React(i + 2))), Fetch(i + 2)), Send(i + 2, true)).accepted)
  {
    LastIsFlying(s, i);
    CallAddsAWaiter(s, i);
    hide Step, Inv, Flying, NumbersDiffer;
    GivingUpReusesTheNumber(Step(s, Queue(Q.Call)), i);
    Repeated(s.accepted, Sent(s.phases[i].number, s.ledger));
  }

  /** The call may as well come after the poll has given up. */
  lemma ReuseRun(s: State, i: nat) returns (rest: seq<Action>)
    requires Inv(s) && Flying(s, i)
    ensures Definite(rest) && !NumbersDiffer(Exec(Step(s, GiveUp(i)), rest).accepted)
  {
    rest := [Queue(Q.Call), Queue(Q.React(i + 1)), Queue(Q.React(i + 2)), Fetch(i + 2), Send(i + 2, true)];
    assert Definite(rest);
    hide Step, Exec, Inv, Flying, NumbersDiffer, Definite;
    ReuseAfterCall(s, i);
    CallCommutes(s, i);
    ExecFive(Step(s, GiveUp(i)), rest);
  }

  lemma ExecFive(s: State, a: seq<Action>)
    requires |a| == 5
    ensures Exec(s, a) == Step(Step(Step(Step(Step(s, a[0]), a[1]), a[2]), a[3]), a[4])
  {
    assert a[..4][..3] == a[..3] && a[..3][..2] == a[..2] && a[..2][..1] == a[..1] && a[..1][..0] == [];
    hide Step;
    assert Exec(s, a[..1]) == Step(s, a[0]);
    assert Exec(s, a[..2]) == Step(Exec(s, a[..1]), a[1]);
    assert Exec(s, a[..3]) == Step(Exec(s, a[..2]), a[2]);
    assert Exec(s, a[..4]) == Step(Exec(s, a[..3]), a[3]);
  }

  lemma Repeated(sent: seq<Sent>, x: Sent)
    requires sent != [] && sent[|sent| - 1].number == x.number
    ensures !NumbersDiffer(sent + [x])
  {
    var more := sent + [x];
    assert more[|more| - 2].number == more[|more| - 1].number;
  }

  lemma CallCommutes(s: State, i: nat)
    requires Inv(s) && Flying(s, i)
    ensures Step(Step(s, Queue(Q.Call)), GiveUp(i)) == Step(Step(s, GiveUp(i)), Queue(Q.Call))
  {
    assert PhaseOk(s, i);
    var p := s.queue.promises;
    var settled := p[i].(status := Q.Fulfilled);
    var more := [Q.Promise(s.queue.tail, true, Q.Waiting), Q.Promise(|p|, false, Q.Waiting)];
    assert (p + more)[i := settled] == p[i := settled] + more;
    assert p + more[..1] + more[1..] == p + more && p[i := settled] + more[..1] + more[1..] == p[i := settled] + more;
  }

  /** A poll that gives up on a transaction already in the ledger has nothing in flight, like any function that ends. */
  lemma GivingUpAfterLanding(s: State, i: nat)
    requires Inv(s) && !Flying(s, i)
    ensures Inv(Step(s, GiveUp(i)))
  {
    FinishKeepsInv(s, i, true);
    assert Step(s, GiveUp(i)) == s || Step(s, GiveUp(i)) == Step(s, Finish(i, true));
  }

  lemma InvNumbersDiffer(s: State)
    requires Inv(s)
    ensures NumbersDiffer(s.accepted)
  {
  }

  /**
   When a poll gives up in a definite run, every later definite run keeps the numbers distinct if and
   only if its transaction was no longer in flight.
   */
  lemma GivingUpIsSafeIff(ledger: nat, actions: seq<Action>, i: nat)
    requires Definite(actions)
    ensures !Flying(Exec(Init(ledger), actions), i) <==>
            forall rest | Definite(rest) :: NumbersDiffer(Exec(Init(ledger), actions + [GiveUp(i)] + rest).accepted)
  {
    var s := Exec(Init(ledger), actions);
    RunKeepsInv(ledger, actions);
    var given := Do(Init(ledger), actions, GiveUp(i));
    if Flying(s, i) {
      var rest := ReuseRun(s, i);
      ExecAppend(Init(ledger), given, rest);
    } else {
      GivingUpAfterLanding(s, i);
      hide Exec, Step, Inv, Definite, NumbersDiffer;
      forall rest | Definite(rest)
        ensures NumbersDiffer(Exec(Init(ledger), actions + [GiveUp(i)] + rest).accepted)
      {
        ExecAppend(Init(ledger), given, rest);
        RunKeepsInvFrom(Step(s, GiveUp(i)), rest);
        InvNumbersDiffer(Exec(Step(s, GiveUp(i)), rest));
      }
    }
  }

  /** And a transaction can be in flight: the first call of a fresh queue, sent and not yet landed. */
  lemma FirstCallFlies(ledger: nat) returns (actions: seq<Action>)
    ensures Definite(actions) && Flying(Exec(Init(ledger), actions), 1)
  {
    var s := Init(ledger);
    assert Exec(s, []) == s;
    hide Exec;
    actions := Do(s, [], Queue(Q.Call));
    actions := Do(s, actions, Queue(Q.React(1)));
    actions := Do(s, actions, Fetch(1));
    actions := Do(s, actions, Send(1, true));
  }

  // ---- the call itself ----

  /** The SDK's account: building a transaction takes the next number from it, in place. */
  class Account {
    var sequence: nat

    constructor (sequence: nat)
      ensures this.sequence == sequence
    {
      this.sequence := sequence;
    }

    method Build() returns (number: nat)
      modifies this
      ensures number == old(sequence) + 1 && sequence == number
    {
      sequence := sequence + 1;
      number := sequence;
    }
  }

  datatype Answer = NotFound | Success | FailedTx

  datatype CallResult = SimulationFailed | SigningFailed | SubmissionFailed | TransactionFailed | Confirmed

  const MAX_ATTEMPTS := 15

  /** The first definite answer of the `n` polls, if any. */
  function FirstDefinite(answers: nat -> Answer, n: nat): Option<Answer> {
    if n == 0 then None
    else
      var earlier := FirstDefinite(answers, n - 1);
      if earlier.Some? then earlier else if answers(n - 1).NotFound? then None else Some(answers(n - 1))
  }

  method PollForTransaction(answers: nat -> Answer) returns (success: bool)
    ensures success <==> FirstDefinite(answers, MAX_ATTEMPTS) == Some(Success)
    ensures success <==>
            exists i | 0 <= i < 15 :: answers(i) == Success && forall j | 0 <= j < i :: answers(j) == NotFound
  {
    for i := 0 to MAX_ATTEMPTS
      invariant FirstDefinite(answers, i) == None
      invariant forall j | 0 <= j < i :: answers(j) == NotFound
    {
      if answers(i) == Success {
        DefiniteStays(answers, i + 1, MAX_ATTEMPTS);
        return true;
      }
      if answers(i) == FailedTx {
        DefiniteStays(answers, i + 1, MAX_ATTEMPTS);
        return false;
      }
    }
    return false;
  }

  lemma {:induction false} DefiniteStays(answers: nat -> Answer, n: nat, m: nat)
    requires n <= m && FirstDefinite(answers, n).Some?
    ensures FirstDefinite(answers, m) == FirstDefinite(answers, n)
  {
    if n < m {
      DefiniteStays(answers, n, m - 1);
    }
  }

  /** The ledger's side of the facilitator's account. */
  class Ledger {
    var sequence: nat
    var accepted: seq<nat>

    constructor (sequence: nat)
      ensures this.sequence == sequence && accepted == []
    {
      this.sequence, accepted := sequence, [];
    }

    method GetAccount() returns (account: Account)
      ensures fresh(account) && account.sequence == sequence
    {
      account := new Account(sequence);
    }
  }

  /**
   submitFacilitatorCall inside the lock: simulate off a clone, build off the fetched account, sign,
   send, poll.  Whatever is accepted carries exactly the fetched sequence plus one.
   */
  method SubmitFacilitatorCall(ledger: Ledger, simulates: bool, signs: bool, pending: bool, answers: nat -> Answer)
    returns (result: CallResult)
    modifies ledger`accepted
    ensures ledger.accepted ==
            old(ledger.accepted) + (if simulates && signs && pending then [ledger.sequence + 1] else [])
    ensures result.Confirmed? <==>
            simulates && signs && pending && FirstDefinite(answers, MAX_ATTEMPTS) == Some(Success)
    ensures result.SimulationFailed? <==> !simulates
    ensures result.SigningFailed? <==> simulates && !signs
    ensures result.SubmissionFailed? <==> simulates && signs && !pending
    ensures result.TransactionFailed? <==>
            simulates && signs && pending && FirstDefinite(answers, MAX_ATTEMPTS) != Some(Success)
  {
    hide FirstDefinite;
    var account := ledger.GetAccount();
    var simAccount := new Account(account.sequence);
    var simulated := simAccount.Build();
    if !simulates {
      return SimulationFailed;
    }
    var number := account.Build();
    if !signs {
      return SigningFailed;
    }
    if !pending {
      return SubmissionFailed;
    }
    ledger.accepted := ledger.accepted + [number];
    var confirmed := PollForTransaction(answers);
    return if confirmed then Confirmed else TransactionFailed;
  }

  // ---- the call as a run ----

  predicate AcceptedCall(simulates: bool, signs: bool, pending: bool) {
    simulates && signs && pending
  }

  lemma DoDefinite(s: State, actions: seq<Action>, a: Action) returns (more: seq<Action>)
    requires Definite(actions) && !a.GiveUp?
    ensures Definite(more) && Exec(s, more) == Step(Exec(s, actions), a)
  {
    hide Exec, Step;
    more := Do(s, actions, a);
  }

  lemma FetchAndSendRun(s: State, i: nat, pending: bool) returns (actions: seq<Action>)
    requires Started(s, i) && i !in s.phases
    ensures Definite(actions)
    ensures Exec(s, actions) ==
            s.(phases := s.phases[i := if pending then InFlight(s.ledger + 1) else Fetched(s.ledger)],
               accepted := s.accepted + if pending then [Sent(s.ledger + 1, s.ledger)] else [])
  {
    assert Exec(s, []) == s;
    FetchStep(s, i);
    SendStep(s.(phases := s.phases[i := Fetched(s.ledger)]), i, s.ledger, pending);
    assert Definite([]);
    hide Exec, Step, Started, Definite;
    actions := DoDefinite(s, [], Fetch(i));
    actions := DoDefinite(s, actions, Send(i, pending));
  }

  lemma FetchStep(s: State, i: nat)
    requires Started(s, i) && i !in s.phases
    ensures Step(s, Fetch(i)) == s.(phases := s.phases[i := Fetched(s.ledger)])
  {
  }

  lemma SendStep(s: State, i: nat, seen: nat, pending: bool)
    requires Started(s, i) && i in s.phases && s.phases[i] == Fetched(seen)
    ensures Step(s, Send(i, pending)) ==
            if pending
            then s.(phases := s.phases[i := InFlight(seen + 1)], accepted := s.accepted + [Sent(seen + 1, s.ledger)])
            else s
  {
  }

  /**
   The undisturbed call is a run of its promise: what it gets accepted carries the ledger's sequence plus
   one, its promise settles, and the run is definite exactly unless an accepted transaction got no answer.
   */
  lemma SubmitIsARun(
      s: State, i: nat, simulates: bool, signs: bool, pending: bool, answers: nat -> Answer)
    returns (actions: seq<Action>)
    requires Started(s, i) && i !in s.phases
    ensures var accepted := AcceptedCall(simulates, signs, pending);
            var t := Exec(s, actions);
            && t.accepted == s.accepted + (if accepted then [Sent(s.ledger + 1, s.ledger)] else [])
            && i < |t.queue.promises| && Q.Settled(t.queue.promises[i])
            && (Definite(actions) <==> (accepted ==> FirstDefinite(answers, MAX_ATTEMPTS).Some?))
            && t.ledger == s.ledger + if accepted && FirstDefinite(answers, MAX_ATTEMPTS).Some? then 1 else 0
  {
    hide FirstDefinite, Exec;
    var accepted := AcceptedCall(simulates, signs, pending);
    actions := FetchAndSendRun(s, i, accepted);
    if !accepted {
      actions := Do(s, actions, Finish(i, true));
    } else if FirstDefinite(answers, MAX_ATTEMPTS).Some? {
      actions := Do(s, actions, Land(i));
      actions := Do(s, actions, Finish(i, true));
    } else {
      actions := Do(s, actions, GiveUp(i));
      assert actions[|actions| - 1].GiveUp?;
    }
  }
}
