/**
 Claim calls are linearizable exactly when the payer signs larger amounts under
 larger nonces: every interleaving answers and ends like atomic claims run one
 after another, each placed at one of its own steps.
 */
module ChannelLinearizability {
  import opened Common
  import opened ClaimEncoding
  import opened Channel
  import opened ChannelSafety

  // ---- the serial object ----

  /** A claim run with nothing in between; one check, one write. */
  function AtomicClaim(e: Env, row: Row, c: Claim): (Row, Response) {
    var reason := ReadChecks(Some(row), c);
    if reason.Some? then (row, Rejected(reason.value))
    else if !Signed(e, c) then (row, Rejected(InvalidSignature))
    else if c.nonce > MAX_BIGINT then (row, Failed)
    else (StorePending(row, c), Accepted)
  }

  /** Newer than what is stored, in both nonce and amount. */
  predicate Newer(row: Row, c: Claim) {
    row.pendingNonce < c.nonce && row.pendingAmount < c.amount
  }

  predicate SignedByPayer(e: Env, c: Claim) {
    e.verify(ClaimPayload(e.channelId, c.nonce, c.amount), c.sig)
  }

  /** Exactly when a claim is accepted, and exactly why it is not, each refusal in its turn. */
  lemma ClaimAnswers(e: Env, row: Row, c: Claim)
    ensures var answer := AtomicClaim(e, row, c).1;
            && (answer == Accepted <==>
                  && row.status == Open && Newer(row, c) && c.amount <= row.deposited
                  && SignedByPayer(e, c) && c.nonce <= 0x7FFF_FFFF_FFFF_FFFF)
            && (answer == Rejected(ChannelNotOpen) <==> row.status != Open)
            && (answer == Rejected(StaleClaim) <==> row.status == Open && !Newer(row, c))
            && (answer == Rejected(ExceedsDeposit) <==>
                  row.status == Open && Newer(row, c) && c.amount > row.deposited)
            && (answer == Rejected(InvalidSignature) <==>
                  row.status == Open && Newer(row, c) && c.amount <= row.deposited && !SignedByPayer(e, c))
            && answer != Rejected(ChannelNotFound)
  {
    hide ClaimPayload;
  }

  /** What an accepted claim leaves: its triple, and nothing else of the row touched; any other leaves the row. */
  lemma ClaimLeaves(e: Env, row: Row, c: Claim)
    ensures var (after, answer) := AtomicClaim(e, row, c);
            if answer == Accepted then
              && after.pendingNonce == c.nonce && after.pendingAmount == c.amount
              && after.pendingSignature == Some(c.sig)
              && after.deposited == row.deposited && after.claimed == row.claimed
              && after.status == row.status && after.closingAt == row.closingAt
            else after == row
  {
    hide Signed;
  }

  datatype Invocation = Invocation(id: nat, claim: Claim)

  /** The row after a serial order of claims, and each one's response. */
  function Serial(e: Env, row: Row, order: seq<Invocation>): (Row, seq<Response>) {
    if order == [] then (row, [])
    else
      var (r, responses) := Serial(e, row, order[..|order| - 1]);
      var (r', response) := AtomicClaim(e, r, order[|order| - 1].claim);
      (r', responses + [response])
  }

  lemma {:induction false} SerialLength(e: Env, row: Row, order: seq<Invocation>)
    ensures |Serial(e, row, order).1| == |order|
  {
    if order != [] {
      SerialLength(e, row, order[..|order| - 1]);
    }
  }

  // ---- where each call takes effect ----

  /**
   A call takes effect where its answer is fixed: at its read when it can only fail from there
   (rejected, badly signed, or a nonce the column cannot hold), else at its swap.
   */
  function Effect(e: Env, s: State, a: Action): seq<Invocation> {
    match a
    case OnCall(id, ReadRow(c)) =>
      if id !in s.calls && (ReadChecks(s.row, c).Some? || !Signed(e, c) || c.nonce > MAX_BIGINT)
      then [Invocation(id, c)] else []
    case OnCall(id, SwapRow) =>
      if id in s.calls && s.calls[id].Verified? && s.calls[id].claim.nonce <= MAX_BIGINT
      then [Invocation(id, s.calls[id].claim)] else []
    case _ => []
  }

  function Linearization(e: Env, s: State, actions: seq<Action>): seq<Invocation> {
    if actions == [] then []
    else
      var before := actions[..|actions| - 1];
      Linearization(e, s, before) + Effect(e, Exec(e, s, before), actions[|actions| - 1])
  }

  /** The call's answer once it is fixed, also when it is not yet sent. */
  function Decided(e: Env, call: Call): Option<Response> {
    match call
    case Replied(_, response) => Some(response)
    case Checked(c) =>
      if !Signed(e, c) then Some(Rejected(InvalidSignature)) else if c.nonce > MAX_BIGINT then Some(Failed) else None
    case Verified(c) => if c.nonce > MAX_BIGINT then Some(Failed) else None
    case Lost(_) => None
  }

  /** The part of the row that claims own; the keeper's mirror of `claimed` is not in it. */
  function Core(r: Row): Row {
    r.(claimed := 0)
  }

  predicate OpenIn(s: State) {
    s.row.Some? && s.row.value.status == Open
  }

  predicate OpenThroughout(e: Env, s: State, actions: seq<Action>) {
    forall n | 0 <= n <= |actions| :: OpenIn(Exec(e, s, actions[..n]))
  }

  /** Larger nonces carry larger amounts, over the claims the row can store. */
  ghost predicate IncreasingPayer(e: Env) {
    forall c1, c2 | Storable(e, c1) && Storable(e, c2) && c1.nonce < c2.nonce :: c1.amount < c2.amount
  }

  predicate IdsDiffer(order: seq<Invocation>) {
    forall i, j | 0 <= i < j < |order| :: order[i].id != order[j].id
  }

  predicate Listed(order: seq<Invocation>, id: nat) {
    exists i | 0 <= i < |order| :: order[i].id == id
  }

  /** `order` explains state `s`: same row, same answers, every answered call placed once. */
  predicate Explains(e: Env, start: Row, order: seq<Invocation>, s: State) {
    var (r, responses) := Serial(e, start, order);
    && |responses| == |order|
    && s.row.Some? && Core(s.row.value) == r
    && IdsDiffer(order)
    && (forall i | 0 <= i < |order| ::
          order[i].id in s.calls && s.calls[order[i].id].claim == order[i].claim
          && (s.calls[order[i].id].Lost? || Decided(e, s.calls[order[i].id]) == Some(responses[i])))
    && (forall id | id in s.calls && Decided(e, s.calls[id]).Some? :: Listed(order, id))
  }

  lemma Append(e: Env, start: Row, order: seq<Invocation>, x: Invocation)
    ensures Serial(e, start, order + [x]) ==
            (AtomicClaim(e, Serial(e, start, order).0, x.claim).0,
             Serial(e, start, order).1 + [AtomicClaim(e, Serial(e, start, order).0, x.claim).1])
    ensures forall id | Listed(order, id) :: Listed(order + [x], id)
    ensures Listed(order + [x], x.id)
  {
    assert (order + [x])[..|order|] == order;
    assert (order + [x])[|order|].id == x.id;
    forall id | Listed(order, id) ensures Listed(order + [x], id) {
      var i :| 0 <= i < |order| && order[i].id == id;
      assert (order + [x])[i].id == id;
    }
  }

  // ---- one step ----

  /** Nothing is newly decided: the claims' part of the row and every decision are as before. */
  predicate NoDecision(e: Env, s: State, t: State) {
    && s.row.Some? && t.row.Some? && Core(t.row.value) == Core(s.row.value)
    && (forall id | id in s.calls ::
          id in t.calls && t.calls[id].claim == s.calls[id].claim
          && (if s.calls[id].Lost? then t.calls[id].Lost?
              else t.calls[id].Lost? || Decided(e, t.calls[id]) == Decided(e, s.calls[id])))
    && (forall id | id in t.calls && Decided(e, t.calls[id]).Some? :: id in s.calls && Decided(e, s.calls[id]).Some?)
  }

  /** Call `x` is newly decided, with the row and the answer an atomic claim would give here. */
  predicate Decides(e: Env, s: State, t: State, x: Invocation) {
    && s.row.Some? && t.row.Some?
    && (x.id in s.calls ==> !s.calls[x.id].Lost? && Decided(e, s.calls[x.id]) == None)
    && x.id in t.calls && t.calls == s.calls[x.id := t.calls[x.id]] && t.calls[x.id].claim == x.claim
    && var (row, response) := AtomicClaim(e, Core(s.row.value), x.claim);
       Core(t.row.value) == row && Decided(e, t.calls[x.id]) == Some(response)
  }

  lemma NoDecisionExplained(e: Env, start: Row, order: seq<Invocation>, s: State, t: State)
    requires Explains(e, start, order, s) && NoDecision(e, s, t)
    ensures Explains(e, start, order, t)
  {
  }

  lemma DecisionExplained(e: Env, start: Row, order: seq<Invocation>, s: State, t: State, x: Invocation)
    requires Explains(e, start, order, s) && Decides(e, s, t, x)
    ensures Explains(e, start, order + [x], t)
  {
    Append(e, start, order, x);
    forall id | id in t.calls && Decided(e, t.calls[id]).Some? ensures Listed(order + [x], id) {
      assert id == x.id || Listed(order, id);
    }
  }

  /** At the swap the in-memory checks would still have decided the same way. */
  lemma SwapAgreesWithAtomic(e: Env, s: State, id: nat)
    requires Inv(e, s) && OpenIn(s) && IncreasingPayer(e)
    requires id in s.calls && s.calls[id].Verified? && s.calls[id].claim.nonce <= MAX_BIGINT
    ensures var c := s.calls[id].claim;
            var (row, response) := CompareAndSwap(s.row, c);
            row.Some? && AtomicClaim(e, Core(s.row.value), c) == (Core(row.value), response)
  {
    var c := s.calls[id].claim;
    assert CallOk(e, s.accepted, s.calls[id]);
    assert Storable(e, c);
    if s.accepted != [] {
      var last := s.accepted[|s.accepted| - 1];
      assert Storable(e, last);
    }
  }

  predicate Accounted(e: Env, s: State, t: State, x: seq<Invocation>) {
    if x == [] then NoDecision(e, s, t) else |x| == 1 && Decides(e, s, t, x[0])
  }

  lemma CallStepAccounted(e: Env, s: State, id: nat, a: CallAction)
    requires OpenIn(s) && !a.SwapRow?
    ensures Accounted(e, s, CallStep(e, s, id, a), Effect(e, s, OnCall(id, a)))
  {
  }

  lemma SwapAccounted(e: Env, s: State, id: nat)
    requires Inv(e, s) && OpenIn(s) && IncreasingPayer(e)
    ensures Accounted(e, s, CallStep(e, s, id, SwapRow), Effect(e, s, OnCall(id, SwapRow)))
  {
    if id in s.calls && s.calls[id].Verified? && s.calls[id].claim.nonce <= MAX_BIGINT {
      SwapAgreesWithAtomic(e, s, id);
    }
  }

  lemma OtherStepKeepsClaims(e: Env, s: State, a: Action)
    requires !a.OnCall? && OpenIn(s) && OpenIn(Step(e, s, a))
    ensures var t := Step(e, s, a); t.calls == s.calls && Core(t.row.value) == Core(s.row.value)
  {
  }

  lemma SameClaimsNoDecision(e: Env, s: State, t: State)
    requires s.row.Some? && t.row.Some? && t.calls == s.calls && Core(t.row.value) == Core(s.row.value)
    ensures NoDecision(e, s, t)
  {
  }

  lemma StepAccounted(e: Env, s: State, a: Action)
    requires Inv(e, s) && OpenIn(s) && OpenIn(Step(e, s, a)) && IncreasingPayer(e)
    ensures Accounted(e, s, Step(e, s, a), Effect(e, s, a))
  {
    if !a.OnCall? {
      OtherStepKeepsClaims(e, s, a);
      SameClaimsNoDecision(e, s, Step(e, s, a));
    } else if a.call.SwapRow? {
      SwapAccounted(e, s, a.id);
    } else {
      CallStepAccounted(e, s, a.id, a.call);
    }
  }

  lemma AccountedExplained(e: Env, start: Row, order: seq<Invocation>, s: State, t: State, x: seq<Invocation>)
    requires Explains(e, start, order, s) && Accounted(e, s, t, x)
    ensures Explains(e, start, order + x, t)
  {
    if x == [] {
      assert order + x == order;
      NoDecisionExplained(e, start, order, s, t);
    } else {
      assert x == [x[0]];
      DecisionExplained(e, start, order, s, t, x[0]);
    }
  }

  // ---- the theorem ----

  /** While the channel stays open, any interleaving from a state with no call in flight has its serial order. */
  lemma {:induction false} Linearizable(e: Env, s: State, actions: seq<Action>)
    requires Inv(e, s) && s.calls == map[] && OpenIn(s) && OpenThroughout(e, s, actions) && IncreasingPayer(e)
    ensures Explains(e, Core(s.row.value), Linearization(e, s, actions), Exec(e, s, actions))
  {
    assert actions[..|actions|] == actions;
    if actions == [] {
      assert OpenIn(Exec(e, s, actions[..0]));
    } else {
      var n := |actions| - 1;
      var before := actions[..n];
      forall m | 0 <= m <= n ensures OpenIn(Exec(e, s, before[..m])) {
        assert before[..m] == actions[..m];
      }
      Linearizable(e, s, before);
      RunKeepsInv(e, s, before);
      assert OpenIn(Exec(e, s, actions[..n])) && OpenIn(Exec(e, s, actions[..n + 1]));
      var m := Exec(e, s, before);
      StepAccounted(e, m, actions[n]);
      AccountedExplained(
        e, Core(s.row.value), Linearization(e, s, before), m, Step(e, m, actions[n]), Effect(e, m, actions[n]));
    }
  }

  lemma LinearizationOfLast(e: Env, s: State, actions: seq<Action>, a: Action)
    ensures Linearization(e, s, actions + [a]) == Linearization(e, s, actions) + Effect(e, Exec(e, s, actions), a)
  {
    hide Effect, Exec;
    assert (actions + [a])[..|actions|] == actions;
  }

  lemma {:induction false} LinearizationExtends(e: Env, s: State, first: seq<Action>, second: seq<Action>)
    ensures Linearization(e, s, first) <= Linearization(e, s, first + second)
  {
    if second == [] {
      assert first + second == first;
    } else {
      var n := |second| - 1;
      assert first + second == first + second[..n] + [second[n]];
      LinearizationOfLast(e, s, first + second[..n], second[n]);
      hide Linearization, Effect, Exec;
      LinearizationExtends(e, s, first, second[..n]);
    }
  }

  lemma AnsweredIsPlaced(e: Env, start: Row, order: seq<Invocation>, s: State, done: nat, later: nat)
    requires Explains(e, start, order, s)
    requires done in s.calls && s.calls[done].Replied? && later !in s.calls
    ensures Listed(order, done) && !Listed(order, later)
  {
    assert Decided(e, s.calls[done]).Some?;
  }

  /** The order respects real time: a call answered before another is made is placed before it. */
  lemma OrderRespectsRealTime(e: Env, s: State, before: seq<Action>, after: seq<Action>, done: nat, later: nat)
    requires Inv(e, s) && s.calls == map[] && OpenIn(s) && OpenThroughout(e, s, before) && IncreasingPayer(e)
    requires var m := Exec(e, s, before); done in m.calls && m.calls[done].Replied? && later !in m.calls
    ensures var order := Linearization(e, s, before + after);
            exists n | 0 <= n <= |order| :: Listed(order[..n], done) && !Listed(order[..n], later)
  {
    Linearizable(e, s, before);
    LinearizationExtends(e, s, before, after);
    var first, order := Linearization(e, s, before), Linearization(e, s, before + after);
    AnsweredIsPlaced(e, Core(s.row.value), first, Exec(e, s, before), done, later);
    assert order[..|first|] == first;
  }

  // ---- the payer hypothesis is exactly right ----

  /** Both calls read the empty row, verify, and swap in the order of their nonces. */
  function RacingRun(c1: Claim, c2: Claim): seq<Action> {
    [OnCall(1, ReadRow(c1)), OnCall(2, ReadRow(c2)), OnCall(1, VerifySignature), OnCall(2, VerifySignature),
     OnCall(1, SwapRow), OnCall(2, SwapRow)]
  }

  function Opened(e: Env): State {
    Init().(row := Some(OpenedRow(e)))
  }

  /** The state after the first `n` steps of the racing run. */
  function RacingState(e: Env, c1: Claim, c2: Claim, n: nat): State {
    var r0 := OpenedRow(e);
    var r1 := StorePending(r0, c1);
    var r2 := StorePending(r1, c2);
    var s := Opened(e);
    match n
    case 0 => s
    case 1 => s.(calls := map[1 := Checked(c1)])
    case 2 => s.(calls := map[1 := Checked(c1), 2 := Checked(c2)])
    case 3 => s.(calls := map[1 := Verified(c1), 2 := Checked(c2)])
    case 4 => s.(calls := map[1 := Verified(c1), 2 := Verified(c2)])
    case 5 => s.(row := Some(r1), calls := map[1 := Replied(c1, Accepted), 2 := Verified(c2)], accepted := [c1])
    case _ =>
      s.(row := Some(r2), calls := map[1 := Replied(c1, Accepted), 2 := Replied(c2, Accepted)], accepted := [c1, c2])
  }

  lemma RacingStep(e: Env, c1: Claim, c2: Claim, n: nat)
    requires Storable(e, c1) && Storable(e, c2) && c1.nonce < c2.nonce && n < 6
    ensures Step(e, RacingState(e, c1, c2, n), RacingRun(c1, c2)[n]) == RacingState(e, c1, c2, n + 1)
  {
    assert Step(e, RacingState(e, c1, c2, n), RacingRun(c1, c2)[n]).calls == RacingState(e, c1, c2, n + 1).calls;
  }

  lemma {:induction false} RacingPrefix(e: Env, c1: Claim, c2: Claim, n: nat)
    requires Storable(e, c1) && Storable(e, c2) && c1.nonce < c2.nonce && n <= 6
    ensures Exec(e, Opened(e), RacingRun(c1, c2)[..n]) == RacingState(e, c1, c2, n)
  {
    if n > 0 {
      RacingPrefix(e, c1, c2, n - 1);
      RacingStep(e, c1, c2, n - 1);
      Prefix(e, Opened(e), RacingRun(c1, c2), n - 1);
    }
  }

  lemma RacingRunAcceptsBoth(e: Env, c1: Claim, c2: Claim)
    requires Storable(e, c1) && Storable(e, c2) && c1.nonce < c2.nonce
    ensures Exec(e, Opened(e), RacingRun(c1, c2)) == RacingState(e, c1, c2, 6)
    ensures OpenThroughout(e, Opened(e), RacingRun(c1, c2))
  {
    var run := RacingRun(c1, c2);
    RacingPrefix(e, c1, c2, 6);
    assert run[..6] == run;
    forall n | 0 <= n <= |run| ensures OpenIn(Exec(e, Opened(e), run[..n])) {
      RacingPrefix(e, c1, c2, n);
    }
  }

  lemma Prefix(e: Env, s: State, run: seq<Action>, n: nat)
    requires n < |run|
    ensures Exec(e, s, run[..n + 1]) == Step(e, Exec(e, s, run[..n]), run[n])
  {
    assert run[..n + 1][..n] == run[..n];
  }

  /** Serially accepted claims grow in both nonce and amount. */
  lemma {:induction false} SerialAcceptsGrow(e: Env, row: Row, order: seq<Invocation>, i: nat)
    requires i < |order| && |Serial(e, row, order).1| == |order| && Serial(e, row, order).1[i].Accepted?
    ensures var r := Serial(e, row, order).0;
            order[i].claim.nonce <= r.pendingNonce && order[i].claim.amount <= r.pendingAmount
    ensures forall j | i < j < |order| && Serial(e, row, order).1[j].Accepted? ::
              order[i].claim.nonce < order[j].claim.nonce && order[i].claim.amount < order[j].claim.amount
  {
    var n := |order| - 1;
    SerialLength(e, row, order[..n]);
    if i < n {
      SerialAcceptsGrow(e, row, order[..n], i);
    }
  }

  lemma NoSerialOrderAcceptsBoth(e: Env, c1: Claim, c2: Claim, order: seq<Invocation>)
    requires Storable(e, c1) && Storable(e, c2) && c1.nonce < c2.nonce && c2.amount <= c1.amount
    ensures !Explains(e, OpenedRow(e), order, Exec(e, Opened(e), RacingRun(c1, c2)))
  {
    var s := Exec(e, Opened(e), RacingRun(c1, c2));
    RacingRunAcceptsBoth(e, c1, c2);
    if Explains(e, OpenedRow(e), order, s) {
      assert Decided(e, s.calls[1]).Some? && Decided(e, s.calls[2]).Some?;
      assert Listed(order, 1) && Listed(order, 2);
      var i :| 0 <= i < |order| && order[i].id == 1;
      var j :| 0 <= j < |order| && order[j].id == 2;
      SerialAcceptsGrow(e, OpenedRow(e), order, i);
      SerialAcceptsGrow(e, OpenedRow(e), order, j);
      assert false;
    }
  }

  lemma OpenedIsInv(e: Env)
    ensures Inv(e, Opened(e)) && Opened(e).calls == map[] && OpenIn(Opened(e)) && Core(OpenedRow(e)) == OpenedRow(e)
  {
  }

  ghost predicate Explained(e: Env, actions: seq<Action>) {
    exists order :: Explains(e, OpenedRow(e), order, Exec(e, Opened(e), actions))
  }

  lemma NotIncreasingIsNotExplained(e: Env) returns (actions: seq<Action>)
    requires !IncreasingPayer(e)
    ensures OpenThroughout(e, Opened(e), actions) && !Explained(e, actions)
  {
    var c1, c2 :| Storable(e, c1) && Storable(e, c2) && c1.nonce < c2.nonce && c2.amount <= c1.amount;
    RacingRunAcceptsBoth(e, c1, c2);
    actions := RacingRun(c1, c2);
    forall order ensures !Explains(e, OpenedRow(e), order, Exec(e, Opened(e), actions)) {
      NoSerialOrderAcceptsBoth(e, c1, c2, order);
    }
  }

  /** Every open run from a fresh channel has a serial explanation if and only if amounts grow with nonces. */
  lemma LinearizableIffIncreasing(e: Env)
    ensures IncreasingPayer(e) <==>
            forall actions | OpenThroughout(e, Opened(e), actions) :: Explained(e, actions)
  {
    OpenedIsInv(e);
    if IncreasingPayer(e) {
      forall actions | OpenThroughout(e, Opened(e), actions) ensures Explained(e, actions) {
        Linearizable(e, Opened(e), actions);
      }
    } else {
      var actions := NotIncreasingIsNotExplained(e);
    }
  }
}
