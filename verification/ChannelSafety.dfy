/** What every run of the channel machine keeps, for any payer and for a monotone one. */
module ChannelSafety {
  import opened Common
  import opened ClaimEncoding
  import opened Channel

  /** A claim whose row update can succeed: signed, in the column's range, positive, covered by the deposit. */
  predicate Storable(e: Env, c: Claim) {
    Signed(e, c) && 0 < c.nonce <= MAX_BIGINT && 0 < c.amount <= e.deposit
  }

  /** A claim the contract can take. */
  predicate Checkpointable(e: Env, c: Claim) {
    Signed(e, c) && 0 < c.nonce < TWO_64 && 0 < c.amount <= e.deposit
  }

  predicate IncreasingNonces(cs: seq<Claim>) {
    forall i, j | 0 <= i < j < |cs| :: cs[i].nonce < cs[j].nonce
  }

  /** The stored triple is the initial one, or all of it comes from the last accepted claim. */
  predicate TripleFrom(r: Row, accepted: seq<Claim>) {
    if accepted == [] then r.pendingAmount == 0 && r.pendingNonce == 0 && r.pendingSignature == None
    else r.pendingSignature.Some? && PendingClaim(r) == accepted[|accepted| - 1]
  }

  predicate RowOk(e: Env, s: State) {
    && (forall c | c in s.accepted :: Storable(e, c))
    && IncreasingNonces(s.accepted)
    && match s.row
       case None => s.accepted == []
       case Some(r) => r.deposited == e.deposit && TripleFrom(r, s.accepted)
                       && (r.status != Open ==> s.chain.status != Open)
  }

  predicate ChainOk(e: Env, s: State) {
    && (forall c | c in s.checkpointed :: Checkpointable(e, c))
    && (if s.checkpointed == [] then s.chain.claimed == s.chain.nonce == 0
        else var c := s.checkpointed[|s.checkpointed| - 1]; s.chain.claimed == c.amount && s.chain.nonce == c.nonce)
    && (s.chain.settled.Some? ==> s.chain.status == Closed && s.chain.settled.value == s.chain.claimed)
  }

  predicate Told(call: Call) {
    call.Replied? && call.response.Accepted?
  }

  predicate CallOk(e: Env, accepted: seq<Claim>, call: Call) {
    && (call.Checked? || call.Verified? ==> 0 < call.claim.nonce && 0 < call.claim.amount <= e.deposit)
    && (call.Verified? ==> Signed(e, call.claim))
    && (Told(call) ==> call.claim in accepted)
  }

  predicate CallsOk(e: Env, s: State) {
    && (forall id | id in s.calls :: CallOk(e, s.accepted, s.calls[id]))
    && (forall i, j | i in s.calls && j in s.calls && i != j && Told(s.calls[i]) && Told(s.calls[j]) ::
          s.calls[i].claim.nonce != s.calls[j].claim.nonce)
  }

  /** What a keeper remembers is at most the contract's, or a claim the row once held. */
  predicate PcOk(s: State, pc: KeeperPc) {
    match pc
    case Captured(c) => c in s.accepted
    case Info(claimed, mapped) =>
      && claimed <= s.chain.claimed
      && (mapped.Some? && mapped.value != Open ==> s.chain.status != Open)
    case _ => true
  }

  /** It is alone at work, and what it is about to write is not behind the row. */
  predicate Alone(s: State, k: nat, pc: KeeperPc) {
    s.lock == Some(k) && (pc.Info? && s.row.Some? ==> s.row.value.claimed <= pc.claimed)
  }

  /** The row never runs ahead of the contract; under the lock every keeper at work is alone. */
  predicate MirrorOk(e: Env, s: State) {
    && (s.row.Some? ==> s.row.value.claimed <= s.chain.claimed)
    && forall k | k in s.keepers :: PcOk(s, s.keepers[k]) && (e.advisory ==> Alone(s, k, s.keepers[k]))
  }

  predicate Inv(e: Env, s: State) {
    RowOk(e, s) && ChainOk(e, s) && CallsOk(e, s) && MirrorOk(e, s)
  }

  lemma SwapKeepsRow(e: Env, s: State, id: nat)
    requires RowOk(e, s) && CallsOk(e, s)
    ensures RowOk(e, CallStep(e, s, id, SwapRow))
  {
    if id in s.calls && s.calls[id].Verified? {
      var c := s.calls[id].claim;
      assert CallOk(e, s.accepted, s.calls[id]);
      assert CompareAndSwap(s.row, c).1.Accepted? ==> Storable(e, c);
      assert CompareAndSwap(s.row, c).1.Accepted? ==> IncreasingNonces(s.accepted + [c]);
    }
  }

  lemma StoredNonceIsLargest(e: Env, s: State)
    requires RowOk(e, s)
    ensures forall x | x in s.accepted :: s.row.Some? && x.nonce <= s.row.value.pendingNonce
  {
    forall x | x in s.accepted ensures s.row.Some? && x.nonce <= s.row.value.pendingNonce {
      var i :| 0 <= i < |s.accepted| && s.accepted[i] == x;
    }
  }

  lemma SwapKeepsCalls(e: Env, s: State, id: nat)
    requires RowOk(e, s) && CallsOk(e, s)
    ensures CallsOk(e, CallStep(e, s, id, SwapRow))
  {
    StoredNonceIsLargest(e, s);
    hide RowOk;
    var t := CallStep(e, s, id, SwapRow);
    if t != s {
      assert s.accepted <= t.accepted;
      forall i | i in t.calls ensures CallOk(e, t.accepted, t.calls[i]) {
        assert CallOk(e, s.accepted, s.calls[i]);
      }
    }
  }

  lemma SwapKeepsInv(e: Env, s: State, id: nat)
    requires Inv(e, s)
    ensures Inv(e, CallStep(e, s, id, SwapRow))
  {
    SwapKeepsRow(e, s, id);
    SwapKeepsCalls(e, s, id);
    hide RowOk, CallsOk;
  }

  lemma CallStepKeepsInv(e: Env, s: State, id: nat, a: CallAction)
    requires Inv(e, s)
    ensures Inv(e, CallStep(e, s, id, a))
  {
    hide Inv, CallStep;
    if a.SwapRow? {
      SwapKeepsInv(e, s, id);
    } else {
      AnswerKeepsInv(e, s, id, a);
    }
  }

  /** Any step of a call but the swap touches that call only. */
  lemma AnswerIsLocal(e: Env, s: State, id: nat, a: CallAction)
    requires CallsOk(e, s) && !a.SwapRow? && (a.ReadRow? ==> RowOk(e, s))
    ensures var t := CallStep(e, s, id, a);
            t == s || (id in t.calls && t == s.(calls := s.calls[id := t.calls[id]])
                       && CallOk(e, s.accepted, t.calls[id]) && !Told(t.calls[id]))
  {
    hide RowOk, IncreasingNonces;
    assert id in s.calls ==> CallOk(e, s.accepted, s.calls[id]);
    if a.ReadRow? {
      RowHoldsDeposit(e, s);
    }
  }

  lemma RowHoldsDeposit(e: Env, s: State)
    requires RowOk(e, s)
    ensures s.row.Some? ==> s.row.value.deposited == e.deposit
  {
  }

  lemma AnswerKeepsInv(e: Env, s: State, id: nat, a: CallAction)
    requires Inv(e, s) && !a.SwapRow?
    ensures Inv(e, CallStep(e, s, id, a))
  {
    AnswerIsLocal(e, s, id, a);
    hide CallStep, CallOk, Told, Storable, Checkpointable, IncreasingNonces, TripleFrom, PcOk, Alone;
    var t := CallStep(e, s, id, a);
    if t != s {
      CallsKept(e, s, id, t.calls[id]);
      hide CallsOk;
    }
  }

  lemma CallsKept(e: Env, s: State, id: nat, call: Call)
    requires CallsOk(e, s) && CallOk(e, s.accepted, call) && !Told(call)
    ensures CallsOk(e, s.(calls := s.calls[id := call]))
  {
    hide CallOk, Told;
  }

  lemma OnChainKeepsInv(e: Env, s: State, c: Claim)
    requires Inv(e, s)
    ensures Inv(e, OnChain(e, s, c))
  {
  }

  lemma ChainChangeKeepsInv(e: Env, s: State, ch: Chain)
    requires Inv(e, s)
    requires ch.claimed == s.chain.claimed && ch.nonce == s.chain.nonce
    requires ch.status == Open ==> s.chain.status == Open
    requires ch.settled.Some? ==> ch.status == Closed && ch.settled.value == ch.claimed
    ensures Inv(e, s.(chain := ch))
  {
  }

  lemma KeepKeepsInv(e: Env, s: State, k: nat, pc: KeeperPc)
    requires Inv(e, s) && k in s.keepers && PcOk(s, pc) && (e.advisory ==> Alone(s, k, pc))
    ensures Inv(e, Keep(s, k, pc))
  {
  }

  lemma ResyncKeepsInv(e: Env, s: State, k: nat)
    requires Inv(e, s)
    ensures Inv(e, KeeperStep(e, s, k, WriteResync))
  {
    if k in s.keepers && s.keepers[k].Info? {
      assert PcOk(s, s.keepers[k]) && (e.advisory ==> Alone(s, k, s.keepers[k]));
      var t := KeeperStep(e, s, k, WriteResync);
      hide ChainOk, CallOk;
      forall j | j in t.keepers ensures PcOk(t, t.keepers[j]) && (e.advisory ==> Alone(t, j, t.keepers[j])) {
        assert PcOk(s, s.keepers[j]) && (e.advisory ==> Alone(s, j, s.keepers[j]));
      }
    }
  }

  lemma KeeperStepKeepsInv(e: Env, s: State, k: nat, a: KeeperAction)
    requires Inv(e, s)
    ensures Inv(e, KeeperStep(e, s, k, a))
  {
    if k in s.keepers && a.Attempt? && s.keepers[k].Captured? {
      OnChainKeepsInv(e, s, s.keepers[k].claim);
      KeepKeepsInv(e, if a.reached then OnChain(e, s, s.keepers[k].claim) else s, k, Attempted);
    } else if k in s.keepers && a.AttemptFinalize? && s.keepers[k].Between? {
      var ch := FinalizeClose(s.chain, a.windowElapsed);
      ChainChangeKeepsInv(e, s, ch);
      KeepKeepsInv(e, s.(chain := ch), k, Attempted);
    } else if k in s.keepers && (a.CaptureRow? || a.ReadChain? || a.SkipResync?) {
      var t := KeeperStep(e, s, k, a);
      assert t == s || (PcOk(s, t.keepers[k]) && (e.advisory ==> Alone(s, k, t.keepers[k])));
      KeepKeepsInv(e, s, k, t.keepers[k]);
      assert t == s || t == Keep(s, k, t.keepers[k]);
    } else if a.WriteResync? {
      ResyncKeepsInv(e, s, k);
    }
  }

  lemma ContractStepKeepsInv(e: Env, s: State, a: ContractAction)
    requires Inv(e, s)
    ensures Inv(e, ContractStep(e, s, a))
  {
    match a
    case OutsideCheckpoint(c) => OnChainKeepsInv(e, s, c);
    case _ => ChainChangeKeepsInv(e, s, ContractStep(e, s, a).chain);
  }

  lemma RowStepKeepsInv(e: Env, s: State, a: RowAction)
    requires Inv(e, s)
    ensures Inv(e, RowStep(e, s, a))
  {
  }

  lemma StepKeepsInv(e: Env, s: State, a: Action)
    requires Inv(e, s)
    ensures Inv(e, Step(e, s, a))
  {
    match a
    case OnCall(id, call) => CallStepKeepsInv(e, s, id, call);
    case OnKeeper(k, keeper) => KeeperStepKeepsInv(e, s, k, keeper);
    case OnContract(contract) => ContractStepKeepsInv(e, s, contract);
    case OnRow(write) => RowStepKeepsInv(e, s, write);
  }

  lemma {:induction false} RunKeepsInv(e: Env, s: State, actions: seq<Action>)
    requires Inv(e, s)
    ensures Inv(e, Exec(e, s, actions))
  {
    if actions != [] {
      RunKeepsInv(e, s, actions[..|actions| - 1]);
      StepKeepsInv(e, Exec(e, s, actions[..|actions| - 1]), actions[|actions| - 1]);
    }
  }

  // ---- what no step undoes ----

  /** Nothing that counts falls: row nonce, mirror under the lock, contract, settled amount, accepted claims. */
  predicate Advances(e: Env, s: State, t: State) {
    && s.accepted <= t.accepted
    && (s.row.Some? ==> t.row.Some?
                        && s.row.value.pendingNonce <= t.row.value.pendingNonce
                        && (e.advisory ==> s.row.value.claimed <= t.row.value.claimed))
    && s.chain.claimed <= t.chain.claimed && s.chain.nonce <= t.chain.nonce
    && (s.chain.settled.Some? ==> t.chain.settled == s.chain.settled)
    && (forall id | id in s.calls && s.calls[id].Replied? :: id in t.calls && t.calls[id] == s.calls[id])
  }

  lemma KeeperStepAdvances(e: Env, s: State, k: nat, a: KeeperAction)
    requires Inv(e, s)
    ensures Advances(e, s, KeeperStep(e, s, k, a))
  {
    if k in s.keepers {
      assert PcOk(s, s.keepers[k]);
    }
  }

  lemma CallStepAdvances(e: Env, s: State, id: nat, a: CallAction)
    ensures Advances(e, s, CallStep(e, s, id, a))
  {
  }

  lemma StepAdvances(e: Env, s: State, a: Action)
    requires Inv(e, s)
    ensures Advances(e, s, Step(e, s, a))
  {
    match a
    case OnCall(id, call) => CallStepAdvances(e, s, id, call);
    case OnKeeper(k, keeper) => KeeperStepAdvances(e, s, k, keeper);
    case OnContract(contract) =>
    case OnRow(write) =>
  }

  lemma {:induction false} RunAdvances(e: Env, s: State, actions: seq<Action>)
    requires Inv(e, s)
    ensures Advances(e, s, Exec(e, s, actions))
  {
    if actions != [] {
      var before := actions[..|actions| - 1];
      RunAdvances(e, s, before);
      RunKeepsInv(e, s, before);
      StepAdvances(e, Exec(e, s, before), actions[|actions| - 1]);
    }
  }

  // ---- the lock ----

  /** Whoever is on the lock is at work, so it can always give it back. */
  predicate LockHeld(s: State) {
    s.lock.Some? ==> s.lock.value in s.keepers
  }

  lemma {:induction false} RunKeepsLockHeld(e: Env, actions: seq<Action>)
    ensures LockHeld(Exec(e, Init(), actions))
  {
    if actions != [] {
      hide LockHeld, Step;
      var n := |actions| - 1;
      RunKeepsLockHeld(e, actions[..n]);
      StepKeepsLockHeld(e, Exec(e, Init(), actions[..n]), actions[n]);
    }
  }

  lemma StepKeepsLockHeld(e: Env, s: State, a: Action)
    requires LockHeld(s)
    ensures LockHeld(Step(e, s, a))
  {
    hide Signed, ResyncWrite, CompareAndSwap, ReadChecks;
  }

  /** In every run: when the holder is done, or dies, the lock is free and the next keeper gets it. */
  lemma LockIsFreed(e: Env, actions: seq<Action>, k: nat, next: nat)
    requires var s := Exec(e, Init(), actions); s.lock == Some(k) && (next == k || next !in s.keepers)
    ensures var released := KeeperStep(e, Exec(e, Init(), actions), k, ReleaseLock);
            var taken := KeeperStep(e, released, next, TakeLock);
            released.lock == None && k !in released.keepers && taken.lock == Some(next) && next in taken.keepers
  {
    RunKeepsLockHeld(e, actions);
  }

  // ---- the main results ----

  /**
   For any payer and any interleaving: the row's triple is the initial one or comes whole from
   one verified claim within the deposit, its nonce is the largest ever accepted, and a caller
   told "accepted" won its own nonce.
   */
  lemma ClaimRowIntegrity(e: Env, actions: seq<Action>)
    ensures var s := Exec(e, Init(), actions);
            && (forall c | c in s.accepted :: Storable(e, c))
            && (s.row.Some? ==>
                  && TripleFrom(s.row.value, s.accepted)
                  && s.row.value.deposited == e.deposit
                  && forall c | c in s.accepted :: c.nonce <= s.row.value.pendingNonce)
            && (forall i | i in s.calls && Told(s.calls[i]) :: s.calls[i].claim in s.accepted)
            && (forall i, j | i in s.calls && j in s.calls && i != j && Told(s.calls[i]) && Told(s.calls[j]) ::
                  s.calls[i].claim.nonce != s.calls[j].claim.nonce)
  {
    hide Exec;
    RunKeepsInv(e, Init(), actions);
    var s := Exec(e, Init(), actions);
    StoredNonceIsLargest(e, s);
    forall i | i in s.calls && Told(s.calls[i]) ensures s.calls[i].claim in s.accepted {
      assert CallOk(e, s.accepted, s.calls[i]);
    }
  }

  /** A claim somebody was told is accepted stays at or below the stored nonce in every later state. */
  lemma AcceptedIsDurable(e: Env, before: seq<Action>, id: nat, after: seq<Action>)
    requires var s := Exec(e, Init(), before); id in s.calls && Told(s.calls[id])
    ensures var c := Exec(e, Init(), before).calls[id].claim;
            var t := Exec(e, Init(), before + after);
            t.row.Some? && c.nonce <= t.row.value.pendingNonce && c in t.accepted
  {
    var s := Exec(e, Init(), before);
    RunKeepsInv(e, Init(), before);
    assert CallOk(e, s.accepted, s.calls[id]);
    ExecAppend(e, Init(), before, after);
    RunAdvances(e, s, after);
  }

  // ---- what a call is told at its read ----

  /** A read that meets no row, or one that is not open, or a claim it has no room for. */
  predicate RefusedAtRead(row: Option<Row>, c: Claim, reason: Reason) {
    match reason
    case ChannelNotFound => row.None?
    case ChannelNotOpen => row.Some? && row.value.status != Open
    case StaleClaim =>
      && row.Some? && row.value.status == Open
      && (c.nonce <= row.value.pendingNonce || c.amount <= row.value.pendingAmount)
    case ExceedsDeposit =>
      && row.Some? && row.value.status == Open && c.nonce > row.value.pendingNonce
      && c.amount > row.value.pendingAmount && c.amount > row.value.deposited
    case InvalidSignature => false
  }

  lemma ReadAnswers(e: Env, s: State, id: nat, c: Claim)
    requires id !in s.calls
    ensures var call := CallStep(e, s, id, ReadRow(c)).calls[id];
            && call.claim == c
            && (forall reason :: call == Replied(c, Rejected(reason)) <==> RefusedAtRead(s.row, c, reason))
            && (call.Replied? ==> call.response.Rejected?)
  {
  }

  /** A call told no at its read has that answer in every later state; in any run, for each of the reasons. */
  lemma RefusalStands(e: Env, before: seq<Action>, id: nat, c: Claim, reason: Reason, after: seq<Action>)
    requires var s := Exec(e, Init(), before); id !in s.calls && RefusedAtRead(s.row, c, reason)
    ensures var t := Exec(e, Init(), before + [OnCall(id, ReadRow(c))] + after);
            id in t.calls && t.calls[id] == Replied(c, Rejected(reason))
  {
    var s := Exec(e, Init(), before);
    ReadAnswers(e, s, id, c);
    RunKeepsInv(e, Init(), before);
    var read := Do(e, Init(), before, OnCall(id, ReadRow(c)));
    var m := Exec(e, Init(), read);
    assert m.calls[id] == Replied(c, Rejected(reason));
    hide Exec, CallStep, RefusedAtRead, Inv;
    RunKeepsInv(e, Init(), read) by { InitIsInv(e); }
    ExecAppend(e, Init(), read, after);
    RunAdvances(e, m, after);
  }

  lemma InitIsInv(e: Env)
    ensures Inv(e, Init())
  {
  }

  /** The row's `claimed` is at most the contract's, which is at most the deposit; under the lock it never falls. */
  lemma LaggingMirror(e: Env, before: seq<Action>, after: seq<Action>)
    ensures var s, t := Exec(e, Init(), before), Exec(e, Init(), before + after);
            && s.chain.claimed <= t.chain.claimed <= e.deposit
            && (t.row.Some? ==> t.row.value.claimed <= t.chain.claimed)
            && (s.row.Some? ==> t.row.Some? && (e.advisory ==> s.row.value.claimed <= t.row.value.claimed))
  {
    hide Exec;
    RunKeepsInv(e, Init(), before);
    RunKeepsInv(e, Init(), before + after);
    ExecAppend(e, Init(), before, after);
    RunAdvances(e, Exec(e, Init(), before), after);
    var t := Exec(e, Init(), before + after);
    if t.checkpointed != [] {
      assert t.checkpointed[|t.checkpointed| - 1] in t.checkpointed;
    }
  }

  /** Without the advisory lock the mirror can fall: a second resync overtaken by an older read. */
  lemma OverlappingResyncsFall(e: Env, s: State, older: nat, newer: nat)
    requires s.row.Some? && older != newer && older in s.keepers && newer in s.keepers
    requires s.keepers[older].Info? && s.keepers[older].claimed < s.chain.claimed && s.keepers[newer] == Attempted
    ensures var s1 := KeeperStep(e, KeeperStep(e, s, newer, ReadChain(true)), newer, WriteResync);
            var s2 := KeeperStep(e, s1, older, WriteResync);
            s1.row.Some? && s2.row.Some?
            && s1.row.value.claimed == s.chain.claimed && s2.row.value.claimed < s1.row.value.claimed
  {
  }

  /** In no run does the mirror fall. */
  ghost predicate MirrorKept(e: Env) {
    forall before, after ::
      var s, t := Exec(e, Init(), before), Exec(e, Init(), before + after);
      s.row.Some? ==> t.row.Some? && s.row.value.claimed <= t.row.value.claimed
  }

  /** A channel that started closing before anything was claimed. */
  lemma ClosingChannel(e: Env) returns (actions: seq<Action>)
    ensures Exec(e, Init(), actions) ==
            Init().(row := Some(OpenedRow(e).(status := Closing, closingAt := Some(0))),
                    chain := Chain(0, 0, Closing, None))
  {
    assert Exec(e, Init(), []) == Init();
    hide Exec, CallStep, KeeperStep;
    actions := Do(e, Init(), [], OnRow(InsertRow));
    assert Exec(e, Init(), actions) == Init().(row := Some(OpenedRow(e)));
    actions := Do(e, Init(), actions, OnContract(MoveStatus(Closing)));
    assert Exec(e, Init(), actions) == Init().(row := Some(OpenedRow(e)), chain := Chain(0, 0, Closing, None));
    actions := Do(e, Init(), actions, OnRow(WriteClosing(0)));
  }

  /** One keeper has read that nothing is claimed, and a claim lands after. */
  lemma OlderHasRead(e: Env, c: Claim) returns (actions: seq<Action>)
    requires Checkpointable(e, c)
    ensures var s := Exec(e, Init(), actions);
            && s.row.Some? && s.chain.claimed == c.amount
            && s.keepers == map[0 := Info(0, Some(Closing))]
  {
    actions := ClosingChannel(e);
    var s := Exec(e, Init(), actions);
    hide Exec, CallStep, RowStep, OpenedRow;
    actions := Do(e, Init(), actions, OnKeeper(0, TakeLock));
    assert Exec(e, Init(), actions) == s.(lock := Some(0), keepers := map[0 := Between]);
    actions := Do(e, Init(), actions, OnKeeper(0, AttemptFinalize(false)));
    assert Exec(e, Init(), actions) == s.(lock := Some(0), keepers := map[0 := Attempted]);
    actions := Do(e, Init(), actions, OnKeeper(0, ReadChain(true)));
    assert Exec(e, Init(), actions) == s.(lock := Some(0), keepers := map[0 := Info(0, Some(Closing))]);
    hide KeeperStep;
    actions := Do(e, Init(), actions, OnContract(OutsideCheckpoint(c)));
  }

  /** Without the lock a second keeper overtakes it, and the older read lowers the row again. */
  lemma NewerOvertakes(e: Env, c: Claim) returns (before: seq<Action>, after: seq<Action>)
    requires !e.advisory && Checkpointable(e, c)
    ensures var s, t := Exec(e, Init(), before), Exec(e, Init(), before + after);
            s.row.Some? && t.row.Some? && t.row.value.claimed < s.row.value.claimed
  {
    before := OlderHasRead(e, c);
    hide Exec, CallStep, ContractStep, RowStep;
    before := Do(e, Init(), before, OnKeeper(1, TakeLock));
    before := Do(e, Init(), before, OnKeeper(1, AttemptFinalize(false)));
    OverlappingResyncsFall(e, Exec(e, Init(), before), 0, 1);
    before := Do(e, Init(), before, OnKeeper(1, ReadChain(true)));
    before := Do(e, Init(), before, OnKeeper(1, WriteResync));
    after := [OnKeeper(0, WriteResync)];
    var all := Do(e, Init(), before, OnKeeper(0, WriteResync));
  }

  /** The mirror never falls in any run if and only if keepers take the lock, or the contract can take no claim. */
  lemma MirrorKeptIff(e: Env)
    ensures MirrorKept(e) <==> e.advisory || forall c :: !Checkpointable(e, c)
  {
    if e.advisory || forall c :: !Checkpointable(e, c) {
      forall before, after
        ensures var s, t := Exec(e, Init(), before), Exec(e, Init(), before + after);
                s.row.Some? ==> t.row.Some? && s.row.value.claimed <= t.row.value.claimed
      {
        LaggingMirror(e, before, after);
        if !e.advisory {
          NothingClaimed(e, before);
        }
      }
    } else {
      var c :| Checkpointable(e, c);
      var before, after := NewerOvertakes(e, c);
    }
  }

  lemma NothingClaimed(e: Env, actions: seq<Action>)
    requires forall c :: !Checkpointable(e, c)
    ensures var s := Exec(e, Init(), actions);
            s.chain.claimed == 0 && (s.row.Some? ==> s.row.value.claimed == 0)
  {
    RunKeepsInv(e, Init(), actions);
    LastIsCheckpointable(e, Exec(e, Init(), actions));
  }

  lemma LastIsCheckpointable(e: Env, s: State)
    requires ChainOk(e, s)
    ensures s.checkpointed != [] ==> Checkpointable(e, s.checkpointed[|s.checkpointed| - 1])
  {
  }

  /** Larger nonces carry larger amounts, and one nonce carries one amount. */
  ghost predicate MonotonePayer(e: Env) {
    forall c1, c2 | Checkpointable(e, c1) && Checkpointable(e, c2) ::
      && (c1.nonce < c2.nonce ==> c1.amount < c2.amount)
      && (c1.nonce == c2.nonce ==> c1.amount == c2.amount)
  }

  /** A stale rejection by the contract means the claim's amount is already covered. */
  lemma StaleMeansCovered(e: Env, s: State, c: Claim)
    requires ChainOk(e, s) && MonotonePayer(e) && Checkpointable(e, c) && StaleOnChain(s.chain, c)
    ensures c.amount <= s.chain.claimed
  {
    if c.nonce <= s.chain.nonce {
      assert Checkpointable(e, s.checkpointed[|s.checkpointed| - 1]);
    }
  }

  /** A captured claim that reaches the contract is accepted, stale, or refused only for the channel's status. */
  lemma AttemptOutcomes(e: Env, s: State, k: nat)
    requires Inv(e, s) && k in s.keepers && s.keepers[k].Captured?
    ensures var c := s.keepers[k].claim;
            Checkpointable(e, c)
            && (ContractAccepts(e, s.chain, c) || StaleOnChain(s.chain, c) <==> s.chain.status in {Open, Closing})
  {
    assert PcOk(s, s.keepers[k]);
  }

  /** The attempt itself brings the contract up to the captured amount. */
  lemma AttemptCoversCapture(e: Env, s: State, k: nat)
    requires Inv(e, s) && MonotonePayer(e) && k in s.keepers && s.keepers[k].Captured?
    requires ContractAccepts(e, s.chain, s.keepers[k].claim) || StaleOnChain(s.chain, s.keepers[k].claim)
    ensures s.keepers[k].claim.amount <= KeeperStep(e, s, k, Attempt(true)).chain.claimed
  {
    AttemptOutcomes(e, s, k);
    if !ContractAccepts(e, s.chain, s.keepers[k].claim) {
      StaleMeansCovered(e, s, s.keepers[k].claim);
    }
  }

  /**
   Watchtower coverage: once a captured claim was accepted or rejected as stale, the contract's
   `claimed` is at least its amount in every later state, and so is whatever a later finalize paid.
   */
  lemma WatchtowerCoverage(e: Env, before: seq<Action>, k: nat, after: seq<Action>)
    requires MonotonePayer(e)
    requires var s := Exec(e, Init(), before);
             k in s.keepers && s.keepers[k].Captured?
             && (ContractAccepts(e, s.chain, s.keepers[k].claim) || StaleOnChain(s.chain, s.keepers[k].claim))
    ensures var amount := Exec(e, Init(), before).keepers[k].claim.amount;
            var t := Exec(e, Init(), before + [OnKeeper(k, Attempt(true))] + after);
            amount <= t.chain.claimed && (t.chain.settled.Some? ==> amount <= t.chain.settled.value)
  {
    var s := Exec(e, Init(), before);
    var a := OnKeeper(k, Attempt(true));
    RunKeepsInv(e, Init(), before);
    assert (before + [a])[..|before|] == before;
    assert Exec(e, Init(), before + [a]) == KeeperStep(e, s, k, Attempt(true));
    hide Exec, KeeperStep, RowOk, CallsOk, MirrorOk;
    AttemptCoversCapture(e, s, k);
    RunKeepsInv(e, Init(), before + [a]);
    ExecAppend(e, Init(), before + [a], after);
    RunAdvances(e, Exec(e, Init(), before + [a]), after);
    RunKeepsInv(e, Init(), before + [a] + after);
  }

  // ---- the encoding of accepted claims ----

  /** Every stored triple is in the ranges the contract signs over, so its signed bytes determine it. */
  lemma SignedBytesDetermineStoredTriple(e: Env, actions: seq<Action>, nonce: int, amount: int)
    requires ValidEnv(e)
    requires var s := Exec(e, Init(), actions); s.row.Some? && s.row.value.pendingSignature.Some?
    requires InRange(e.channelId, nonce, amount)
    ensures var r := Exec(e, Init(), actions).row.value;
            && InRange(e.channelId, r.pendingNonce, r.pendingAmount)
            && e.verify(ClaimPayload(e.channelId, r.pendingNonce, r.pendingAmount), r.pendingSignature.value)
            && (ClaimPayload(e.channelId, nonce, amount) == ClaimPayload(e.channelId, r.pendingNonce, r.pendingAmount)
                <==> nonce == r.pendingNonce && amount == r.pendingAmount)
  {
    ClaimRowIntegrity(e, actions);
    var s := Exec(e, Init(), actions);
    var r := s.row.value;
    assert Storable(e, PendingClaim(r));
    if ClaimPayload(e.channelId, nonce, amount) == ClaimPayload(e.channelId, r.pendingNonce, r.pendingAmount) {
      PayloadDeterminesClaim(e.channelId, nonce, amount, e.channelId, r.pendingNonce, r.pendingAmount);
    }
  }

  /** The signature alone does not keep a wrapped nonce out; the BIGINT column does. */
  lemma WrappedNonceVerifiesButFails(e: Env, row: Option<Row>, c: Claim)
    ensures var wrapped := c.(nonce := c.nonce + TWO_64);
            Signed(e, wrapped) == Signed(e, c) && CompareAndSwap(row, wrapped) == (row, Failed)
  {
    WrappedNonceSharesPayload(e.channelId, c.nonce, c.amount);
  }
}
