/**
 The fast path and the keeper as they run undisturbed, over the whole table, and
 what one sweep repairs.  Each method is proved against a function of one
 channel; the theorems about that function follow from the channel machine.
 */
module ChannelKeeper {
  import opened Common
  import opened ClaimEncoding
  import opened Channel
  import opened ChannelSafety
  import Lin = ChannelLinearizability

  const CHALLENGE_PERIOD_SECS := 86_400

  // ---- one channel, one sweep ----

  /** checkpointAndResync: submit the captured claim, then copy the contract's state over the row. */
  function CheckpointAndResync(e: Env, row: Row, ch: Chain, captured: Claim): (Row, Chain) {
    var after := Checkpoint(e, ch, captured);
    (row.(claimed := after.claimed, status := after.status), after)
  }

  function SweepCheckpoint(e: Env, row: Row, ch: Chain, status: Status): (Row, Chain) {
    if CheckpointDue(row, status) then CheckpointAndResync(e, row, ch, PendingClaim(row)) else (row, ch)
  }

  predicate FinalizeDue(row: Row, now: int) {
    row.status == Closing && row.closingAt.Some? && row.closingAt.value + CHALLENGE_PERIOD_SECS <= now
  }

  function SweepFinalize(row: Row, ch: Chain, now: int, windowElapsed: bool): (Row, Chain) {
    if FinalizeDue(row, now) then
      var after := FinalizeClose(ch, windowElapsed);
      (row.(claimed := after.claimed, status := after.status), after)
    else (row, ch)
  }

  datatype Query = ForCheckpoint(status: Status) | ForFinalize(now: int)

  datatype Selected = Selected(id: nat, row: Row)

  predicate Selects(q: Query, row: Row) {
    match q
    case ForCheckpoint(status) => CheckpointDue(row, status)
    case ForFinalize(now) => FinalizeDue(row, now)
  }

  /** What a pass does to one channel. */
  function Serve(e: Env, q: Query, row: Row, ch: Chain, windowElapsed: bool): (Row, Chain) {
    match q
    case ForCheckpoint(status) => SweepCheckpoint(e, row, ch, status)
    case ForFinalize(now) => SweepFinalize(row, ch, now, windowElapsed)
  }

  lemma UnselectedIsUntouched(e: Env, q: Query, row: Row, ch: Chain, windowElapsed: bool)
    requires !Selects(q, row)
    ensures Serve(e, q, row, ch, windowElapsed) == (row, ch)
  {
  }

  /** The channels `done` went through the pass, the others are as they were. */
  predicate Served(
    envOf: nat -> Env, windowElapsed: nat -> bool, q: Query,
    rows0: map<nat, Row>, contract0: map<nat, Chain>, rows: map<nat, Row>, contract: map<nat, Chain>, done: set<nat>)
  {
    && rows.Keys == rows0.Keys <= contract0.Keys == contract.Keys
    && forall id | id in rows ::
         (rows[id], contract[id]) ==
         if id in done then Serve(envOf(id), q, rows0[id], contract0[id], windowElapsed(id))
         else (rows0[id], contract0[id])
  }

  lemma ServedRow(
      envOf: nat -> Env, windowElapsed: nat -> bool, q: Query,
      rows0: map<nat, Row>, contract0: map<nat, Chain>, rows: map<nat, Row>, contract: map<nat, Chain>, done: set<nat>)
    requires Served(envOf, windowElapsed, q, rows0, contract0, rows, contract, done)
    ensures rows.Keys == rows0.Keys <= contract.Keys
    ensures forall id | id in rows && id !in done :: rows[id] == rows0[id]
  {
  }

  /** Serving one more channel. */
  lemma ServedNext(
      envOf: nat -> Env, windowElapsed: nat -> bool, q: Query,
      rows0: map<nat, Row>, contract0: map<nat, Chain>, rows: map<nat, Row>, contract: map<nat, Chain>, done: set<nat>,
      id: nat)
    requires Served(envOf, windowElapsed, q, rows0, contract0, rows, contract, done) && id in rows && id !in done
    ensures var (row, ch) := Serve(envOf(id), q, rows[id], contract[id], windowElapsed(id));
            Served(envOf, windowElapsed, q, rows0, contract0, rows[id := row], contract[id := ch], done + {id})
  {
    hide Serve;
  }

  /** What was not selected needs no serving. */
  lemma ServedRest(
      envOf: nat -> Env, windowElapsed: nat -> bool, q: Query,
      rows0: map<nat, Row>, contract0: map<nat, Chain>, rows: map<nat, Row>, contract: map<nat, Chain>, done: set<nat>)
    requires Served(envOf, windowElapsed, q, rows0, contract0, rows, contract, done)
    requires forall id | id in rows && id !in done :: !Selects(q, rows0[id])
    ensures Served(envOf, windowElapsed, q, rows0, contract0, rows, contract, rows.Keys)
  {
    hide Serve, Selects;
    forall id | id in rows && id !in done
      ensures Serve(envOf(id), q, rows0[id], contract0[id], windowElapsed(id)) == (rows0[id], contract0[id])
    {
      UnselectedIsUntouched(envOf(id), q, rows0[id], contract0[id], windowElapsed(id));
    }
  }

  function Sweep(e: Env, row: Row, ch: Chain, now: int, windowElapsed: bool): (Row, Chain) {
    var (r1, c1) := SweepCheckpoint(e, row, ch, Open);
    var (r2, c2) := SweepFinalize(r1, c1, now, windowElapsed);
    SweepCheckpoint(e, r2, c2, Closing)
  }

  predicate Touched(e: Env, row: Row, ch: Chain, now: int, windowElapsed: bool) {
    var (r1, c1) := SweepCheckpoint(e, row, ch, Open);
    var (r2, c2) := SweepFinalize(r1, c1, now, windowElapsed);
    CheckpointDue(row, Open) || FinalizeDue(r1, now) || CheckpointDue(r2, Closing)
  }

  /** A row and contract state that some run, crashes included, can leave. */
  ghost predicate Reachable(e: Env, row: Row, ch: Chain) {
    exists actions :: Exec(e, Init(), actions).row == Some(row) && Exec(e, Init(), actions).chain == ch
  }

  lemma AttemptCovers(e: Env, s: State)
    requires Inv(e, s) && MonotonePayer(e) && s.row.Some? && s.row.value.pendingSignature.Some?
    requires s.chain.status in {Open, Closing}
    ensures s.row.value.pendingAmount <= Checkpoint(e, s.chain, PendingClaim(s.row.value)).claimed
  {
    var c := PendingClaim(s.row.value);
    assert s.accepted != [] && c in s.accepted && Storable(e, c);
    if !ContractAccepts(e, s.chain, c) {
      StaleMeansCovered(e, s, c);
    }
  }

  /**
   Self-healing: from any state a run can leave, one undisturbed sweep leaves the row in neither
   checkpoint query, and agreeing with the contract if the sweep touched it.
   */
  lemma SweepHeals(e: Env, row: Row, ch: Chain, now: int, windowElapsed: bool)
    requires Reachable(e, row, ch) && MonotonePayer(e)
    ensures var (r, c) := Sweep(e, row, ch, now, windowElapsed);
            && !CheckpointDue(r, Open) && !CheckpointDue(r, Closing)
            && (r.status in {Open, Closing} && r.pendingSignature.Some? ==> r.pendingAmount <= r.claimed)
            && (Touched(e, row, ch, now, windowElapsed) ==> r.claimed == c.claimed && r.status == c.status)
  {
    var actions :| Exec(e, Init(), actions).row == Some(row) && Exec(e, Init(), actions).chain == ch;
    var s := Exec(e, Init(), actions);
    RunKeepsInv(e, Init(), actions);
    if row.pendingSignature.Some? && ch.status in {Open, Closing} {
      AttemptCovers(e, s);
    }
    if row.pendingSignature.Some? {
      var (r1, c1) := SweepCheckpoint(e, row, ch, Open);
      var (r2, c2) := SweepFinalize(r1, c1, now, windowElapsed);
      if CheckpointDue(r2, Closing) && !CheckpointDue(row, Open) && c2.status == Closing {
        assert c2 == ch && PendingClaim(r2) == PendingClaim(row);
      }
    }
  }

  /** The challenge period of the row is over: a whole day since it was marked closing. */
  predicate DayOver(row: Row, now: int) {
    row.closingAt.Some? && row.closingAt.value + 86_400 <= now
  }

  /** The row shows an amount to settle. */
  predicate Owes(row: Row) {
    row.pendingAmount > row.claimed && row.pendingSignature.Some?
  }

  /**
   Open or closing, a channel is defended: unless this sweep finalizes it, the contract ends up with at
   least the row's best claim.
   */
  lemma SweepDefends(e: Env, row: Row, ch: Chain, now: int, windowElapsed: bool)
    requires Reachable(e, row, ch) && MonotonePayer(e)
    requires row.status in {Open, Closing} && ch.status in {Open, Closing}
    requires !(row.status == Closing && DayOver(row, now) && windowElapsed)
    ensures row.pendingAmount <= Sweep(e, row, ch, now, windowElapsed).1.claimed
  {
    var actions :| Exec(e, Init(), actions).row == Some(row) && Exec(e, Init(), actions).chain == ch;
    var s := Exec(e, Init(), actions);
    RunKeepsInv(e, Init(), actions);
    if row.pendingSignature.Some? {
      AttemptCovers(e, s);
    }
  }

  /** A sweep closes the channel exactly when the contract lets it and the row, read first, was closing and due. */
  lemma SweepFinalizesIff(e: Env, row: Row, ch: Chain, now: int, windowElapsed: bool)
    ensures var c := Sweep(e, row, ch, now, windowElapsed).1;
            c.status == Closed && ch.status != Closed
            <==> && ch.status == Closing && windowElapsed && DayOver(row, now)
                 && (row.status == Closing || (row.status == Open && Owes(row)))
  {
  }

  /** A sweep rewrites nothing of the row but the mirror and the status, and brings the contract no other amount. */
  lemma SweepTouchesOnly(e: Env, row: Row, ch: Chain, now: int, windowElapsed: bool)
    ensures var (r, c) := Sweep(e, row, ch, now, windowElapsed);
            && r == row.(claimed := r.claimed, status := r.status)
            && (c.claimed == ch.claimed || (c.claimed == row.pendingAmount && c.nonce == row.pendingNonce))
            && c.status in {ch.status, Closed}
            && (c.settled == ch.settled || c.settled == Some(c.claimed))
            && (row.status !in {Open, Closing} ==> r == row && c == ch)
  {
    hide Signed;
  }

  /**
   Finalizing comes before the watchtower in one sweep, so a sweep can pay out less than the row's
   best claim: exactly when the row enters as closing and due, the window is over, and the contract
   is still behind the claim.
   */
  lemma SettlesBelowPendingIff(e: Env, row: Row, ch: Chain, now: int, windowElapsed: bool)
    requires Reachable(e, row, ch) && MonotonePayer(e)
    ensures var (r, c) := Sweep(e, row, ch, now, windowElapsed);
            ch.settled.None? && c.settled.Some? && c.settled.value < row.pendingAmount
            <==> FinalizeDue(row, now) && windowElapsed && ch.status == Closing && ch.claimed < row.pendingAmount
  {
    var actions :| Exec(e, Init(), actions).row == Some(row) && Exec(e, Init(), actions).chain == ch;
    RunKeepsInv(e, Init(), actions);
    if row.pendingSignature.Some? && ch.status in {Open, Closing} {
      AttemptCovers(e, Exec(e, Init(), actions));
    }
  }

  /** A claim is accepted and stored on a fresh channel. */
  lemma ClaimStored(e: Env, c: Claim) returns (actions: seq<Action>)
    requires Storable(e, c)
    ensures var s := Exec(e, Init(), actions);
            s.row == Some(StorePending(OpenedRow(e), c)) && s.chain == Chain(0, 0, Open, None)
  {
    assert Exec(e, Init(), []) == Init();
    hide Exec, KeeperStep, ContractStep, Signed;
    actions := Do(e, Init(), [], OnRow(InsertRow));
    assert Exec(e, Init(), actions) == Init().(row := Some(OpenedRow(e)));
    actions := Do(e, Init(), actions, OnCall(0, ReadRow(c)));
    assert Exec(e, Init(), actions) == Init().(row := Some(OpenedRow(e)), calls := map[0 := Checked(c)]);
    actions := Do(e, Init(), actions, OnCall(0, VerifySignature));
    assert Exec(e, Init(), actions) == Init().(row := Some(OpenedRow(e)), calls := map[0 := Verified(c)]);
    actions := Do(e, Init(), actions, OnCall(0, SwapRow));
  }

  /** And it does happen, for any claim the row can hold: closed at once, the channel settles at zero when due. */
  lemma SweepSettlesBelow(e: Env, c: Claim) returns (row: Row, ch: Chain)
    requires Storable(e, c)
    ensures Reachable(e, row, ch) && row.pendingAmount == c.amount > 0
    ensures Sweep(e, row, ch, CHALLENGE_PERIOD_SECS, true).1.settled == Some(0)
  {
    var actions := ClaimStored(e, c);
    var s := Exec(e, Init(), actions);
    assert actions + [] == actions;
    hide Exec, CallStep, KeeperStep;
    actions := Do(e, Init(), actions, OnContract(MoveStatus(Closing)));
    assert Exec(e, Init(), actions) == s.(chain := Chain(0, 0, Closing, None));
    actions := Do(e, Init(), actions, OnRow(WriteClosing(0)));
    ch := Chain(0, 0, Closing, None);
    row := StorePending(OpenedRow(e), c).(status := Closing, closingAt := Some(0));
    assert Exec(e, Init(), actions).row == Some(row) && Exec(e, Init(), actions).chain == ch;
  }

  /** The undisturbed attempt is one of the machine's runs. */
  lemma CheckpointIsARun(e: Env, s: State, k: nat, status: Status)
    requires k in s.keepers && s.keepers[k].Between? && s.row.Some? && CheckpointDue(s.row.value, status)
    ensures var t := Exec(e, s, [OnKeeper(k, CaptureRow(status)), OnKeeper(k, Attempt(true)),
                                 OnKeeper(k, ReadChain(true)), OnKeeper(k, WriteResync)]);
            t.row.Some? && (t.row.value, t.chain) == SweepCheckpoint(e, s.row.value, s.chain, status)
  {
    var a, b := OnKeeper(k, CaptureRow(status)), OnKeeper(k, Attempt(true));
    var c, d := OnKeeper(k, ReadChain(true)), OnKeeper(k, WriteResync);
    assert [a, b, c, d][..3] == [a, b, c] && [a, b, c][..2] == [a, b] && [a, b][..1] == [a] && [a][..0] == [];
    assert Exec(e, s, [a]) == Step(e, s, a);
    assert Exec(e, s, [a, b]) == Step(e, Exec(e, s, [a]), b);
    assert Exec(e, s, [a, b, c]) == Step(e, Exec(e, s, [a, b]), c);
    assert Exec(e, s, [a, b, c, d]) == Step(e, Exec(e, s, [a, b, c]), d);
  }

  /** The keeper `k` has the lock and is between two rows, and row and contract are these. */
  predicate KeeperAt(s: State, k: nat, row: Row, ch: Chain) {
    s.lock == Some(k) && k in s.keepers && s.keepers[k].Between? && s.row == Some(row) && s.chain == ch
  }

  lemma ResyncSteps(e: Env, s: State, before: seq<Action>, k: nat) returns (actions: seq<Action>)
    requires var t := Exec(e, s, before);
             t.lock == Some(k) && k in t.keepers && t.keepers[k].Attempted? && t.row.Some?
    ensures var t := Exec(e, s, before);
            KeeperAt(Exec(e, s, actions), k,
                     t.row.value.(claimed := t.chain.claimed, status := t.chain.status), t.chain)
  {
    hide Exec, CallStep;
    actions := Do(e, s, before, OnKeeper(k, ReadChain(true)));
    actions := Do(e, s, actions, OnKeeper(k, WriteResync));
  }

  lemma CheckpointSteps(e: Env, s: State, before: seq<Action>, k: nat, row: Row, ch: Chain, status: Status)
    returns (actions: seq<Action>)
    requires KeeperAt(Exec(e, s, before), k, row, ch)
    ensures var (r, c) := SweepCheckpoint(e, row, ch, status); KeeperAt(Exec(e, s, actions), k, r, c)
  {
    hide Exec, CallStep;
    actions := before;
    if CheckpointDue(row, status) {
      actions := Do(e, s, actions, OnKeeper(k, CaptureRow(status)));
      actions := Do(e, s, actions, OnKeeper(k, Attempt(true)));
      actions := ResyncSteps(e, s, actions, k);
    }
  }

  lemma FinalizeSteps(
      e: Env, s: State, before: seq<Action>, k: nat, row: Row, ch: Chain, now: int, windowElapsed: bool)
    returns (actions: seq<Action>)
    requires KeeperAt(Exec(e, s, before), k, row, ch)
    ensures var (r, c) := SweepFinalize(row, ch, now, windowElapsed); KeeperAt(Exec(e, s, actions), k, r, c)
  {
    hide Exec, CallStep;
    actions := before;
    if FinalizeDue(row, now) {
      actions := Do(e, s, actions, OnKeeper(k, AttemptFinalize(windowElapsed)));
      actions := ResyncSteps(e, s, actions, k);
    }
  }

  /** The undisturbed sweep of one channel, from the lock to its release, is one of the machine's runs. */
  lemma SweepIsARun(e: Env, s: State, k: nat, now: int, windowElapsed: bool) returns (actions: seq<Action>)
    requires s.lock == None && k !in s.keepers && s.row.Some?
    ensures var (row, ch) := Sweep(e, s.row.value, s.chain, now, windowElapsed);
            var t := Exec(e, s, actions);
            t.row == Some(row) && t.chain == ch && t.lock == None && k !in t.keepers
  {
    assert Exec(e, s, []) == s;
    hide Exec, SweepCheckpoint, SweepFinalize, CallStep;
    actions := Do(e, s, [], OnKeeper(k, TakeLock));
    var (r1, c1) := SweepCheckpoint(e, s.row.value, s.chain, Open);
    var (r2, c2) := SweepFinalize(r1, c1, now, windowElapsed);
    actions := CheckpointSteps(e, s, actions, k, s.row.value, s.chain, Open);
    actions := FinalizeSteps(e, s, actions, k, r1, c1, now, windowElapsed);
    actions := CheckpointSteps(e, s, actions, k, r2, c2, Closing);
    actions := Do(e, s, actions, OnKeeper(k, ReleaseLock));
  }

  // ---- closing ----

  /** What can be wrong with the submitted transaction itself, in the order it is looked at. */
  datatype Defect = Malformed | WrongOperationCount | WrongOperationType | UnsafeSource | WrongContract | WrongFunction

  /** A parsed request: its first defect, if any, else the call's two arguments. */
  datatype CloseRequest = CloseRequest(defect: Option<Defect>, caller: string, id: nat)

  datatype CloseRefusal =
    | BadTransaction(defect: Defect) | NoSuchChannel | CallerNotAParty | NotOpen | NotConfirmed(stage: Stage)

  datatype Stage = Simulation | Signing | Submission | Confirmation

  /** What becomes of the transaction once it is let through. */
  datatype Network = Confirms | Fails(stage: Stage)

  function CloseOutcome(
      r: CloseRequest, row: Option<Row>, parties: (string, string), net: Network): Option<CloseRefusal>
  {
    if r.defect.Some? then Some(BadTransaction(r.defect.value))
    else match row
      case None => Some(NoSuchChannel)
      case Some(row) =>
        if r.caller != parties.0 && r.caller != parties.1 then Some(CallerNotAParty)
        else if row.status != Open then Some(NotOpen)
        else if net.Fails? then Some(NotConfirmed(net.stage))
        else None
  }

  /** A channel turns closing exactly when a party closes an open one with a sound, confirmed transaction. */
  lemma ClosesIff(r: CloseRequest, row: Option<Row>, parties: (string, string), net: Network)
    ensures CloseOutcome(r, row, parties, net).None? <==>
            && r.defect.None? && row.Some? && row.value.status == Open
            && (r.caller == parties.0 || r.caller == parties.1) && net.Confirms?
    ensures r.defect.None? && row.None? ==> CloseOutcome(r, row, parties, net) == Some(NoSuchChannel)
    ensures CloseOutcome(r, row, parties, net) == Some(NotOpen) <==>
            && r.defect.None? && row.Some? && row.value.status != Open
            && (r.caller == parties.0 || r.caller == parties.1)
  {
  }

  // ---- the services ----

  /** The x402_channels table and the contract behind it. */
  class ChannelService {
    var rows: map<nat, Row>
    var contract: map<nat, Chain>
    const envOf: nat -> Env
    const windowElapsed: nat -> bool
    const parties: nat -> (string, string)   // the row's payer and payee addresses

    constructor (envOf: nat -> Env, windowElapsed: nat -> bool, parties: nat -> (string, string))
      ensures rows == map[] && contract == map[]
      ensures this.envOf == envOf && this.windowElapsed == windowElapsed && this.parties == parties
    {
      this.rows, this.contract := map[], map[];
      this.envOf, this.windowElapsed, this.parties := envOf, windowElapsed, parties;
    }

    /** The fast path: with nothing in between, its two round trips are one atomic claim. */
    method Claim(id: nat, c: Claim) returns (response: Response)
      requires envOf(id).channelId == id
      modifies this`rows
      ensures id > MAX_BIGINT ==> response == Failed && rows == old(rows)
      ensures id <= MAX_BIGINT && id !in old(rows) ==> response == Rejected(ChannelNotFound) && rows == old(rows)
      ensures id <= MAX_BIGINT && id in old(rows) ==>
                var (row, answer) := Lin.AtomicClaim(envOf(id), old(rows)[id], c);
                response == answer && rows == old(rows)[id := row]
    {
      if id > MAX_BIGINT {
        return Failed;
      }
      if id !in rows {
        return Rejected(ChannelNotFound);
      }
      var row := rows[id];
      if row.status != Open {
        return Rejected(ChannelNotOpen);
      }
      if c.nonce <= row.pendingNonce || c.amount <= row.pendingAmount {
        return Rejected(StaleClaim);
      }
      if c.amount > row.deposited {
        return Rejected(ExceedsDeposit);
      }
      var payload := BuildClaimPayload(id, c.nonce, c.amount);
      if !envOf(id).verify(payload, c.sig) {
        return Rejected(InvalidSignature);
      }
      var rowCount := UpdatePending(id, c);
      match rowCount
      case None => response := Failed;
      case Some(n) => response := if n == 0 then Rejected(StaleClaim) else Accepted;
    }

    /** The guarded UPDATE and its row count, or None for a nonce outside the column's range. */
    method UpdatePending(id: nat, c: Claim) returns (rowCount: Option<nat>)
      modifies this`rows
      ensures rowCount.None? <==> c.nonce > MAX_BIGINT
      ensures rowCount.Some? ==>
                rowCount.value == if id in old(rows) && old(rows)[id].pendingNonce < c.nonce then 1 else 0
      ensures rows == if rowCount == Some(1) then old(rows)[id := StorePending(old(rows)[id], c)] else old(rows)
    {
      if c.nonce > MAX_BIGINT {
        return None;
      }
      if id in rows && rows[id].pendingNonce < c.nonce {
        rows := rows[id := StorePending(rows[id], c)];
        return Some(1);
      }
      return Some(0);
    }

    /** openChannel's row write; an existing row wins. */
    method InsertChannel(id: nat)
      modifies this`rows
      ensures rows == if id in old(rows) then old(rows) else old(rows)[id := OpenedRow(envOf(id))]
    {
      if id !in rows {
        rows := rows[id := OpenedRow(envOf(id))];
      }
    }

    /** closeChannel: every refusal leaves the row, which turns closing only once the network confirms. */
    method CloseChannel(r: CloseRequest, net: Network, now: int) returns (refusal: Option<CloseRefusal>)
      modifies this`rows
      ensures refusal == CloseOutcome(r, if r.id in old(rows) then Some(old(rows)[r.id]) else None, parties(r.id), net)
      ensures rows == if refusal.None? && r.id in old(rows)
                      then old(rows)[r.id := old(rows)[r.id].(status := Closing, closingAt := Some(now))] else old(rows)
      ensures refusal.None? ==> r.id in old(rows)
    {
      if r.defect.Some? {
        return Some(BadTransaction(r.defect.value));
      }
      if r.id !in rows {
        return Some(NoSuchChannel);
      }
      if r.caller != parties(r.id).0 && r.caller != parties(r.id).1 {
        return Some(CallerNotAParty);
      }
      if rows[r.id].status != Open {
        return Some(NotOpen);
      }
      if net.Fails? {
        return Some(NotConfirmed(net.stage));
      }
      rows := rows[r.id := rows[r.id].(status := Closing, closingAt := Some(now))];
      return None;
    }

    // ---- the keeper ----

    ghost predicate Valid()
      reads this
    {
      rows.Keys <= contract.Keys
    }

    /** The query's result: the selected rows as they are now, each once. */
    method Select(q: Query) returns (selected: seq<Selected>)
      ensures forall x | x in selected :: x.id in rows && x.row == rows[x.id] && Selects(q, x.row)
      ensures forall id | id in rows && Selects(q, rows[id]) :: Selected(id, rows[id]) in selected
      ensures forall i, j | 0 <= i < j < |selected| :: selected[i].id != selected[j].id
      ensures forall id | id in rows :: Selected(id, rows[id]) in selected <==>
                match q
                case ForCheckpoint(status) => rows[id].status == status && Owes(rows[id])
                case ForFinalize(now) => rows[id].status == Closing && DayOver(rows[id], now)
    {
      selected := [];
      var left := rows.Keys;
      while left != {}
        invariant left <= rows.Keys
        invariant forall x | x in selected :: x.id in rows.Keys - left && x.row == rows[x.id] && Selects(q, x.row)
        invariant forall id | id in rows.Keys - left && Selects(q, rows[id]) :: Selected(id, rows[id]) in selected
        invariant forall i, j | 0 <= i < j < |selected| :: selected[i].id != selected[j].id
      {
        var id :| id in left;
        left := left - {id};
        if Selects(q, rows[id]) {
          selected := selected + [Selected(id, rows[id])];
        }
      }
    }

    /** A failed read leaves the row as it is; an unknown status leaves the status. */
    method ResyncFromChain(id: nat, readable: bool, known: bool)
      requires Valid() && id in rows
      modifies this`rows
      ensures var info, row := contract[id], old(rows)[id];
              rows == if !readable then old(rows)
                      else old(rows)[id := row.(claimed := info.claimed,
                                                status := if known then info.status else row.status)]
    {
      if !readable {
        return;
      }
      var info := contract[id];
      var status := if known then info.status else rows[id].status;
      rows := rows[id := rows[id].(claimed := info.claimed, status := status)];
    }

    method CheckpointRow(id: nat, captured: Claim)
      requires Valid() && id in rows
      modifies this`rows, this`contract
      ensures var (row, ch) := CheckpointAndResync(envOf(id), old(rows)[id], old(contract)[id], captured);
              rows == old(rows)[id := row] && contract == old(contract)[id := ch]
    {
      contract := contract[id := Checkpoint(envOf(id), contract[id], captured)];
      ResyncFromChain(id, true, true);
    }

    /** The loop body of a pass on the row it selected. */
    method ServeRow(q: Query, x: Selected)
      requires Valid() && x.id in rows && rows[x.id] == x.row && Selects(q, x.row)
      modifies this`rows, this`contract
      ensures var (row, ch) := Serve(envOf(x.id), q, old(rows)[x.id], old(contract)[x.id], windowElapsed(x.id));
              rows == old(rows)[x.id := row] && contract == old(contract)[x.id := ch]
    {
      match q
      case ForCheckpoint(_) => CheckpointRow(x.id, PendingClaim(x.row));
      case ForFinalize(_) =>
        contract := contract[x.id := FinalizeClose(contract[x.id], windowElapsed(x.id))];
        ResyncFromChain(x.id, true, true);
    }

    /** One of the sweep's three loops: select, then serve each selected row in turn. */
    method Pass(q: Query)
      requires Valid()
      modifies this`rows, this`contract
      ensures Served(envOf, windowElapsed, q, old(rows), old(contract), rows, contract, rows.Keys)
    {
      var selected := Select(q);
      ghost var rows0, contract0, done := rows, contract, {};
      assert Served(envOf, windowElapsed, q, rows0, contract0, rows, contract, done);
      hide Serve, Selects, Served;
      for i := 0 to |selected|
        invariant Served(envOf, windowElapsed, q, rows0, contract0, rows, contract, done)
        invariant forall j | 0 <= j < |selected| :: selected[j].id in done <==> j < i
      {
        ghost var x, was, on := selected[i], rows, contract;
        ServedRow(envOf, windowElapsed, q, rows0, contract0, rows, contract, done);
        ServeRow(q, selected[i]);
        ServedNext(envOf, windowElapsed, q, rows0, contract0, was, on, done, x.id);
        done := done + {x.id};
      }
      ServedRow(envOf, windowElapsed, q, rows0, contract0, rows, contract, done);
      forall id | id in rows && id !in done ensures !Selects(q, rows0[id]) {
        assert Selected(id, rows0[id]) !in selected;
      }
      ServedRest(envOf, windowElapsed, q, rows0, contract0, rows, contract, done);
    }

    /** The whole sweep of the lock holder: every channel goes through the function of one channel, and is healed. */
    method SweepAll(now: int)
      requires Valid()
      modifies this`rows, this`contract
      ensures Valid() && rows.Keys == old(rows).Keys && contract.Keys == old(contract).Keys
      ensures forall id | id in rows ::
                (rows[id], contract[id]) == Sweep(envOf(id), old(rows)[id], old(contract)[id], now, windowElapsed(id))
      ensures forall id | id in rows && Reachable(envOf(id), old(rows)[id], old(contract)[id])
                          && MonotonePayer(envOf(id)) ::
                !CheckpointDue(rows[id], Open) && !CheckpointDue(rows[id], Closing)
      ensures forall id | id in rows && Reachable(envOf(id), old(rows)[id], old(contract)[id])
                          && MonotonePayer(envOf(id)) && old(rows)[id].status in {Open, Closing}
                          && old(contract)[id].status in {Open, Closing}
                          && !(old(rows)[id].status == Closing && DayOver(old(rows)[id], now) && windowElapsed(id)) ::
                old(rows)[id].pendingAmount <= contract[id].claimed
    {
      Pass(ForCheckpoint(Open));
      Pass(ForFinalize(now));
      Pass(ForCheckpoint(Closing));
      forall id | id in rows && Reachable(envOf(id), old(rows)[id], old(contract)[id]) && MonotonePayer(envOf(id))
        ensures !CheckpointDue(rows[id], Open) && !CheckpointDue(rows[id], Closing)
      {
        SweepHeals(envOf(id), old(rows)[id], old(contract)[id], now, windowElapsed(id));
      }
      forall id | id in rows && Reachable(envOf(id), old(rows)[id], old(contract)[id])
                  && MonotonePayer(envOf(id)) && old(rows)[id].status in {Open, Closing}
                  && old(contract)[id].status in {Open, Closing}
                  && !(old(rows)[id].status == Closing && DayOver(old(rows)[id], now) && windowElapsed(id))
        ensures old(rows)[id].pendingAmount <= contract[id].claimed
      {
        SweepDefends(envOf(id), old(rows)[id], old(contract)[id], now, windowElapsed(id));
      }
    }
  }
}
