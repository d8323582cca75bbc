/**
 One payment channel: its x402_channels row, its on-chain contract, and the
 steps every process can take on the two.  Each step is one database statement,
 one contract call or one local check, so a run is an arbitrary interleaving of
 claim calls, keepers, closes, outside parties and crashes.
 */
module Channel {
  import opened Common
  import opened ClaimEncoding

  const MAX_BIGINT: nat := 0x7FFF_FFFF_FFFF_FFFF

  type Signature = seq<Byte>

  datatype Claim = Claim(nonce: nat, amount: nat, sig: Signature)

  datatype Status = Open | Closing | Closed | Held

  /** What never changes: the channel, its deposit, the signature check, and whether keepers take the advisory lock. */
  datatype Env = Env(channelId: nat, deposit: nat, verify: (seq<Byte>, Signature) -> bool, advisory: bool)

  datatype Row = Row(
    deposited: nat, claimed: nat,
    pendingAmount: nat, pendingNonce: nat, pendingSignature: Option<Signature>,
    status: Status, closingAt: Option<int>)

  /** The contract's state; `settled` is what finalize_close paid out. */
  datatype Chain = Chain(claimed: nat, nonce: nat, status: Status, settled: Option<nat>)

  predicate Signed(e: Env, c: Claim) {
    e.verify(ClaimPayload(e.channelId, c.nonce, c.amount), c.sig)
  }

  predicate ValidEnv(e: Env) {
    e.channelId <= MAX_BIGINT && e.deposit < TWO_127
  }

  // ---- assumed contract rules ----

  predicate ContractAccepts(e: Env, ch: Chain, c: Claim) {
    && ch.status in {Open, Closing}
    && ch.nonce < c.nonce < TWO_64 && ch.claimed < c.amount <= e.deposit
    && Signed(e, c)
  }

  function Checkpoint(e: Env, ch: Chain, c: Claim): Chain {
    if ContractAccepts(e, ch, c) then ch.(claimed := c.amount, nonce := c.nonce) else ch
  }

  predicate StaleOnChain(ch: Chain, c: Claim) {
    ch.status in {Open, Closing} && (c.nonce <= ch.nonce || c.amount <= ch.claimed)
  }

  function FinalizeClose(ch: Chain, windowElapsed: bool): Chain {
    if ch.status == Closing && windowElapsed then ch.(status := Closed, settled := Some(ch.claimed)) else ch
  }

  /** Any move of the contract's status besides finalizing; Open is never entered again. */
  predicate StatusMayMove(from: Status, to: Status) {
    to in {Closing, Held} && from != Closed
  }

  // ---- the row ----

  function OpenedRow(e: Env): Row {
    Row(e.deposit, 0, 0, 0, None, Open, None)
  }

  datatype Reason = ChannelNotFound | ChannelNotOpen | StaleClaim | ExceedsDeposit | InvalidSignature

  /** `Failed` is a database error: the nonce does not fit the BIGINT column. */
  datatype Response = Accepted | Rejected(reason: Reason) | Failed

  /** The checks made in memory on the row as it was read. */
  function ReadChecks(row: Option<Row>, c: Claim): Option<Reason> {
    match row
    case None => Some(ChannelNotFound)
    case Some(r) =>
      if r.status != Open then Some(ChannelNotOpen)
      else if c.nonce <= r.pendingNonce || c.amount <= r.pendingAmount then Some(StaleClaim)
      else if c.amount > r.deposited then Some(ExceedsDeposit)
      else None
  }

  function StorePending(r: Row, c: Claim): Row {
    r.(pendingAmount := c.amount, pendingNonce := c.nonce, pendingSignature := Some(c.sig))
  }

  /** The guarded UPDATE: its row afterwards and what the caller is told. */
  function CompareAndSwap(row: Option<Row>, c: Claim): (Option<Row>, Response) {
    if c.nonce > MAX_BIGINT then (row, Failed)
    else if row.Some? && row.value.pendingNonce < c.nonce then (Some(StorePending(row.value, c)), Accepted)
    else (row, Rejected(StaleClaim))
  }

  function ResyncWrite(row: Option<Row>, claimed: nat, mapped: Option<Status>): Option<Row> {
    match row
    case None => None
    case Some(r) => Some(r.(claimed := claimed, status := if mapped.Some? then mapped.value else r.status))
  }

  /** The rows both checkpoint queries select: `status` tells the open sweep from the watchtower. */
  predicate CheckpointDue(r: Row, status: Status) {
    r.status == status && r.pendingAmount > r.claimed && r.pendingSignature.Some?
  }

  function PendingClaim(r: Row): Claim
    requires r.pendingSignature.Some?
  {
    Claim(r.pendingNonce, r.pendingAmount, r.pendingSignature.value)
  }

  // ---- the machine ----

  datatype Call =
    | Checked(claim: Claim) | Verified(claim: Claim)
    | Replied(claim: Claim, response: Response) | Lost(claim: Claim)

  datatype KeeperPc =
    | Between
    | Captured(claim: Claim)
    | Attempted
    | Info(claimed: nat, mapped: Option<Status>)

  /** `accepted` lists the claims whose compare-and-swap took effect; `checkpointed` the ones the contract took. */
  datatype State = State(
    row: Option<Row>, chain: Chain,
    calls: map<nat, Call>, lock: Option<nat>, keepers: map<nat, KeeperPc>,
    accepted: seq<Claim>, checkpointed: seq<Claim>)

  datatype CallAction = ReadRow(claim: Claim) | VerifySignature | SwapRow | LoseCall

  datatype KeeperAction =
    | TakeLock | ReleaseLock
    | CaptureRow(status: Status) | Attempt(reached: bool) | AttemptFinalize(windowElapsed: bool)
    | ReadChain(decoded: bool) | WriteResync | SkipResync

  datatype ContractAction =
    OutsideCheckpoint(claim: Claim) | MoveStatus(to: Status) | OutsideFinalize(windowElapsed: bool)

  datatype RowAction = InsertRow | WriteClosing(now: int)

  datatype Action =
    | OnCall(id: nat, call: CallAction)
    | OnKeeper(k: nat, keeper: KeeperAction)
    | OnContract(contract: ContractAction)
    | OnRow(write: RowAction)

  function Keep(s: State, k: nat, pc: KeeperPc): State {
    s.(keepers := s.keepers[k := pc])
  }

  function OnChain(e: Env, s: State, c: Claim): State {
    s.(chain := Checkpoint(e, s.chain, c),
       checkpointed := if ContractAccepts(e, s.chain, c) then s.checkpointed + [c] else s.checkpointed)
  }

  /** One step of the claim call `id`: read and check, verify, compare-and-swap, or lose the caller. */
  function CallStep(e: Env, s: State, id: nat, a: CallAction): State {
    match a
    case ReadRow(c) =>
      if id in s.calls then s
      else
        var reason := ReadChecks(s.row, c);
        s.(calls := s.calls[id := if reason.Some? then Replied(c, Rejected(reason.value)) else Checked(c)])
    case VerifySignature =>
      if id in s.calls && s.calls[id].Checked? then
        var c := s.calls[id].claim;
        s.(calls := s.calls[id := if Signed(e, c) then Verified(c) else Replied(c, Rejected(InvalidSignature))])
      else s
    case SwapRow =>
      if id in s.calls && s.calls[id].Verified? then
        var c := s.calls[id].claim;
        var (row, response) := CompareAndSwap(s.row, c);
        s.(row := row, calls := s.calls[id := Replied(c, response)],
           accepted := if response.Accepted? then s.accepted + [c] else s.accepted)
      else s
    case LoseCall =>
      if id in s.calls && !s.calls[id].Replied? then s.(calls := s.calls[id := Lost(s.calls[id].claim)]) else s
  }

  /** One step of the keeper `k`, whose sweep starts with the advisory lock, where there is one. */
  function KeeperStep(e: Env, s: State, k: nat, a: KeeperAction): State {
    if a.TakeLock? then
      if k !in s.keepers && (s.lock.None? || !e.advisory) then Keep(s.(lock := Some(k)), k, Between) else s
    else if k !in s.keepers then s
    else
      var pc := s.keepers[k];
      match a
      case ReleaseLock => s.(lock := if s.lock == Some(k) then None else s.lock, keepers := s.keepers - {k})
      case CaptureRow(status) =>
        if pc.Between? && s.row.Some? && CheckpointDue(s.row.value, status)
        then Keep(s, k, Captured(PendingClaim(s.row.value))) else s
      case Attempt(reached) =>
        if pc.Captured? then Keep(if reached then OnChain(e, s, pc.claim) else s, k, Attempted) else s
      case AttemptFinalize(windowElapsed) =>
        if pc.Between? then Keep(s.(chain := FinalizeClose(s.chain, windowElapsed)), k, Attempted) else s
      case ReadChain(decoded) =>
        if pc.Attempted?
        then Keep(s, k, Info(s.chain.claimed, if decoded then Some(s.chain.status) else None)) else s
      case WriteResync =>
        if pc.Info? then Keep(s.(row := ResyncWrite(s.row, pc.claimed, pc.mapped)), k, Between) else s
      case SkipResync => Keep(s, k, Between)
  }

  /** What anybody may do to the contract directly. */
  function ContractStep(e: Env, s: State, a: ContractAction): State {
    match a
    case OutsideCheckpoint(c) => OnChain(e, s, c)
    case MoveStatus(to) => if StatusMayMove(s.chain.status, to) then s.(chain := s.chain.(status := to)) else s
    case OutsideFinalize(windowElapsed) => s.(chain := FinalizeClose(s.chain, windowElapsed))
  }

  /** The row writes of openChannel and closeChannel; the latter follows a confirmed initiate_close. */
  function RowStep(e: Env, s: State, a: RowAction): State {
    match a
    case InsertRow => if s.row.None? then s.(row := Some(OpenedRow(e))) else s
    case WriteClosing(now) =>
      if s.row.Some? && s.chain.status != Open
      then s.(row := Some(s.row.value.(status := Closing, closingAt := Some(now)))) else s
  }

  /**
   One step; a step that is not enabled changes nothing.  A crash of a process is
   LoseCall for each call it served and ReleaseLock for its keeper; a transaction
   that lands after its submitter gave up is an outside one.
   */
  function Step(e: Env, s: State, a: Action): State {
    match a
    case OnCall(id, call) => CallStep(e, s, id, call)
    case OnKeeper(k, keeper) => KeeperStep(e, s, k, keeper)
    case OnContract(contract) => ContractStep(e, s, contract)
    case OnRow(write) => RowStep(e, s, write)
  }

  function Exec(e: Env, s: State, actions: seq<Action>): State {
    if actions == [] then s else Step(e, Exec(e, s, actions[..|actions| - 1]), actions[|actions| - 1])
  }

  function Init(): State {
    State(None, Chain(0, 0, Open, None), map[], None, map[], [], [])
  }

  lemma {:induction false} ExecAppend(e: Env, s: State, first: seq<Action>, second: seq<Action>)
    ensures Exec(e, s, first + second) == Exec(e, Exec(e, s, first), second)
  {
    hide Step;
    if second == [] {
      assert first + second == first;
    } else {
      var n, all := |second| - 1, first + second;
      assert all[..|all| - 1] == first + second[..n] && all[|all| - 1] == second[n];
      ExecAppend(e, s, first, second[..n]);
    }
  }

  lemma Do(e: Env, s: State, actions: seq<Action>, a: Action) returns (more: seq<Action>)
    ensures more == actions + [a] && Exec(e, s, more) == Step(e, Exec(e, s, actions), a)
  {
    more := actions + [a];
    assert more[..|more| - 1] == actions;
  }
}
