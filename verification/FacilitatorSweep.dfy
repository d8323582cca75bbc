/**
 The facilitator's spend guard and the sweep it protects.  Any number of sweeps start, each in
 separate steps: advisory lock, balance, the guard's two reads, the decision, the log insert or the
 two halt writes, submission, poll, unlock.  A step may throw, a process may die, midnight may pass,
 an admin may resume and a submitted transfer may land late, all at any point.
 Amounts are in stroops.
 */
module FacilitatorSweep {
  import opened Common

  /** A row of facilitator_spend_log: created_at counts at the grain of calendar days. */
  datatype Entry = Entry(amount: int, day: nat)

  datatype Breach = Breach(attempted: int, spent: int)

  /** The guard's stored state: the log and the two halt keys. */
  datatype Guard = Guard(log: seq<Entry>, haltedAt: Option<nat>, haltReason: Option<Breach>)

  datatype TransferStatus = Pending | Landed | Failed

  datatype Transfer = Transfer(amount: int, status: TransferStatus)

  /** Where one sweep stands. */
  datatype Sweep =
    | Started
    | Locked
    | Guarding(amount: int, haltRead: Option<bool>, spentRead: Option<int>)
    | Cleared(amount: int, spent: int)
    | Breached(amount: int, spent: int)
    | Halting(amount: int, spent: int)
    | Logged(amount: int)
    | Polling(transfer: nat)
    | Finishing
    | Done

  /** What `Number` makes of the configured cap.  No total is over NaN or +Infinity, every total is over -Infinity. */
  datatype Cap = Finite(stroops: int) | PlusInfinity | MinusInfinity | NotANumber

  datatype Config = Config(cap: Cap, min: int, advisory: bool)

  datatype State = State(
    guard: Guard, today: nat, lock: Option<nat>, sweeps: seq<Sweep>, balance: int, transfers: seq<Transfer>)

  datatype Move =
    | TryLock | ReadBalance | ReadHalt | ReadSpend | Decide
    | StoreHalt | StoreReason | Insert | Submit | EndPoll | Unlock
    | Throw   // this step raises: the finally block still unlocks
    | Crash   // the process dies: its session, and so its lock, goes with it

  datatype Action =
    | Start
    | By(i: nat, move: Move)
    | Tick                 // midnight
    | Resume               // the admin deletes both halt keys
    | Settle(k: nat)       // a pending transfer reaches the ledger
    | Expire(k: nat)       // or its time bounds run out
    | Credit(amount: nat)
    | Debit(amount: nat)

  // ---- the guard ----

  function Total(log: seq<Entry>): int {
    if log == [] then 0 else Total(log[..|log| - 1]) + log[|log| - 1].amount
  }

  /** SUM(amount_usdc) over created_at >= the start of `day`. */
  function SpentSince(log: seq<Entry>, day: nat): int {
    if log == [] then 0
    else SpentSince(log[..|log| - 1], day) + if log[|log| - 1].day >= day then log[|log| - 1].amount else 0
  }

  /** What one calendar day has logged. */
  function SpentOn(log: seq<Entry>, day: nat): int {
    if log == [] then 0
    else SpentOn(log[..|log| - 1], day) + if log[|log| - 1].day == day then log[|log| - 1].amount else 0
  }

  predicate OverCap(cap: Cap, total: int) {
    match cap
    case Finite(stroops) => total > stroops
    case MinusInfinity => true
    case _ => false
  }

  /** Every total above `ceiling` is over the cap. */
  predicate Within(cap: Cap, ceiling: int) {
    cap.MinusInfinity? || (cap.Finite? && cap.stroops <= ceiling)
  }

  function Record(g: Guard, amount: int, day: nat): Guard {
    g.(log := g.log + [Entry(amount, day)])
  }

  function Resumed(g: Guard): Guard {
    g.(haltedAt := None, haltReason := None)
  }

  // ---- the machine ----

  function Init(guard: Guard, today: nat, balance: int): State {
    State(guard, today, None, [], balance, [])
  }

  function At(s: State, i: nat, p: Sweep): State
    requires i < |s.sweeps|
  {
    s.(sweeps := s.sweeps[i := p])
  }

  /** pg_try_advisory_lock; a configuration without it shows what the lock is for. */
  function LockStep(c: Config, s: State, i: nat): State
    requires i < |s.sweeps|
  {
    if !c.advisory then At(s, i, Locked)
    else if s.lock.Some? then At(s, i, Done)
    else At(s, i, Locked).(lock := Some(i))
  }

  function Release(s: State, i: nat): State
    requires i < |s.sweeps|
  {
    At(s, i, Done).(lock := if s.lock == Some(i) then None else s.lock)
  }

  function GuardStep(c: Config, s: State, i: nat, move: Move): State
    requires i < |s.sweeps|
  {
    var p := s.sweeps[i];
    match move
    case ReadHalt =>
      if p.Guarding? && p.haltRead == None then At(s, i, p.(haltRead := Some(s.guard.haltedAt.Some?))) else s
    case ReadSpend =>
      if p.Guarding? && p.spentRead == None
      then At(s, i, p.(spentRead := Some(SpentSince(s.guard.log, s.today)))) else s
    case Decide =>
      if p.Guarding? && p.haltRead.Some? && p.spentRead.Some? then
        At(s, i,
           if p.haltRead.value then Finishing
           else if OverCap(c.cap, p.spentRead.value + p.amount) then Breached(p.amount, p.spentRead.value)
           else Cleared(p.amount, p.spentRead.value))
      else s
    case StoreHalt =>
      if p.Breached? then At(s, i, Halting(p.amount, p.spent)).(guard := s.guard.(haltedAt := Some(s.today))) else s
    case StoreReason =>
      if p.Halting? then At(s, i, Finishing).(guard := s.guard.(haltReason := Some(Breach(p.amount, p.spent)))) else s
    case Insert => if p.Cleared? then At(s, i, Logged(p.amount)).(guard := Record(s.guard, p.amount, s.today)) else s
    case _ => s
  }

  function SweepStep(c: Config, s: State, i: nat, move: Move): State
    requires i < |s.sweeps|
  {
    var p := s.sweeps[i];
    match move
    case TryLock => if p.Started? then LockStep(c, s, i) else s
    case ReadBalance =>
      if p.Locked?
      then At(s, i, if s.balance - c.min <= 0 then Finishing else Guarding(s.balance - c.min, None, None)) else s
    case Submit =>
      if p.Logged?
      then At(s, i, Polling(|s.transfers|)).(transfers := s.transfers + [Transfer(p.amount, Pending)]) else s
    case EndPoll => if p.Polling? then At(s, i, Finishing) else s
    case Unlock => if p.Finishing? then Release(s, i) else s
    case Throw => if p.Started? then At(s, i, Done) else if p.Done? then s else At(s, i, Finishing)
    case Crash => Release(s, i)
    case _ => GuardStep(c, s, i, move)
  }

  predicate PendingAt(s: State, k: nat) {
    k < |s.transfers| && s.transfers[k].status == Pending
  }

  /** The token contract moves what the balance covers and fails otherwise. */
  function SettleStep(s: State, k: nat): State {
    if !PendingAt(s, k) then s
    else if s.transfers[k].amount <= s.balance then
      s.(transfers := s.transfers[k := s.transfers[k].(status := Landed)], balance := s.balance - s.transfers[k].amount)
    else s.(transfers := s.transfers[k := s.transfers[k].(status := Failed)])
  }

  function Step(c: Config, s: State, a: Action): State {
    match a
    case Start => s.(sweeps := s.sweeps + [Started])
    case By(i, move) => if i < |s.sweeps| then SweepStep(c, s, i, move) else s
    case Tick => s.(today := s.today + 1)
    case Resume => s.(guard := Resumed(s.guard))
    case Settle(k) => SettleStep(s, k)
    case Expire(k) =>
      if PendingAt(s, k) then s.(transfers := s.transfers[k := s.transfers[k].(status := Failed)]) else s
    case Credit(amount) => s.(balance := s.balance + amount)
    case Debit(amount) => if amount <= s.balance then s.(balance := s.balance - amount) else s
  }

  function Exec(c: Config, s: State, actions: seq<Action>): State {
    if actions == [] then s else Step(c, Exec(c, s, actions[..|actions| - 1]), actions[|actions| - 1])
  }

  lemma {:induction false} ExecAppend(c: Config, s: State, before: seq<Action>, after: seq<Action>)
    ensures Exec(c, s, before + after) == Exec(c, Exec(c, s, before), after)
  {
    if after == [] {
      assert before + after == before;
    } else {
      var n := |after| - 1;
      assert (before + after)[..|before + after| - 1] == before + after[..n];
      ExecAppend(c, s, before, after[..n]);
    }
  }

  // ---- log sums ----

  predicate WellFormed(log: seq<Entry>, today: nat) {
    forall e | e in log :: e.amount >= 0 && e.day <= today
  }

  lemma {:induction false} SpentBounds(log: seq<Entry>, today: nat, day: nat)
    requires WellFormed(log, today)
    ensures 0 <= SpentOn(log, day) <= SpentSince(log, day) <= Total(log)
    ensures day > today ==> SpentSince(log, day) == 0
  {
    if log != [] {
      SpentBounds(log[..|log| - 1], today, day);
    }
  }

  lemma {:induction false} SpentShrinks(log: seq<Entry>, today: nat, day: nat, later: nat)
    requires WellFormed(log, today) && day <= later
    ensures SpentSince(log, later) <= SpentSince(log, day)
  {
    if log != [] {
      SpentShrinks(log[..|log| - 1], today, day, later);
    }
  }

  /** With no entry after today, the sum since the start of today is today's. */
  lemma {:induction false} SpentSinceIsToday(log: seq<Entry>, today: nat)
    requires WellFormed(log, today)
    ensures SpentSince(log, today) == SpentOn(log, today)
  {
    if log != [] {
      SpentSinceIsToday(log[..|log| - 1], today);
    }
  }

  lemma RecordAdds(g: Guard, amount: int, today: nat, day: nat)
    ensures var log := Record(g, amount, today).log;
            && SpentOn(log, day) == SpentOn(g.log, day) + (if day == today then amount else 0)
            && Total(log) == Total(g.log) + amount
  {
    var log := Record(g, amount, today).log;
    assert log[..|log| - 1] == g.log;
  }

  // ---- the daily cap ----

  /** Beyond taking the lock and before the end. */
  predicate Active(p: Sweep) {
    !p.Started? && !p.Done?
  }

  /** An active sweep holds the lock, and past a stored halt none is on its way to the log or to another halt. */
  predicate LockOk(s: State, p: Sweep, i: nat) {
    && (Active(p) ==> s.lock == Some(i))
    && (s.guard.haltedAt.Some? ==> !p.Cleared? && !p.Breached? && (p.Guarding? ==> p.haltRead != Some(false)))
  }

  predicate LockInv(s: State) {
    forall i | 0 <= i < |s.sweeps| :: LockOk(s, s.sweeps[i], i)
  }

  lemma SweepStepKeepsLock(c: Config, s: State, i: nat, move: Move)
    requires c.advisory && LockInv(s) && i < |s.sweeps|
    ensures LockInv(SweepStep(c, s, i, move))
  {
    hide SpentSince;
    var t := SweepStep(c, s, i, move);
    assert LockOk(s, s.sweeps[i], i);
    forall j | 0 <= j < |t.sweeps| ensures LockOk(t, t.sweeps[j], j) {
      assert LockOk(s, s.sweeps[j], j);
    }
  }

  lemma StepKeepsLock(c: Config, s: State, a: Action)
    requires c.advisory && LockInv(s)
    ensures LockInv(Step(c, s, a))
  {
    match a
    case By(i, move) => if i < |s.sweeps| { SweepStepKeepsLock(c, s, i, move); }
    case _ =>
      var t := Step(c, s, a);
      forall j | 0 <= j < |t.sweeps| ensures LockOk(t, t.sweeps[j], j) {
        assert j < |s.sweeps| ==> LockOk(s, s.sweeps[j], j);
      }
  }

  lemma {:induction false} RunKeepsLock(c: Config, guard: Guard, today: nat, balance: int, actions: seq<Action>)
    requires c.advisory
    ensures LockInv(Exec(c, Init(guard, today, balance), actions))
  {
    if actions != [] {
      hide LockInv, Step;
      var n := |actions| - 1;
      RunKeepsLock(c, guard, today, balance, actions[..n]);
      StepKeepsLock(c, Exec(c, Init(guard, today, balance), actions[..n]), actions[n]);
    }
  }

  /** Whoever is on the lock is an active sweep. */
  predicate LockHeld(s: State) {
    s.lock.Some? ==> s.lock.value < |s.sweeps| && Active(s.sweeps[s.lock.value])
  }

  lemma {:induction false} RunKeepsLockHeld(c: Config, guard: Guard, today: nat, balance: int, actions: seq<Action>)
    ensures LockHeld(Exec(c, Init(guard, today, balance), actions))
  {
    if actions != [] {
      hide LockHeld, Step;
      var n := |actions| - 1;
      RunKeepsLockHeld(c, guard, today, balance, actions[..n]);
      StepKeepsLockHeld(c, Exec(c, Init(guard, today, balance), actions[..n]), actions[n]);
    }
  }

  lemma StepKeepsLockHeld(c: Config, s: State, a: Action)
    requires LockHeld(s)
    ensures LockHeld(Step(c, s, a))
  {
    hide SpentSince, OverCap;
  }

  /** In every run the holder can give the lock back from wherever it is: by failing and unlocking, or by dying. */
  lemma LockIsFreed(c: Config, guard: Guard, today: nat, balance: int, actions: seq<Action>, i: nat)
    requires Exec(c, Init(guard, today, balance), actions).lock == Some(i)
    ensures var s := Exec(c, Init(guard, today, balance), actions);
            && Step(c, Step(c, s, By(i, Throw)), By(i, Unlock)).lock == None
            && Step(c, s, By(i, Crash)).lock == None
  {
    RunKeepsLockHeld(c, guard, today, balance, actions);
  }

  /** What a sweep has read of the log is still good enough to write on. */
  predicate SpendOk(ceiling: int, s: State, p: Sweep) {
    && (p.Guarding? ==> p.amount > 0 && (p.spentRead.Some? ==> SpentSince(s.guard.log, s.today) <= p.spentRead.value))
    && (p.Cleared? ==>
          p.amount > 0 && SpentSince(s.guard.log, s.today) <= p.spent && p.spent + p.amount <= ceiling)
  }

  predicate SpendInv(ceiling: int, s: State) {
    forall i | 0 <= i < |s.sweeps| :: SpendOk(ceiling, s, s.sweeps[i])
  }

  ghost predicate DaysCapped(ceiling: int, was: seq<Entry>, log: seq<Entry>) {
    forall day: nat :: SpentOn(log, day) <= Max(ceiling, SpentOn(was, day))
  }

  ghost predicate Inv(ceiling: int, was: seq<Entry>, s: State) {
    WellFormed(s.guard.log, s.today) && LockInv(s) && SpendInv(ceiling, s) && DaysCapped(ceiling, was, s.guard.log)
  }

  lemma InsertKeepsDays(ceiling: int, was: seq<Entry>, g: Guard, today: nat, spent: int, amount: int)
    requires WellFormed(g.log, today) && DaysCapped(ceiling, was, g.log)
    requires SpentSince(g.log, today) <= spent && spent + amount <= ceiling
    ensures DaysCapped(ceiling, was, Record(g, amount, today).log)
  {
    forall day: nat ensures SpentOn(Record(g, amount, today).log, day) <= Max(ceiling, SpentOn(was, day)) {
      RecordAdds(g, amount, today, day);
      SpentBounds(g.log, today, day);
      hide SpentOn, SpentSince, Record;
    }
  }

  lemma InsertKeepsWellFormed(g: Guard, amount: int, today: nat)
    requires WellFormed(g.log, today) && amount >= 0
    ensures WellFormed(Record(g, amount, today).log, today)
  {
  }

  /** Nobody else is under way when the lock holder writes, so nobody's reading is spoilt. */
  lemma InsertKeepsSpend(c: Config, ceiling: int, s: State, i: nat)
    requires LockInv(s) && SpendInv(ceiling, s) && i < |s.sweeps| && s.sweeps[i].Cleared?
    ensures SpendInv(ceiling, SweepStep(c, s, i, Insert))
  {
    hide SpentSince, Record;
    var t := SweepStep(c, s, i, Insert);
    assert LockOk(s, s.sweeps[i], i);
    forall j | 0 <= j < |t.sweeps| ensures SpendOk(ceiling, t, t.sweeps[j]) {
      assert LockOk(s, s.sweeps[j], j);
      assert j != i ==> !Active(t.sweeps[j]);
    }
  }

  lemma InsertKeepsInv(c: Config, ceiling: int, was: seq<Entry>, s: State, i: nat)
    requires c.advisory && Inv(ceiling, was, s) && i < |s.sweeps| && s.sweeps[i].Cleared?
    ensures Inv(ceiling, was, SweepStep(c, s, i, Insert))
  {
    SweepStepKeepsLock(c, s, i, Insert);
    InsertKeepsSpend(c, ceiling, s, i);
    var p := s.sweeps[i];
    assert SpendOk(ceiling, s, p);
    hide LockInv, SpendInv, DaysCapped, WellFormed, SpentSince;
    InsertKeepsWellFormed(s.guard, p.amount, s.today);
    InsertKeepsDays(ceiling, was, s.guard, s.today, p.spent, p.amount);
  }

  /** Any other move leaves the log and the day alone. */
  lemma OtherMoveKeepsSpend(c: Config, ceiling: int, s: State, i: nat, move: Move)
    requires Within(c.cap, ceiling) && SpendInv(ceiling, s) && i < |s.sweeps|
    requires !(move.Insert? && s.sweeps[i].Cleared?)
    ensures var t := SweepStep(c, s, i, move);
            SpendInv(ceiling, t) && t.guard.log == s.guard.log && t.today == s.today
  {
    hide SpentSince;
    var t := SweepStep(c, s, i, move);
    assert t.guard.log == s.guard.log && t.today == s.today;
    assert SpendOk(ceiling, s, s.sweeps[i]);
    forall j | 0 <= j < |t.sweeps| ensures SpendOk(ceiling, t, t.sweeps[j]) {
      assert SpendOk(ceiling, s, s.sweeps[j]);
    }
  }

  lemma SweepStepKeepsInv(c: Config, ceiling: int, was: seq<Entry>, s: State, i: nat, move: Move)
    requires Within(c.cap, ceiling) && c.advisory && Inv(ceiling, was, s) && i < |s.sweeps|
    ensures Inv(ceiling, was, SweepStep(c, s, i, move))
  {
    if move.Insert? && s.sweeps[i].Cleared? {
      InsertKeepsInv(c, ceiling, was, s, i);
    } else {
      hide SpentSince, SpentOn, LockInv, SpendInv, SweepStep;
      SweepStepKeepsLock(c, s, i, move);
      OtherMoveKeepsSpend(c, ceiling, s, i, move);
    }
  }

  lemma TickKeepsInv(ceiling: int, was: seq<Entry>, s: State)
    requires Inv(ceiling, was, s)
    ensures Inv(ceiling, was, s.(today := s.today + 1))
  {
    SpentShrinks(s.guard.log, s.today, s.today, s.today + 1);
    hide SpentSince, SpentOn;
    var t := s.(today := s.today + 1);
    forall j | 0 <= j < |t.sweeps| ensures SpendOk(ceiling, t, t.sweeps[j]) && LockOk(t, t.sweeps[j], j) {
      assert SpendOk(ceiling, s, s.sweeps[j]) && LockOk(s, s.sweeps[j], j);
    }
  }

  lemma StepKeepsInv(c: Config, ceiling: int, was: seq<Entry>, s: State, a: Action)
    requires Within(c.cap, ceiling) && c.advisory && Inv(ceiling, was, s)
    ensures Inv(ceiling, was, Step(c, s, a))
  {
    match a
    case By(i, move) => if i < |s.sweeps| { SweepStepKeepsInv(c, ceiling, was, s, i, move); }
    case Tick => TickKeepsInv(ceiling, was, s);
    case _ =>
      StepKeepsLock(c, s, a);
      hide SpentSince, SpentOn, LockInv;
      var t := Step(c, s, a);
      forall j | 0 <= j < |t.sweeps| ensures SpendOk(ceiling, t, t.sweeps[j]) {
        assert j < |s.sweeps| ==> SpendOk(ceiling, s, s.sweeps[j]);
      }
  }

  lemma {:induction false} RunKeepsInv(
      c: Config, ceiling: int, guard: Guard, today: nat, balance: int, actions: seq<Action>)
    requires Within(c.cap, ceiling) && c.advisory && WellFormed(guard.log, today)
    ensures Inv(ceiling, guard.log, Exec(c, Init(guard, today, balance), actions))
  {
    if actions != [] {
      hide Inv, Step;
      var n := |actions| - 1;
      RunKeepsInv(c, ceiling, guard, today, balance, actions[..n]);
      StepKeepsInv(c, ceiling, guard.log, Exec(c, Init(guard, today, balance), actions[..n]), actions[n]);
    }
  }

  /**
   Under the advisory lock no calendar day's logged spend passes the cap (or what that day had already
   logged at the start), whatever throws, crashes, straddles midnight or is resumed.
   */
  lemma DailyCap(
      c: Config, ceiling: int, guard: Guard, today: nat, balance: int, actions: seq<Action>, day: nat)
    requires Within(c.cap, ceiling) && c.advisory && WellFormed(guard.log, today)
    ensures SpentOn(Exec(c, Init(guard, today, balance), actions).guard.log, day)
         <= Max(ceiling, SpentOn(guard.log, day))
  {
    RunKeepsInv(c, ceiling, guard, today, balance, actions);
  }

  lemma HaltedStepLogsNothing(c: Config, s: State, a: Action)
    requires LockInv(s) && s.guard.haltedAt.Some? && !a.Resume?
    ensures var t := Step(c, s, a); t.guard.log == s.guard.log && t.guard.haltedAt.Some?
  {
    hide SpentSince;
    if a.By? && a.i < |s.sweeps| {
      assert LockOk(s, s.sweeps[a.i], a.i);
    }
  }

  /** Once a halt is stored nothing more is logged until the admin resumes, whatever the cap. */
  lemma {:induction false} HaltIsSticky(
      c: Config, guard: Guard, today: nat, balance: int, before: seq<Action>, after: seq<Action>)
    requires c.advisory && Exec(c, Init(guard, today, balance), before).guard.haltedAt.Some?
    requires Resume !in after
    ensures var s := Exec(c, Init(guard, today, balance), before);
            var t := Exec(c, Init(guard, today, balance), before + after);
            t.guard.log == s.guard.log && t.guard.haltedAt.Some?
  {
    if after == [] {
      assert before + after == before;
    } else {
      hide LockInv, Step;
      var n := |after| - 1;
      HaltIsSticky(c, guard, today, balance, before, after[..n]);
      RunKeepsLock(c, guard, today, balance, before + after[..n]);
      assert (before + after)[..|before + after| - 1] == before + after[..n];
      HaltedStepLogsNothing(c, Exec(c, Init(guard, today, balance), before + after[..n]), after[n]);
    }
  }

  // ---- a cap below one stroop ----

  /** No sweep has got past the guard. */
  predicate Blocked(log: seq<Entry>, s: State) {
    && s.guard.log == log && WellFormed(log, s.today) && s.transfers == []
    && forall i | 0 <= i < |s.sweeps| :: BlockedSweep(s.sweeps[i])
  }

  predicate BlockedSweep(p: Sweep) {
    && !p.Cleared? && !p.Logged? && !p.Polling?
    && (p.Guarding? ==> p.amount > 0 && (p.spentRead.Some? ==> p.spentRead.value >= 0))
  }

  lemma SweepStepKeepsBlocked(c: Config, log: seq<Entry>, s: State, i: nat, move: Move)
    requires OverCap(c.cap, 1) && Blocked(log, s) && i < |s.sweeps|
    ensures Blocked(log, SweepStep(c, s, i, move))
  {
    SpentBounds(s.guard.log, s.today, s.today);
    hide SpentSince, SpentOn, Total, WellFormed;
    var t := SweepStep(c, s, i, move);
    assert BlockedSweep(s.sweeps[i]);
    assert BlockedSweep(t.sweeps[i]);
    forall j | 0 <= j < |t.sweeps| ensures BlockedSweep(t.sweeps[j]) {
      assert BlockedSweep(s.sweeps[j]);
    }
  }

  /** With a cap below one stroop nothing is ever logged or sent, lock or no lock. */
  lemma {:induction false} NothingPassesALowCap(
      c: Config, guard: Guard, today: nat, balance: int, actions: seq<Action>)
    requires OverCap(c.cap, 1) && WellFormed(guard.log, today)
    ensures Blocked(guard.log, Exec(c, Init(guard, today, balance), actions))
  {
    if actions != [] {
      var n := |actions| - 1;
      NothingPassesALowCap(c, guard, today, balance, actions[..n]);
      var s := Exec(c, Init(guard, today, balance), actions[..n]);
      match actions[n]
      case By(i, move) => if i < |s.sweeps| { SweepStepKeepsBlocked(c, guard.log, s, i, move); }
      case _ =>
    }
  }

  // ---- log before move ----

  function Weight(t: Transfer): int {
    if t.status.Failed? then 0 else t.amount
  }

  /** What has moved or may still move. */
  function Exposed(ts: seq<Transfer>): int {
    if ts == [] then 0 else Exposed(ts[..|ts| - 1]) + Weight(ts[|ts| - 1])
  }

  function LandedIn(ts: seq<Transfer>): int {
    if ts == [] then 0 else LandedIn(ts[..|ts| - 1]) + if ts[|ts| - 1].status.Landed? then ts[|ts| - 1].amount else 0
  }

  function Owing(p: Sweep): int {
    if p.Logged? then p.amount else 0
  }

  /** Logged but not yet submitted. */
  function Owed(ps: seq<Sweep>): int {
    if ps == [] then 0 else Owed(ps[..|ps| - 1]) + Owing(ps[|ps| - 1])
  }

  lemma {:induction false} OwedUpdate(ps: seq<Sweep>, i: nat, p: Sweep)
    requires i < |ps|
    ensures Owed(ps[i := p]) == Owed(ps) - Owing(ps[i]) + Owing(p)
  {
    var n := |ps| - 1;
    if i < n {
      assert ps[i := p][..n] == ps[..n][i := p];
      OwedUpdate(ps[..n], i, p);
    } else {
      assert ps[i := p][..n] == ps[..n];
    }
  }

  lemma {:induction false} ExposedUpdate(ts: seq<Transfer>, k: nat, t: Transfer)
    requires k < |ts|
    ensures Exposed(ts[k := t]) == Exposed(ts) - Weight(ts[k]) + Weight(t)
  {
    var n := |ts| - 1;
    if k < n {
      assert ts[k := t][..n] == ts[..n][k := t];
      ExposedUpdate(ts[..n], k, t);
    } else {
      assert ts[k := t][..n] == ts[..n];
    }
  }

  lemma {:induction false} LandedWithinExposed(ts: seq<Transfer>)
    requires forall k | 0 <= k < |ts| :: ts[k].amount >= 0
    ensures LandedIn(ts) <= Exposed(ts)
  {
    if ts != [] {
      LandedWithinExposed(ts[..|ts| - 1]);
    }
  }

  lemma OwedAppend(ps: seq<Sweep>, p: Sweep)
    ensures Owed(ps + [p]) == Owed(ps) + Owing(p)
  {
    assert (ps + [p])[..|ps|] == ps;
  }

  lemma ExposedAppend(ts: seq<Transfer>, t: Transfer)
    ensures Exposed(ts + [t]) == Exposed(ts) + Weight(t)
  {
    assert (ts + [t])[..|ts|] == ts;
  }

  /** Every amount a sweep carries is positive. */
  predicate Positive(p: Sweep) {
    (p.Guarding? || p.Cleared? || p.Logged?) ==> p.amount > 0
  }

  predicate AmountsPositive(s: State) {
    && (forall i | 0 <= i < |s.sweeps| :: Positive(s.sweeps[i]))
    && (forall k | 0 <= k < |s.transfers| :: s.transfers[k].amount > 0)
  }

  predicate Backed(logged: int, s: State) {
    AmountsPositive(s) && Exposed(s.transfers) + Owed(s.sweeps) <= Total(s.guard.log) - logged
  }

  lemma StepKeepsPositive(c: Config, s: State, a: Action)
    requires AmountsPositive(s)
    ensures AmountsPositive(Step(c, s, a))
  {
    hide SpentSince, OverCap;
    if a.By? && a.i < |s.sweeps| {
      assert Positive(s.sweeps[a.i]);
    }
  }

  /** What a move of sweep `i` does to the sums: log and debt together, debt and transfer together, or less debt. */
  lemma MoveBalances(c: Config, s: State, i: nat, move: Move)
    requires i < |s.sweeps| && Positive(s.sweeps[i])
    ensures var p, t := s.sweeps[i], SweepStep(c, s, i, move);
            && t.sweeps == s.sweeps[i := t.sweeps[i]]
            && (if move.Submit? && p.Logged? then
                  && !t.sweeps[i].Logged? && t.guard.log == s.guard.log
                  && t.transfers == s.transfers + [Transfer(p.amount, Pending)]
                else if move.Insert? && p.Cleared? then
                  && t.sweeps[i] == Logged(p.amount) && t.transfers == s.transfers
                  && t.guard == Record(s.guard, p.amount, s.today)
                else
                  t.guard.log == s.guard.log && t.transfers == s.transfers && Owing(t.sweeps[i]) <= Owing(p))
  {
    hide SpentSince, Record;
  }

  lemma SweepStepKeepsBacked(c: Config, logged: int, s: State, i: nat, move: Move)
    requires Backed(logged, s) && i < |s.sweeps|
    ensures var t := SweepStep(c, s, i, move); Exposed(t.transfers) + Owed(t.sweeps) <= Total(t.guard.log) - logged
  {
    var p, t := s.sweeps[i], SweepStep(c, s, i, move);
    assert Positive(p);
    MoveBalances(c, s, i, move);
    hide SweepStep, Exposed, Owed, Total, AmountsPositive, Record;
    OwedUpdate(s.sweeps, i, t.sweeps[i]);
    if move.Submit? && p.Logged? {
      ExposedAppend(s.transfers, Transfer(p.amount, Pending));
    } else if move.Insert? && p.Cleared? {
      RecordAdds(s.guard, p.amount, s.today, s.today);
    }
  }

  lemma StepKeepsBacked(c: Config, logged: int, s: State, a: Action)
    requires Backed(logged, s)
    ensures Backed(logged, Step(c, s, a))
  {
    StepKeepsPositive(c, s, a);
    hide Exposed, Owed, Total, AmountsPositive;
    match a
    case Start => OwedAppend(s.sweeps, Started);
    case By(i, move) => if i < |s.sweeps| { SweepStepKeepsBacked(c, logged, s, i, move); }
    case Settle(k) =>
      if PendingAt(s, k) {
        ExposedUpdate(s.transfers, k, Step(c, s, a).transfers[k]);
        TransferPositive(s, k);
      }
    case Expire(k) =>
      if PendingAt(s, k) {
        ExposedUpdate(s.transfers, k, Step(c, s, a).transfers[k]);
        TransferPositive(s, k);
      }
    case _ =>
  }

  lemma TransferPositive(s: State, k: nat)
    requires AmountsPositive(s) && k < |s.transfers|
    ensures s.transfers[k].amount > 0
  {
  }

  lemma {:induction false} RunKeepsBacked(c: Config, guard: Guard, today: nat, balance: int, actions: seq<Action>)
    ensures Backed(Total(guard.log), Exec(c, Init(guard, today, balance), actions))
  {
    if actions != [] {
      hide Step, Backed;
      var n := |actions| - 1;
      RunKeepsBacked(c, guard, today, balance, actions[..n]);
      StepKeepsBacked(c, Total(guard.log), Exec(c, Init(guard, today, balance), actions[..n]), actions[n]);
    }
  }

  lemma StepKeepsWellFormed(c: Config, s: State, a: Action)
    requires WellFormed(s.guard.log, s.today) && AmountsPositive(s)
    ensures WellFormed(Step(c, s, a).guard.log, Step(c, s, a).today)
  {
    hide SpentSince, OverCap;
    if a.By? && a.i < |s.sweeps| {
      assert Positive(s.sweeps[a.i]);
    }
  }

  /** In every run no entry is negative or dated after today. */
  lemma {:induction false} RunKeepsWellFormed(c: Config, guard: Guard, today: nat, balance: int, actions: seq<Action>)
    requires WellFormed(guard.log, today)
    ensures var s := Exec(c, Init(guard, today, balance), actions); WellFormed(s.guard.log, s.today)
  {
    if actions != [] {
      var n := |actions| - 1;
      RunKeepsBacked(c, guard, today, balance, actions[..n]);
      hide Step, WellFormed, Exposed, Owed, Total, AmountsPositive;
      RunKeepsWellFormed(c, guard, today, balance, actions[..n]);
      StepKeepsWellFormed(c, Exec(c, Init(guard, today, balance), actions[..n]), actions[n]);
    }
  }

  /** In every run, with or without the lock: what sweeps moved and may yet move is at most what they logged. */
  lemma LogBeforeMove(c: Config, guard: Guard, today: nat, balance: int, actions: seq<Action>)
    ensures var s := Exec(c, Init(guard, today, balance), actions);
            LandedIn(s.transfers) <= Exposed(s.transfers) <= Total(s.guard.log) - Total(guard.log)
  {
    RunKeepsBacked(c, guard, today, balance, actions);
    var s := Exec(c, Init(guard, today, balance), actions);
    LandedWithinExposed(s.transfers);
    OwedNonNegative(s.sweeps);
  }

  lemma {:induction false} OwedNonNegative(ps: seq<Sweep>)
    requires forall i | 0 <= i < |ps| :: Positive(ps[i])
    ensures Owed(ps) >= 0
  {
    if ps != [] {
      OwedNonNegative(ps[..|ps| - 1]);
    }
  }

  // ---- the balance ----

  /** No other debit, and no sweep ends its poll, throws or dies while its transfer is still pending. */
  predicate Punctual(s: State, a: Action) {
    && !a.Debit?
    && (a.By? && a.move in {EndPoll, Throw, Crash} && a.i < |s.sweeps| && s.sweeps[a.i].Polling? ==>
          !PendingAt(s, s.sweeps[a.i].transfer))
  }

  predicate PunctualRun(c: Config, s: State, actions: seq<Action>) {
    actions == [] ||
    (var n := |actions| - 1; PunctualRun(c, s, actions[..n]) && Punctual(Exec(c, s, actions[..n]), actions[n]))
  }

  /** What sweep `i` means to move leaves the minimum behind. */
  predicate Covered(c: Config, s: State, p: Sweep, i: nat) {
    && (Active(p) ==> s.lock == Some(i))
    && (p.Guarding? || p.Cleared? || p.Logged? ==> p.amount <= s.balance - c.min)
  }

  /** A pending transfer is that of the polling lock holder, and leaves the minimum behind. */
  predicate TransferCovered(c: Config, s: State, k: nat)
    requires k < |s.transfers|
  {
    s.transfers[k].status.Pending? ==>
      && s.lock.Some? && s.lock.value < |s.sweeps| && s.sweeps[s.lock.value] == Polling(k)
      && s.transfers[k].amount <= s.balance - c.min
  }

  predicate AllCovered(c: Config, s: State) {
    && (forall i | 0 <= i < |s.sweeps| :: Covered(c, s, s.sweeps[i], i))
    && (forall k | 0 <= k < |s.transfers| :: TransferCovered(c, s, k))
    && (s.lock.Some? ==> s.lock.value < |s.sweeps|)
  }

  lemma SweepStepKeepsCovered(c: Config, s: State, i: nat, move: Move)
    requires c.advisory && AllCovered(c, s) && Punctual(s, By(i, move)) && i < |s.sweeps|
    ensures AllCovered(c, SweepStep(c, s, i, move))
  {
    hide SpentSince;
    var t := SweepStep(c, s, i, move);
    assert Covered(c, s, s.sweeps[i], i);
    forall j | 0 <= j < |t.sweeps| ensures Covered(c, t, t.sweeps[j], j) {
      assert Covered(c, s, s.sweeps[j], j);
    }
    forall k | 0 <= k < |t.transfers| ensures TransferCovered(c, t, k) {
      assert k < |s.transfers| ==> TransferCovered(c, s, k);
    }
  }

  lemma SettleKeepsCovered(c: Config, s: State, k: nat)
    requires AllCovered(c, s)
    ensures AllCovered(c, SettleStep(s, k))
  {
    var t := SettleStep(s, k);
    if t != s {
      assert TransferCovered(c, s, k);
      forall j | 0 <= j < |t.sweeps| ensures Covered(c, t, t.sweeps[j], j) {
        assert Covered(c, s, s.sweeps[j], j);
      }
      forall m | 0 <= m < |t.transfers| ensures TransferCovered(c, t, m) {
        assert TransferCovered(c, s, m);
      }
    }
  }

  lemma StepKeepsCovered(c: Config, s: State, a: Action)
    requires c.advisory && AllCovered(c, s) && Punctual(s, a)
    ensures AllCovered(c, Step(c, s, a))
  {
    match a
    case By(i, move) => if i < |s.sweeps| { SweepStepKeepsCovered(c, s, i, move); }
    case Settle(k) => SettleKeepsCovered(c, s, k);
    case Debit(_) => assert false;
    case _ =>
      hide SweepStep, SettleStep;
      var t := Step(c, s, a);
      forall j | 0 <= j < |t.sweeps| ensures Covered(c, t, t.sweeps[j], j) {
        assert j < |s.sweeps| ==> Covered(c, s, s.sweeps[j], j);
      }
      forall k | 0 <= k < |t.transfers| ensures TransferCovered(c, t, k) {
        assert TransferCovered(c, s, k);
      }
  }

  lemma {:induction false} RunKeepsCovered(c: Config, guard: Guard, today: nat, balance: int, actions: seq<Action>)
    requires c.advisory && PunctualRun(c, Init(guard, today, balance), actions)
    ensures AllCovered(c, Exec(c, Init(guard, today, balance), actions))
  {
    if actions != [] {
      hide Step, AllCovered, Punctual;
      var n := |actions| - 1;
      RunKeepsCovered(c, guard, today, balance, actions[..n]);
      StepKeepsCovered(c, Exec(c, Init(guard, today, balance), actions[..n]), actions[n]);
    }
  }

  /** With punctual polls no pending transfer fails for lack of funds, and every one that lands leaves the minimum. */
  lemma MinimumKept(c: Config, guard: Guard, today: nat, balance: int, actions: seq<Action>, k: nat)
    requires c.advisory && c.min >= 0 && PunctualRun(c, Init(guard, today, balance), actions)
    requires PendingAt(Exec(c, Init(guard, today, balance), actions), k)
    ensures var t := SettleStep(Exec(c, Init(guard, today, balance), actions), k);
            t.transfers[k].status.Landed? && t.balance >= c.min
  {
    RunKeepsCovered(c, guard, today, balance, actions);
    assert TransferCovered(c, Exec(c, Init(guard, today, balance), actions), k);
  }
}
