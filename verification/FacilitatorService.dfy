/**
 The spend guard and the sweep as the services run them, undisturbed: classes over the stored state.
 Each undisturbed sweep is one of the machine's runs, so the machine's theorems cover it.  The last
 section shows what the lock, the punctual poll and a finite cap are each for.
 */
module FacilitatorService {
  import opened Common
  import opened FacilitatorSweep

  datatype Outcome = Allowed | SpendStateUnreadable | FacilitatorHalted | SpendCapExceeded | WriteFailed

  /** What one check meets: whether the reads answer, how many writes do, and whether midnight falls between. */
  datatype World = World(readable: bool, writes: nat, today: nat, midnight: bool)

  function WriteDay(w: World): nat {
    if w.midnight then w.today + 1 else w.today
  }

  /** checkAndRecordSpend on values. */
  function Check(cap: Cap, w: World, g: Guard, amount: int): (r: (Guard, Outcome))
    ensures r.1.Allowed? ==> g.haltedAt == None && !OverCap(cap, SpentSince(g.log, w.today) + amount)
    ensures r.0.log == if r.1.Allowed? then Record(g, amount, WriteDay(w)).log else g.log
    ensures r.1.SpendCapExceeded? ==> r.0.haltedAt.Some? && r.0.haltReason.Some?
    ensures r.1.FacilitatorHalted? || r.1.SpendStateUnreadable? ==> r.0 == g
  {
    var spent := SpentSince(g.log, w.today);
    if !w.readable then (g, SpendStateUnreadable)
    else if g.haltedAt.Some? then (g, FacilitatorHalted)
    else if OverCap(cap, spent + amount) then
      if w.writes == 0 then (g, WriteFailed)
      else
        var halting := g.(haltedAt := Some(WriteDay(w)));
        if w.writes == 1 then (halting, WriteFailed)
        else (halting.(haltReason := Some(Breach(amount, spent))), SpendCapExceeded)
    else if w.writes == 0 then (g, WriteFailed)
    else (Record(g, amount, WriteDay(w)), Allowed)
  }

  /** Within the configured cap: to the last stroop of a finite one, anything at all where `Number` gives no bound. */
  predicate WithinCap(cap: Cap, total: int) {
    match cap
    case Finite(stroops) => total <= stroops
    case MinusInfinity => false
    case PlusInfinity => true
    case NotANumber => true
  }

  /** Which outcome, exactly, against what today's entries sum to. */
  lemma CheckOutcomes(cap: Cap, w: World, g: Guard, amount: int)
    requires WellFormed(g.log, w.today)
    ensures var outcome := Check(cap, w, g, amount).1;
            var within := WithinCap(cap, SpentOn(g.log, w.today) + amount);
            && (outcome.SpendStateUnreadable? <==> !w.readable)
            && (outcome.FacilitatorHalted? <==> w.readable && g.haltedAt.Some?)
            && (outcome.Allowed? <==> w.readable && g.haltedAt.None? && within && w.writes > 0)
            && (outcome.SpendCapExceeded? <==> w.readable && g.haltedAt.None? && !within && w.writes > 1)
  {
    SpentSinceIsToday(g.log, w.today);
    hide SpentSince, SpentOn;
  }

  /** A breach halts, with the moment first and the reason second, as far as its writes get. */
  lemma BreachHalts(cap: Cap, w: World, g: Guard, amount: int)
    requires WellFormed(g.log, w.today) && w.readable && g.haltedAt.None?
    requires !WithinCap(cap, SpentOn(g.log, w.today) + amount)
    ensures var after := Check(cap, w, g, amount).0;
            && after.log == g.log
            && after.haltedAt == (if w.writes > 0 then Some(WriteDay(w)) else None)
            && after.haltReason == if w.writes > 1 then Some(Breach(amount, SpentOn(g.log, w.today))) else g.haltReason
  {
    SpentSinceIsToday(g.log, w.today);
    hide SpentSince, SpentOn;
  }

  class FacilitatorSpendGuardService {
    var log: seq<Entry>
    var haltedAt: Option<nat>
    var haltReason: Option<Breach>

    constructor ()
      ensures Stored() == Guard([], None, None)
    {
      log, haltedAt, haltReason := [], None, None;
    }

    function Stored(): Guard
      reads this
    {
      Guard(log, haltedAt, haltReason)
    }

    /** The query SUM(amount_usdc) from the start of today. */
    method SpentToday(today: nat) returns (total: int)
      ensures total == SpentSince(log, today)
    {
      total := 0;
      for i := 0 to |log|
        invariant total == SpentSince(log[..i], today)
      {
        assert log[..i + 1][..i] == log[..i];
        if log[i].day >= today {
          total := total + log[i].amount;
        }
      }
      assert log[..|log|] == log;
    }

    /** The halt is two statements; the second need not follow the first. */
    method Halt(w: World, reason: Breach) returns (ok: bool)
      modifies this`haltedAt, this`haltReason
      ensures ok == (w.writes >= 2)
      ensures haltedAt == if w.writes >= 1 then Some(WriteDay(w)) else old(haltedAt)
      ensures haltReason == if w.writes >= 2 then Some(reason) else old(haltReason)
    {
      if w.writes == 0 {
        return false;
      }
      haltedAt := Some(WriteDay(w));
      if w.writes == 1 {
        return false;
      }
      haltReason := Some(reason);
      return true;
    }

    method CheckAndRecordSpend(cap: Cap, w: World, amount: int) returns (outcome: Outcome)
      modifies this
      ensures (Stored(), outcome) == Check(cap, w, old(Stored()), amount)
    {
      if !w.readable {
        return SpendStateUnreadable;
      }
      var spent := SpentToday(w.today);
      if haltedAt.Some? {
        return FacilitatorHalted;
      }
      if OverCap(cap, spent + amount) {
        var ok := Halt(w, Breach(amount, spent));
        return if ok then SpendCapExceeded else WriteFailed;
      }
      if w.writes == 0 {
        return WriteFailed;
      }
      log := log + [Entry(amount, WriteDay(w))];
      return Allowed;
    }

    /** Clears the halt, never the log: the day's total stays. */
    method Resume()
      modifies this`haltedAt, this`haltReason
      ensures haltedAt == None && haltReason == None && log == old(log)
      ensures Stored() == Resumed(old(Stored()))
    {
      haltedAt, haltReason := None, None;
    }
  }

  /** doSweep on values: the guard afterwards, and the transfer handed to the network, if any. */
  function SweepOnce(c: Config, w: World, g: Guard, balance: Option<int>): (r: (Guard, Option<int>))
    ensures r.1.Some? ==>
              && balance.Some? && r.1.value == balance.value - c.min > 0
              && r.0.log == g.log + [Entry(r.1.value, WriteDay(w))]
              && !OverCap(c.cap, SpentSince(g.log, w.today) + r.1.value)
    ensures r.1.None? ==> r.0.log == g.log
  {
    if balance.None? || balance.value - c.min <= 0 then (g, None)
    else
      var (after, outcome) := Check(c.cap, w, g, balance.value - c.min);
      (after, if outcome.Allowed? then Some(balance.value - c.min) else None)
  }

  /** A sweep sends its surplus exactly when it can read, is not halted, and stays within the day's cap. */
  lemma SweepSendsIff(c: Config, w: World, g: Guard, balance: Option<int>)
    requires WellFormed(g.log, w.today)
    ensures SweepOnce(c, w, g, balance).1.Some? <==>
            && w.readable && w.writes > 0 && g.haltedAt.None?
            && balance.Some? && balance.value > c.min
            && WithinCap(c.cap, SpentOn(g.log, w.today) + balance.value - c.min)
  {
    if balance.Some? {
      CheckOutcomes(c.cap, w, g, balance.value - c.min);
    }
    hide SpentSince, SpentOn, WithinCap, Check;
  }

  /** When nothing is in the way, the surplus is logged and sent. */
  lemma SurplusIsSwept(c: Config, w: World, g: Guard, balance: int)
    requires w.readable && w.writes > 0 && g.haltedAt == None && balance > c.min
    requires !OverCap(c.cap, SpentSince(g.log, w.today) + balance - c.min)
    ensures SweepOnce(c, w, g, Some(balance)) == (Record(g, balance - c.min, WriteDay(w)), Some(balance - c.min))
  {
  }

  class FacilitatorSweepService {
    const spendGuard: FacilitatorSpendGuardService
    var locked: bool
    var submitted: seq<int>

    constructor (spendGuard: FacilitatorSpendGuardService)
      ensures this.spendGuard == spendGuard && !locked && submitted == []
    {
      this.spendGuard, locked, submitted := spendGuard, false, [];
    }

    method DoSweep(c: Config, w: World, balance: Option<int>) returns (moved: Option<int>)
      modifies spendGuard, this`submitted
      ensures (spendGuard.Stored(), moved) == SweepOnce(c, w, old(spendGuard.Stored()), balance)
      ensures submitted == old(submitted) + if moved.Some? then [moved.value] else []
    {
      if balance.None? || balance.value - c.min <= 0 {
        return None;
      }
      var amount := balance.value - c.min;
      var outcome := spendGuard.CheckAndRecordSpend(c.cap, w, amount);
      if outcome != Allowed {
        return None;
      }
      submitted := submitted + [amount];
      return Some(amount);
    }

    /** An unset minimum or a held lock means no sweep at all; otherwise the lock is given back on every path. */
    method Sweep(configured: bool, c: Config, w: World, balance: Option<int>) returns (moved: Option<int>)
      modifies spendGuard, this
      ensures locked == old(locked)
      ensures (spendGuard.Stored(), moved) ==
              if configured && !old(locked) then SweepOnce(c, w, old(spendGuard.Stored()), balance)
              else (old(spendGuard.Stored()), None)
      ensures submitted == old(submitted) + if moved.Some? then [moved.value] else []
    {
      if !configured || locked {
        return None;
      }
      locked := true;
      moved := DoSweep(c, w, balance);
      locked := false;
    }
  }

  // ---- each undisturbed sweep is a run of the machine ----

  lemma Do(c: Config, s: State, actions: seq<Action>, a: Action) returns (more: seq<Action>)
    ensures more == actions + [a] && Exec(c, s, more) == Step(c, Exec(c, s, actions), a)
  {
    more := actions + [a];
    assert more[..|more| - 1] == actions;
  }

  predicate OneSweep(actions: seq<Action>, i: nat) {
    forall a | a in actions :: a.Tick? || (a.By? && a.i == i)
  }

  /** The reads and the decision. */
  lemma ReadsAreARun(c: Config, s: State, before: seq<Action>, i: nat) returns (actions: seq<Action>)
    requires var t := Exec(c, s, before);
             i < |t.sweeps| && t.sweeps[i].Guarding? && t.sweeps[i].haltRead == None && t.sweeps[i].spentRead == None
    ensures OneSweep(before, i) ==> OneSweep(actions, i)
    ensures var t := Exec(c, s, before);
            var (amount, spent) := (t.sweeps[i].amount, SpentSince(t.guard.log, t.today));
            Exec(c, s, actions) ==
            At(t, i, if t.guard.haltedAt.Some? then Finishing
                     else if OverCap(c.cap, spent + amount) then Breached(amount, spent) else Cleared(amount, spent))
  {
    hide SpentSince, Exec;
    var t := Exec(c, s, before);
    var (amount, spent) := (t.sweeps[i].amount, SpentSince(t.guard.log, t.today));
    actions := Do(c, s, before, By(i, ReadHalt));
    assert Exec(c, s, actions) == At(t, i, Guarding(amount, Some(t.guard.haltedAt.Some?), None));
    actions := Do(c, s, actions, By(i, ReadSpend));
    assert Exec(c, s, actions) == At(t, i, Guarding(amount, Some(t.guard.haltedAt.Some?), Some(spent)));
    actions := Do(c, s, actions, By(i, Decide));
  }

  /** What a decided sweep makes of the guard with the writes it gets. */
  function Written(w: World, g: Guard, p: Sweep): Guard {
    match p
    case Cleared(amount, _) => if w.writes == 0 then g else Record(g, amount, WriteDay(w))
    case Breached(amount, spent) =>
      if w.writes == 0 then g
      else
        g.(haltedAt := Some(WriteDay(w)),
           haltReason := if w.writes == 1 then g.haltReason else Some(Breach(amount, spent)))
    case _ => g
  }

  /** The halt's two writes, of which the second may fail. */
  lemma HaltIsARun(c: Config, w: World, s: State, before: seq<Action>, i: nat) returns (actions: seq<Action>)
    requires OneSweep(before, i) && w.writes > 0
    requires var t := Exec(c, s, before); i < |t.sweeps| && t.today == WriteDay(w) && t.sweeps[i].Breached?
    ensures OneSweep(actions, i)
    ensures var t := Exec(c, s, before);
            Exec(c, s, actions) == At(t, i, Finishing).(guard := Written(w, t.guard, t.sweeps[i]))
  {
    hide SpentSince, Exec;
    var t := Exec(c, s, before);
    var p := t.sweeps[i];
    actions := Do(c, s, before, By(i, StoreHalt));
    assert Exec(c, s, actions) ==
           At(t, i, Halting(p.amount, p.spent)).(guard := t.guard.(haltedAt := Some(WriteDay(w))));
    actions := Do(c, s, actions, By(i, if w.writes == 1 then Throw else StoreReason));
  }

  /** The writes, past midnight or not, and what a failing one leaves. */
  lemma WritesAreARun(c: Config, w: World, s: State, before: seq<Action>, i: nat) returns (actions: seq<Action>)
    requires OneSweep(before, i)
    requires var t := Exec(c, s, before);
             i < |t.sweeps| && t.today == w.today
             && (t.sweeps[i].Cleared? || t.sweeps[i].Breached? || t.sweeps[i].Finishing?)
    ensures OneSweep(actions, i)
    ensures var t := Exec(c, s, before);
            var p := t.sweeps[i];
            Exec(c, s, actions) ==
            At(t, i, if p.Cleared? && w.writes > 0 then Logged(p.amount) else Finishing)
              .(guard := Written(w, t.guard, p), today := WriteDay(w))
  {
    hide SpentSince, Exec;
    var t := Exec(c, s, before);
    var p := t.sweeps[i];
    actions := before;
    if w.midnight {
      actions := Do(c, s, actions, Tick);
    }
    var u := t.(today := WriteDay(w));
    assert Exec(c, s, actions) == u;
    if w.writes == 0 || p.Finishing? {
      actions := Do(c, s, actions, By(i, Throw));
    } else if p.Cleared? {
      actions := Do(c, s, actions, By(i, Insert));
    } else {
      actions := HaltIsARun(c, w, s, actions, i);
    }
  }

  /** From a measured amount through the guard to the log or the halt. */
  lemma CheckIsARun(c: Config, w: World, s: State, before: seq<Action>, i: nat) returns (actions: seq<Action>)
    requires OneSweep(before, i)
    requires var t := Exec(c, s, before);
             i < |t.sweeps| && t.sweeps[i].Guarding? && t.sweeps[i].haltRead == None && t.sweeps[i].spentRead == None
             && t.today == w.today
    ensures OneSweep(actions, i)
    ensures var t := Exec(c, s, before);
            var u := Exec(c, s, actions);
            var (guard, outcome) := Check(c.cap, w, t.guard, t.sweeps[i].amount);
            && u.guard == guard && u.lock == t.lock && u.transfers == t.transfers && u.balance == t.balance
            && (!w.midnight ==> u.today == t.today)
            && u.sweeps == t.sweeps[i := if outcome.Allowed? then Logged(t.sweeps[i].amount) else Finishing]
  {
    hide SpentSince, Exec;
    if w.readable {
      actions := ReadsAreARun(c, s, before, i);
      actions := WritesAreARun(c, w, s, actions, i);
    } else {
      actions := Do(c, s, before, By(i, Throw));
    }
  }

  /** Lock and balance. */
  lemma MeasureIsARun(c: Config, s: State, i: nat) returns (actions: seq<Action>)
    requires c.advisory && s.lock == None && i < |s.sweeps| && s.sweeps[i].Started?
    ensures OneSweep(actions, i)
    ensures Exec(c, s, actions) ==
            At(s, i, if s.balance - c.min <= 0 then Finishing else Guarding(s.balance - c.min, None, None))
              .(lock := Some(i))
  {
    actions := Do(c, s, [], By(i, TryLock));
    assert Exec(c, s, actions) == At(s, i, Locked).(lock := Some(i));
    actions := Do(c, s, actions, By(i, ReadBalance));
  }

  /** Submission, poll and unlock. */
  lemma EndingIsARun(c: Config, s: State, before: seq<Action>, i: nat) returns (actions: seq<Action>)
    requires OneSweep(before, i)
    requires var t := Exec(c, s, before);
             i < |t.sweeps| && t.lock == Some(i) && (t.sweeps[i].Logged? || t.sweeps[i].Finishing?)
    ensures OneSweep(actions, i)
    ensures var t := Exec(c, s, before);
            var p := t.sweeps[i];
            Exec(c, s, actions) ==
            At(t, i, Done)
              .(lock := None, transfers := t.transfers + if p.Logged? then [Transfer(p.amount, Pending)] else [])
  {
    hide Exec;
    var t := Exec(c, s, before);
    actions := before;
    if t.sweeps[i].Logged? {
      actions := Do(c, s, actions, By(i, Submit));
      actions := Do(c, s, actions, By(i, EndPoll));
    }
    assert Exec(c, s, actions).sweeps == At(t, i, Finishing).sweeps;
    actions := Do(c, s, actions, By(i, Unlock));
  }

  /** A sweep that finds the lock free, from lock to unlock: same guard, same transfer, lock free again. */
  lemma SweepIsARun(c: Config, w: World, s: State, i: nat) returns (actions: seq<Action>)
    requires c.advisory && s.lock == None && s.today == w.today && i < |s.sweeps| && s.sweeps[i].Started?
    ensures OneSweep(actions, i)
    ensures var t := Exec(c, s, actions);
            var (guard, moved) := SweepOnce(c, w, s.guard, Some(s.balance));
            && t.guard == guard && t.lock == None && t.sweeps == s.sweeps[i := Done] && t.balance == s.balance
            && (!w.midnight ==> t.today == s.today)
            && t.transfers == s.transfers + if moved.Some? then [Transfer(moved.value, Pending)] else []
  {
    hide Check, SpentSince, Exec;
    actions := MeasureIsARun(c, s, i);
    if s.balance - c.min > 0 {
      actions := CheckIsARun(c, w, s, actions, i);
    }
    actions := EndingIsARun(c, s, actions, i);
  }

  // ---- what each hypothesis is for ----

  const EMPTY := Guard([], None, None)

  /** Without the lock two sweeps measure the same balance. */
  lemma BothMeasure(c: Config, s: State, amount: int) returns (actions: seq<Action>)
    requires !c.advisory && s.sweeps == [] && amount == s.balance - c.min > 0
    ensures Exec(c, s, actions) == s.(sweeps := [Guarding(amount, None, None), Guarding(amount, None, None)])
  {
    assert Exec(c, s, []) == s;
    hide Exec;
    var g := Guarding(amount, None, None);
    actions := Do(c, s, [], Start);
    actions := Do(c, s, actions, By(0, TryLock));
    assert Exec(c, s, actions) == s.(sweeps := [Locked]);
    actions := Do(c, s, actions, By(0, ReadBalance));
    assert Exec(c, s, actions) == s.(sweeps := [g]);
    actions := Do(c, s, actions, Start);
    actions := Do(c, s, actions, By(1, TryLock));
    assert Exec(c, s, actions) == s.(sweeps := [g, Locked]);
    actions := Do(c, s, actions, By(1, ReadBalance));
    assert Exec(c, s, actions) == s.(sweeps := [g, g]);
  }

  /** One that reads an empty log and no halt is let through. */
  lemma ReadsClear(c: Config, s: State, before: seq<Action>, i: nat, amount: int) returns (actions: seq<Action>)
    requires var t := Exec(c, s, before);
             i < |t.sweeps| && t.sweeps[i] == Guarding(amount, None, None) && t.guard == EMPTY
    requires !OverCap(c.cap, amount)
    ensures Exec(c, s, actions) == At(Exec(c, s, before), i, Cleared(amount, 0))
  {
    assert SpentSince([], Exec(c, s, before).today) == 0;
    hide Exec, SpentSince, OverCap, OneSweep, At;
    actions := ReadsAreARun(c, s, before, i);
  }

  /** Both do. */
  lemma BothCleared(c: Config, amount: int, today: nat) returns (actions: seq<Action>)
    requires !c.advisory && 0 < amount && !OverCap(c.cap, amount)
    ensures var s := Init(EMPTY, today, amount + c.min);
            Exec(c, s, actions) == s.(sweeps := [Cleared(amount, 0), Cleared(amount, 0)])
  {
    var s := Init(EMPTY, today, amount + c.min);
    hide Exec, Step, OverCap;
    actions := BothMeasure(c, s, amount);
    actions := ReadsClear(c, s, actions, 0, amount);
    assert Exec(c, s, actions) == s.(sweeps := [Cleared(amount, 0), Guarding(amount, None, None)]);
    actions := ReadsClear(c, s, actions, 1, amount);
  }

  lemma TwoEntries(amount: int, today: nat)
    ensures SpentOn(Record(Record(EMPTY, amount, today), amount, today).log, today) == 2 * amount
  {
    RecordAdds(EMPTY, amount, today, today);
    RecordAdds(Record(EMPTY, amount, today), amount, today, today);
    assert SpentOn([], today) == 0;
  }

  /** Read-then-insert alone is no cap: without the lock two sweeps read the same total and both log. */
  lemma WithoutTheLockTheCapBreaks(c: Config, cap: int, amount: int, today: nat) returns (actions: seq<Action>)
    requires !c.advisory && c.cap == Finite(cap) && 0 < amount <= cap < 2 * amount
    ensures SpentOn(Exec(c, Init(EMPTY, today, amount + c.min), actions).guard.log, today) > cap
  {
    var s := Init(EMPTY, today, amount + c.min);
    TwoEntries(amount, today);
    hide Exec, SpentOn, Step, Record;
    actions := BothCleared(c, amount, today);
    actions := InsertIsARun(c, s, actions, 0);
    actions := InsertIsARun(c, s, actions, 1);
  }

  lemma InsertIsARun(c: Config, s: State, before: seq<Action>, i: nat) returns (actions: seq<Action>)
    requires var t := Exec(c, s, before); i < |t.sweeps| && t.sweeps[i].Cleared?
    ensures var t := Exec(c, s, before);
            Exec(c, s, actions) ==
            At(t, i, Logged(t.sweeps[i].amount)).(guard := Record(t.guard, t.sweeps[i].amount, t.today))
  {
    hide Exec;
    actions := Do(c, s, before, By(i, Insert));
  }

  /** One more sweep, undisturbed, after any run that left the lock free. */
  lemma AnotherSweep(c: Config, w: World, s: State, before: seq<Action>) returns (actions: seq<Action>)
    requires var t := Exec(c, s, before); c.advisory && t.lock == None && t.today == w.today && !w.midnight
    ensures var t := Exec(c, s, before);
            var u := Exec(c, s, actions);
            var (guard, moved) := SweepOnce(c, w, t.guard, Some(t.balance));
            && u.guard == guard && u.lock == None && u.balance == t.balance && u.today == t.today
            && u.transfers == t.transfers + if moved.Some? then [Transfer(moved.value, Pending)] else []
    ensures forall a | a in actions :: a in before || !a.Debit?
  {
    hide Exec, SweepOnce;
    var started := Do(c, s, before, Start);
    var t := Exec(c, s, started);
    var more := SweepIsARun(c, w, t, |t.sweeps| - 1);
    ExecAppend(c, s, started, more);
    actions := started + more;
  }

  /** `bound` is a ceiling on the day's spending over every run from an empty log. */
  ghost predicate CeilingOf(c: Config, bound: int) {
    forall balance: int, actions, day: nat :: SpentOn(Exec(c, Init(EMPTY, 0, balance), actions).guard.log, day) <= bound
  }

  lemma WithinIsCeiling(c: Config, ceiling: nat)
    requires c.advisory && Within(c.cap, ceiling)
    ensures CeilingOf(c, ceiling)
  {
    forall balance: int, actions, day: nat
      ensures SpentOn(Exec(c, Init(EMPTY, 0, balance), actions).guard.log, day) <= ceiling
    {
      DailyCap(c, ceiling, EMPTY, 0, balance, actions, day);
    }
  }

  /** Under a cap that no total is over one sweep can log more than any bound. */
  lemma NoCeiling(c: Config, bound: int)
    requires c.advisory && (c.cap.NotANumber? || c.cap.PlusInfinity?)
    ensures !CeilingOf(c, bound)
  {
    var balance := c.min + 1 + Max(bound, 0);
    var s := Init(EMPTY, 0, balance);
    var actions := AnotherSweep(c, World(true, 2, 0, false), s, []);
    RecordAdds(EMPTY, balance - c.min, 0, 0);
    assert SpentOn(Exec(c, s, actions).guard.log, 0) > bound;
  }

  /** Under the lock there is a ceiling exactly when the configured cap is finite, or minus infinity. */
  lemma CeilingIff(c: Config)
    requires c.advisory
    ensures (exists bound :: CeilingOf(c, bound)) <==> c.cap.Finite? || c.cap.MinusInfinity?
  {
    match c.cap
    case Finite(stroops) => WithinIsCeiling(c, Max(stroops, 0));
    case MinusInfinity => WithinIsCeiling(c, 0);
    case _ =>
      forall bound ensures !CeilingOf(c, bound) {
        NoCeiling(c, bound);
      }
  }

  /** A finite cap is that ceiling if and only if the lock is taken, or the cap is too low for a single stroop. */
  lemma CapKeptIff(c: Config, cap: int)
    requires c.cap == Finite(cap)
    ensures CeilingOf(c, Max(cap, 0)) <==> c.advisory || cap < 1
  {
    if c.advisory {
      WithinIsCeiling(c, Max(cap, 0));
    } else if cap < 1 {
      LowCapLogsNothing(c);
    } else {
      var actions := WithoutTheLockTheCapBreaks(c, cap, cap, 0);
      var log := Exec(c, Init(EMPTY, 0, cap + c.min), actions).guard.log;
      assert SpentOn(log, 0) > Max(cap, 0);
    }
  }

  lemma LowCapLogsNothing(c: Config)
    requires OverCap(c.cap, 1)
    ensures CeilingOf(c, 0)
  {
    forall balance: int, actions, day: nat
      ensures SpentOn(Exec(c, Init(EMPTY, 0, balance), actions).guard.log, day) <= 0
    {
      NothingPassesALowCap(c, EMPTY, 0, balance, actions);
    }
  }

  predicate NoDebit(actions: seq<Action>) {
    forall a | a in actions :: !a.Debit?
  }

  /** No sweep is under way, and the rest of the state is this. */
  predicate Quiet(t: State, g: Guard, today: nat, balance: int, transfers: seq<Transfer>) {
    t.lock == None && t.guard == g && t.today == today && t.balance == balance && t.transfers == transfers
  }

  /** One more sweep with a surplus and nothing in the way. */
  lemma SurplusRun(
      c: Config, s: State, before: seq<Action>, g: Guard, today: nat, balance: int, transfers: seq<Transfer>)
    returns (actions: seq<Action>)
    requires c.advisory && NoDebit(before) && Quiet(Exec(c, s, before), g, today, balance, transfers)
    requires g.haltedAt == None && balance > c.min && !OverCap(c.cap, SpentSince(g.log, today) + balance - c.min)
    ensures NoDebit(actions)
    ensures Quiet(Exec(c, s, actions), Record(g, balance - c.min, today), today, balance,
                  transfers + [Transfer(balance - c.min, Pending)])
  {
    var w := World(true, 2, today, false);
    hide Exec, SweepOnce, SpentSince, OverCap, Record;
    SurplusIsSwept(c, w, g, balance);
    actions := AnotherSweep(c, w, s, before);
  }

  lemma TickRun(
      c: Config, s: State, before: seq<Action>, g: Guard, today: nat, balance: int, transfers: seq<Transfer>)
    returns (actions: seq<Action>)
    requires NoDebit(before) && Quiet(Exec(c, s, before), g, today, balance, transfers)
    ensures NoDebit(actions) && Quiet(Exec(c, s, actions), g, today + 1, balance, transfers)
  {
    hide Exec;
    actions := Do(c, s, before, Tick);
  }

  lemma SettleRun(
      c: Config, s: State, before: seq<Action>, g: Guard, today: nat, balance: int, transfers: seq<Transfer>, k: nat)
    returns (actions: seq<Action>)
    requires NoDebit(before) && Quiet(Exec(c, s, before), g, today, balance, transfers)
    requires k < |transfers| && transfers[k].status == Pending && transfers[k].amount <= balance
    ensures NoDebit(actions)
    ensures Quiet(Exec(c, s, actions), g, today, balance - transfers[k].amount,
                  transfers[k := transfers[k].(status := Landed)])
  {
    hide Exec;
    actions := Do(c, s, before, Settle(k));
  }

  lemma QuietStart(c: Config, today: nat, balance: int)
    ensures NoDebit([]) && Quiet(Exec(c, Init(EMPTY, today, balance), []), EMPTY, today, balance, [])
  {
  }

  lemma RecordOne(amount: int, day: nat)
    ensures Record(EMPTY, amount, day) == Guard([Entry(amount, day)], None, None)
  {
  }

  lemma SpentOfEntry(e: Entry, day: nat)
    ensures SpentSince([], day) == 0 && SpentSince([e], day) == if e.day >= day then e.amount else 0
  {
    assert [e][..0] == [];
  }

  /** Spending of one entry, on its own day and on the next. */
  lemma SpentOfOne(amount: int, day: nat)
    ensures SpentSince([], day) == 0 && SpentSince(Record(EMPTY, amount, day).log, day) == amount
    ensures SpentSince(Record(EMPTY, amount, day).log, day + 1) == 0
  {
    RecordOne(amount, day);
    SpentOfEntry(Entry(amount, day), day);
    SpentOfEntry(Entry(amount, day), day + 1);
    hide SpentSince, Record;
  }

  /**
   A transfer that outlives its sweep's poll is measured again by the next one.  When both land, the
   minimum is spent, without any other debit.
   */
  lemma LateTransferUndercutsTheMinimum(c: Config, balance: int, today: nat) returns (actions: seq<Action>)
    requires c.advisory && c.min < balance <= 2 * c.min && !OverCap(c.cap, 2 * (balance - c.min))
    ensures NoDebit(actions)
    ensures Exec(c, Init(EMPTY, today, balance), actions).balance == 2 * c.min - balance < c.min
  {
    var amount, s := balance - c.min, Init(EMPTY, today, balance);
    var g := Record(EMPTY, amount, today);
    var sent, landed := Transfer(amount, Pending), Transfer(amount, Landed);
    LowerIsAllowed(c.cap, amount, 2 * amount);
    SpentOfOne(amount, today);
    QuietStart(c, today, balance);
    assert g.haltedAt == None;
    hide Exec, SpentSince, OverCap, NoDebit, Record, Init;
    actions := SurplusRun(c, s, [], EMPTY, today, balance, []);
    actions := SurplusRun(c, s, actions, g, today, balance, [sent]);
    var g2 := Record(g, amount, today);
    actions := SettleRun(c, s, actions, g2, today, balance, [sent, sent], 0);
    actions := SettleRun(c, s, actions, g2, today, c.min, [landed, sent], 1);
  }

  lemma LowerIsAllowed(cap: Cap, lower: int, total: int)
    requires lower <= total && !OverCap(cap, total)
    ensures !OverCap(cap, lower)
  {
  }

  /** Transfer `k` is about to land and leave less than the minimum. */
  predicate LandsShort(c: Config, s: State, k: nat) {
    PendingAt(s, k) && s.transfers[k].amount <= s.balance && SettleStep(s, k).balance < c.min
  }

  /** In no run without another debit does a transfer that lands undercut the minimum. */
  ghost predicate MinimumSafe(c: Config) {
    forall guard: Guard, today: nat, balance: int, actions, k: nat | WellFormed(guard.log, today) && NoDebit(actions) ::
      !LandsShort(c, Exec(c, Init(guard, today, balance), actions), k)
  }

  /** One stroop swept twice: the first transfer outlives its poll, and midnight clears the day's total. */
  lemma SweptTwice(c: Config) returns (actions: seq<Action>)
    requires c.advisory && !OverCap(c.cap, 1)
    ensures NoDebit(actions)
    ensures var t := Exec(c, Init(EMPTY, 0, c.min + 1), actions);
            t.transfers == [Transfer(1, Pending), Transfer(1, Pending)] && t.balance == c.min + 1
  {
    var s, g := Init(EMPTY, 0, c.min + 1), Record(EMPTY, 1, 0);
    var sent := Transfer(1, Pending);
    SpentOfOne(1, 0);
    QuietStart(c, 0, c.min + 1);
    assert g.haltedAt == None;
    hide Exec, SpentSince, OverCap, NoDebit, Record, Init;
    actions := SurplusRun(c, s, [], EMPTY, 0, c.min + 1, []);
    actions := TickRun(c, s, actions, g, 0, c.min + 1, [sent]);
    actions := SurplusRun(c, s, actions, g, 1, c.min + 1, [sent]);
  }

  lemma SecondSweepUndercuts(c: Config) returns (actions: seq<Action>)
    requires c.advisory && c.min >= 1 && !OverCap(c.cap, 1)
    ensures NoDebit(actions) && LandsShort(c, Exec(c, Init(EMPTY, 0, c.min + 1), actions), 1)
  {
    hide Exec;
    actions := SweptTwice(c);
    actions := Do(c, Init(EMPTY, 0, c.min + 1), actions, Settle(0));
  }

  /**
   Under the lock every transfer that lands leaves the minimum behind, in every run without another
   debit, if and only if the minimum is not positive or the cap is too low for a single stroop.
   */
  lemma MinimumSafeIff(c: Config)
    requires c.advisory
    ensures MinimumSafe(c) <==> c.min <= 0 || OverCap(c.cap, 1)
  {
    if c.min <= 0 || OverCap(c.cap, 1) {
      forall guard: Guard, today: nat, balance: int, actions, k: nat | WellFormed(guard.log, today) && NoDebit(actions)
        ensures !LandsShort(c, Exec(c, Init(guard, today, balance), actions), k)
      {
        if OverCap(c.cap, 1) {
          NothingPassesALowCap(c, guard, today, balance, actions);
        }
      }
    } else {
      var actions := SecondSweepUndercuts(c);
      assert WellFormed(EMPTY.log, 0);
      assert LandsShort(c, Exec(c, Init(EMPTY, 0, c.min + 1), actions), 1);
    }
  }

  // ---- halt and resume ----

  /** A sweep that would pass the cap halts, after any run: until the admin resumes, nothing more is logged. */
  lemma BreachStopsAll(c: Config, g0: Guard, today0: nat, balance0: int, before: seq<Action>)
    returns (breach: seq<Action>)
    requires c.advisory && WellFormed(g0.log, today0)
    requires var t := Exec(c, Init(g0, today0, balance0), before);
             && t.lock == None && t.guard.haltedAt.None?
             && t.balance > c.min && !WithinCap(c.cap, SpentOn(t.guard.log, t.today) + t.balance - c.min)
    ensures var t, u := Exec(c, Init(g0, today0, balance0), before), Exec(c, Init(g0, today0, balance0), breach);
            u.guard.haltedAt == Some(t.today) && u.guard.log == t.guard.log && u.transfers == t.transfers
    ensures forall after | Resume !in after ::
              Exec(c, Init(g0, today0, balance0), breach + after).guard.log
              == Exec(c, Init(g0, today0, balance0), before).guard.log
  {
    var s := Init(g0, today0, balance0);
    var t := Exec(c, s, before);
    var w := World(true, 2, t.today, false);
    RunKeepsWellFormed(c, g0, today0, balance0, before);
    BreachHalts(c.cap, w, t.guard, t.balance - c.min);
    SweepSendsIff(c, w, t.guard, Some(t.balance));
    SweepChecks(c, w, t.guard, t.balance);
    hide Exec, SweepOnce, Check, SpentOn, WithinCap, WellFormed;
    breach := AnotherSweep(c, w, s, before);
    forall after | Resume !in after ensures Exec(c, s, breach + after).guard.log == t.guard.log {
      HaltIsSticky(c, g0, today0, balance0, breach, after);
    }
  }

  lemma SweepChecks(c: Config, w: World, g: Guard, balance: int)
    requires balance > c.min
    ensures SweepOnce(c, w, g, Some(balance)).0 == Check(c.cap, w, g, balance - c.min).0
  {
  }

  /**
   The admin resumes after any run: no halt is left, the log is as it was, and the next sweep with a surplus
   within what is left of the day's cap logs and sends it, on top of what the day had logged before.
   */
  lemma ResumeReopens(c: Config, g0: Guard, today0: nat, balance0: int, before: seq<Action>)
    returns (sweep: seq<Action>)
    requires c.advisory && WellFormed(g0.log, today0)
    requires var t := Exec(c, Init(g0, today0, balance0), before);
             && t.lock == None && t.balance > c.min
             && WithinCap(c.cap, SpentOn(t.guard.log, t.today) + t.balance - c.min)
    ensures var t := Exec(c, Init(g0, today0, balance0), before);
            var r := Exec(c, Init(g0, today0, balance0), before + [Resume]);
            r.guard.haltedAt == None && r.guard.haltReason == None && r.guard.log == t.guard.log
    ensures var t, u := Exec(c, Init(g0, today0, balance0), before), Exec(c, Init(g0, today0, balance0), sweep);
            var amount := t.balance - c.min;
            && u.guard.log == t.guard.log + [Entry(amount, t.today)]
            && u.transfers == t.transfers + [Transfer(amount, Pending)]
            && SpentOn(u.guard.log, t.today) == SpentOn(t.guard.log, t.today) + amount
  {
    var s := Init(g0, today0, balance0);
    var t := Exec(c, s, before);
    var amount := t.balance - c.min;
    RunKeepsWellFormed(c, g0, today0, balance0, before);
    var resumed := ResumeStored(c, s, before);
    RecordAdds(t.guard, amount, t.today, t.today);
    RecordedLog(t.guard, amount, t.today);
    hide Exec, SpentOn, WithinCap, WellFormed, Record;
    sweep := RoomyRun(c, s, resumed);
  }

  lemma ResumeStored(c: Config, s: State, before: seq<Action>) returns (resumed: seq<Action>)
    ensures resumed == before + [Resume]
    ensures var t := Exec(c, s, before); Exec(c, s, resumed) == t.(guard := Guard(t.guard.log, None, None))
  {
    resumed := Do(c, s, before, Resume);
  }

  /** The log after a record depends on the log before it alone. */
  lemma RecordedLog(g: Guard, amount: int, day: nat)
    ensures Record(g, amount, day).log == g.log + [Entry(amount, day)]
    ensures Record(Guard(g.log, None, None), amount, day).log == g.log + [Entry(amount, day)]
  {
  }

  /** With nothing halted and room under the cap, the next sweep logs and sends its surplus. */
  lemma RoomyRun(c: Config, s: State, before: seq<Action>) returns (actions: seq<Action>)
    requires c.advisory
    requires var t := Exec(c, s, before);
             && t.lock == None && t.guard.haltedAt == None && WellFormed(t.guard.log, t.today) && t.balance > c.min
             && WithinCap(c.cap, SpentOn(t.guard.log, t.today) + t.balance - c.min)
    ensures var t, u := Exec(c, s, before), Exec(c, s, actions);
            && u.guard.log == Record(t.guard, t.balance - c.min, t.today).log
            && u.transfers == t.transfers + [Transfer(t.balance - c.min, Pending)]
  {
    var t := Exec(c, s, before);
    var w := World(true, 2, t.today, false);
    RoomySweep(c, w, t.guard, t.balance);
    hide Exec, Step, SpentOn, WithinCap, WellFormed, Record, SweepOnce;
    actions := AnotherSweep(c, w, s, before);
  }

  lemma RoomySweep(c: Config, w: World, g: Guard, balance: int)
    requires w.readable && w.writes > 0 && !w.midnight
    requires g.haltedAt == None && WellFormed(g.log, w.today) && balance > c.min
    requires WithinCap(c.cap, SpentOn(g.log, w.today) + balance - c.min)
    ensures var (after, moved) := SweepOnce(c, w, g, Some(balance));
            after.log == Record(g, balance - c.min, w.today).log && moved == Some(balance - c.min)
  {
    SweepSendsIff(c, w, g, Some(balance));
    hide Check, WithinCap, SpentOn, SpentSince, WellFormed;
  }
}
