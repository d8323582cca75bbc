/**
 The watch loop as a machine: a growing ledger, the payments table, the stored
 cursor, one reconciler process that may crash between any two statements, and
 admins whose rewinds check first and write later.
 */
module Reconciler {
  import opened Common
  import opened ReconcilerOps
  import opened Payments

  datatype Cursor = Now | At(token: nat)

  /**
   `Priced`: the first operation of the batch has its row, which is not yet inserted.
   `Committed`: it is recorded, the cursor not yet advanced.
   */
  datatype Proc =
    | Stopped
    | Resolved(head: nat)
    | Watching(cursor: nat, batch: seq<Op>)
    | Priced(cursor: nat, batch: seq<Op>, row: Payment)
    | Committed(cursor: nat, batch: seq<Op>)

  /** `base` is the first numeric cursor stored, `high` the highest ever held, in memory or stored. */
  datatype State = State(
    ledger: seq<Op>, payments: seq<Payment>, stored: Cursor, proc: Proc,
    rewinds: map<nat, Cursor>, base: Option<nat>, high: nat)

  datatype ProcAction = Start | StoreHead | Poll | Handle(ctx: Ctx) | Insert | Advance | Crash

  datatype Action =
    | Append(op: Op)
    | Run(step: ProcAction)
    | CheckRewind(admin: nat, target: Cursor)
    | WriteRewind(admin: nat)
    | SetStatus(token: nat, status: Status)

  /** A rewind target as the admin types it; anything but digits or `now` is malformed. */
  datatype Target = BadCursor | Valid(cursor: Cursor)

  datatype RewindError = MalformedCursor | NowFromReal | Forward

  /** assertNotForward: None where the target is let through. */
  function AssertNotForward(current: Cursor, target: Target): Option<RewindError> {
    if target.BadCursor? then Some(MalformedCursor)
    else if current.Now? then None
    else if target.cursor.Now? then Some(NowFromReal)
    else if target.cursor.token > current.token then Some(Forward)
    else None
  }

  /** The admin's text: `now`, or digits and nothing else. */
  function ParseTarget(text: string): Target {
    if text == "now" then Valid(Now)
    else if text != [] && Digits(text).Some? then Valid(At(Digits(text).value))
    else BadCursor
  }

  /** Rendered tokens and `now` are read back; anything else that is not all digits is malformed. */
  lemma TargetsRead(token: nat, text: string)
    ensures ParseTarget("now") == Valid(Now) && ParseTarget(Rendered(token)) == Valid(At(token))
    ensures ParseTarget(text) == BadCursor <==>
            text != "now" && (text == [] || exists i | 0 <= i < |text| :: !IsDigit(text[i]))
  {
    DigitsRendered(token);
    DigitsIff(text);
    DigitsIff(Rendered(token));
    var c := Rendered(token)[0];
    assert IsDigit(c) && "now"[0] == 'n' && c != 'n';
  }

  /** Which targets are let through: from `now` any, from a position that position and every earlier one. */
  lemma LetThroughIff(current: Cursor, target: Target)
    ensures AssertNotForward(current, target).None? <==>
            target.Valid? && (current.Now? || (target.cursor.At? && target.cursor.token <= current.token))
    ensures AssertNotForward(current, target) == Some(MalformedCursor) <==> target.BadCursor?
    ensures AssertNotForward(current, target) == Some(Forward) <==>
            target.Valid? && current.At? && target.cursor.At? && target.cursor.token > current.token
  {
  }

  function Pass(s: State, token: nat, batch: seq<Op>): State {
    s.(proc := Watching(token, batch), high := Max(s.high, token))
  }

  function RunStep(decode: Decoder, s: State, a: ProcAction): State {
    match a
    case Start =>
      if s.proc.Stopped? then
        s.(proc := match s.stored case Now => Resolved(Head(s.ledger)) case At(c) => Watching(c, []))
      else s
    case StoreHead =>
      if s.proc.Resolved? then
        var head := s.proc.head;
        s.(stored := At(head), proc := Watching(head, []), high := Max(s.high, head),
           base := if s.base.None? then Some(head) else s.base)
      else s
    case Poll =>
      if s.proc.Watching? && s.proc.batch == []
      then s.(proc := Watching(s.proc.cursor, Page(s.ledger, s.proc.cursor))) else s
    case Handle(ctx) =>
      if s.proc.Watching? && s.proc.batch != [] then
        var op := s.proc.batch[0];
        if !Matchable(decode, op) then Pass(s, op.token, s.proc.batch[1..])
        else match Quote(decode, ctx, s.payments, op)
          case Some(row) => s.(proc := Priced(s.proc.cursor, s.proc.batch, row))
          case None => s.(proc := Stopped)
      else s
    case Insert =>
      if s.proc.Priced? then
        match InsertRow(s.payments, s.proc.row)
        case Inserted(ps) => s.(payments := ps, proc := Committed(s.proc.cursor, s.proc.batch))
        case Seen => s.(proc := Committed(s.proc.cursor, s.proc.batch))
        case Failed => s.(proc := Stopped)
      else s
    case Advance =>
      if s.proc.Committed? && s.proc.batch != [] then
        var token := s.proc.batch[0].token;
        Pass(s, token, s.proc.batch[1..]).(stored := At(token))
      else s
    case Crash => s.(proc := Stopped)
  }

  /** The rewind's UPDATE; the cursor's row is there from the migration on. */
  function RewindTo(s: State, target: Cursor): State {
    match target
    case Now => s.(stored := Now)
    case At(token) =>
      s.(stored := target, high := Max(s.high, token), base := if s.base.None? then Some(token) else s.base)
  }

  /** One step; a step that is not enabled changes nothing. */
  function Step(decode: Decoder, s: State, a: Action): State {
    match a
    case Append(op) => if Head(s.ledger) < op.token then s.(ledger := s.ledger + [op]) else s
    case Run(step) => RunStep(decode, s, step)
    case CheckRewind(admin, target) =>
      if AssertNotForward(s.stored, Valid(target)).None? then s.(rewinds := s.rewinds[admin := target]) else s
    case WriteRewind(admin) =>
      if admin in s.rewinds then RewindTo(s, s.rewinds[admin]).(rewinds := s.rewinds - {admin}) else s
    case SetStatus(token, status) => s.(payments := WithStatus(s.payments, token, status))
  }

  function Exec(decode: Decoder, s: State, actions: seq<Action>): State {
    if actions == [] then s else Step(decode, Exec(decode, s, actions[..|actions| - 1]), actions[|actions| - 1])
  }

  function Init(): State {
    State([], [], Now, Stopped, map[], None, 0)
  }

  // ---- the invariant ----

  predicate AtWork(p: Proc) {
    p.Watching? || p.Priced? || p.Committed?
  }

  /** Before the first numeric cursor: nothing recorded, nothing rewound. */
  predicate FreshOk(s: State) {
    && s.stored == Now && s.high == 0 && s.rewinds == map[] && s.payments == [] && !AtWork(s.proc)
    && (s.proc.Resolved? ==> s.proc.head <= Head(s.ledger))
  }

  /** After it: no cursor, stored, in memory or in an admin's hands, is above the highest one held. */
  predicate CursorsOk(s: State, base: nat) {
    && base <= s.high && s.stored.At? && s.stored.token <= s.high && !s.proc.Resolved?
    && (forall admin | admin in s.rewinds :: s.rewinds[admin].At? && s.rewinds[admin].token <= s.high)
    && (AtWork(s.proc) ==> s.proc.cursor <= s.high && Window(s.ledger, s.proc.cursor, s.proc.batch))
  }

  /** The matchable operations of ledger[lo..hi] are all in the table. */
  predicate Covered(decode: Decoder, ledger: seq<Op>, payments: seq<Payment>, lo: nat, hi: nat) {
    forall i | lo <= i < hi && i < |ledger| && Matchable(decode, ledger[i]) :: ledger[i].token in Tokens(payments)
  }

  /** A priced row is that of the operation at hand; a committed operation is in the table. */
  predicate CommittedOk(decode: Decoder, s: State) {
    && (s.proc.Priced? || s.proc.Committed? ==> s.proc.batch != [] && Matchable(decode, s.proc.batch[0]))
    && (s.proc.Priced? ==>
          var op := s.proc.batch[0];
          s.proc.row.token == op.token && s.proc.row.muxedId == AsI64(SessionId(decode, op).value))
    && (s.proc.Committed? ==> s.proc.batch[0].token in Tokens(s.payments))
  }

  predicate Inv(decode: Decoder, s: State) {
    && Sorted(s.ledger) && s.high <= Head(s.ledger)
    && UniqueRows(s.payments) && CommittedOk(decode, s)
    && match s.base
       case None => FreshOk(s)
       case Some(b) => CursorsOk(s, b) && Covered(decode, s.ledger, s.payments, Pos(s.ledger, b), Pos(s.ledger, s.high))
  }

  lemma AppendKeepsCursors(s: State, base: nat, op: Op)
    requires Sorted(s.ledger) && s.high <= Head(s.ledger) < op.token && CursorsOk(s, base)
    ensures CursorsOk(s.(ledger := s.ledger + [op]), base)
  {
    if AtWork(s.proc) {
      WindowAppend(s.ledger, op, s.proc.cursor, s.proc.batch);
    }
  }

  lemma AppendKeepsCovered(decode: Decoder, ledger: seq<Op>, payments: seq<Payment>, base: nat, high: nat, op: Op)
    requires Sorted(ledger) && base <= high <= Head(ledger) < op.token
    requires Covered(decode, ledger, payments, Pos(ledger, base), Pos(ledger, high))
    ensures Covered(decode, ledger + [op], payments, Pos(ledger + [op], base), Pos(ledger + [op], high))
  {
    PosAppend(ledger, op, base);
    PosAppend(ledger, op, high);
  }

  lemma AppendKeepsInv(decode: Decoder, s: State, op: Op)
    requires Inv(decode, s) && Head(s.ledger) < op.token
    ensures Inv(decode, s.(ledger := s.ledger + [op]))
  {
    PosAppend(s.ledger, op, 0);
    if s.base.Some? {
      AppendKeepsCursors(s, s.base.value, op);
      AppendKeepsCovered(decode, s.ledger, s.payments, s.base.value, s.high, op);
    }
  }

  /** Moving past one operation keeps the coverage when that operation is unmatchable or recorded. */
  lemma PassKeepsInv(decode: Decoder, s: State)
    requires Inv(decode, s) && AtWork(s.proc) && s.proc.batch != []
    requires Matchable(decode, s.proc.batch[0]) ==> s.proc.batch[0].token in Tokens(s.payments)
    ensures var t := Pass(s, s.proc.batch[0].token, s.proc.batch[1..]);
            Inv(decode, t) && Inv(decode, t.(stored := At(s.proc.batch[0].token)))
  {
    WindowHead(s.ledger, s.proc.cursor, s.proc.batch);
    PosMonotone(s.ledger, s.proc.cursor, s.high);
  }

  lemma InsertKeepsInv(decode: Decoder, s: State)
    requires Inv(decode, s) && s.proc.Priced?
    ensures Inv(decode, RunStep(decode, s, Insert))
  {
    var row := s.proc.row;
    if InsertRow(s.payments, row).Inserted? {
      InsertKeepsUnique(s.payments, row);
      InsertAddsKeys(s.payments, row);
    }
  }

  lemma HandleKeepsInv(decode: Decoder, s: State, ctx: Ctx)
    requires Inv(decode, s)
    ensures Inv(decode, RunStep(decode, s, Handle(ctx)))
  {
    if s.proc.Watching? && s.proc.batch != [] {
      var op := s.proc.batch[0];
      if !Matchable(decode, op) {
        PassKeepsInv(decode, s);
      } else if Quote(decode, ctx, s.payments, op).Some? {
        QuoteKeys(decode, ctx, s.payments, op);
      }
    }
  }

  lemma StartKeepsInv(decode: Decoder, s: State, a: ProcAction)
    requires Inv(decode, s) && (a.Start? || a.StoreHead?)
    ensures Inv(decode, RunStep(decode, s, a))
  {
    if s.proc.Resolved? {
      PageIsWindow(s.ledger, s.proc.head);
    } else if s.stored.At? {
      PageIsWindow(s.ledger, s.stored.token);
    }
  }

  lemma ProcStepKeepsInv(decode: Decoder, s: State, a: ProcAction)
    requires Inv(decode, s)
    ensures Inv(decode, RunStep(decode, s, a))
  {
    match a
    case Handle(ctx) => HandleKeepsInv(decode, s, ctx);
    case Insert => if s.proc.Priced? { InsertKeepsInv(decode, s); }
    case Advance => if s.proc.Committed? { PassKeepsInv(decode, s); }
    case Poll => if s.proc.Watching? { PageIsWindow(s.ledger, s.proc.cursor); }
    case Start => StartKeepsInv(decode, s, a);
    case StoreHead => StartKeepsInv(decode, s, a);
    case Crash =>
  }

  /** A rewind's check reads a numeric cursor. */
  predicate Numeric(s: State, a: Action) {
    a.CheckRewind? ==> s.stored.At?
  }

  predicate NumericFrom(decode: Decoder, s: State, actions: seq<Action>) {
    actions == [] ||
    (var n := |actions| - 1;
     NumericFrom(decode, s, actions[..n]) && Numeric(Exec(decode, s, actions[..n]), actions[n]))
  }

  predicate NumericRewinds(decode: Decoder, actions: seq<Action>) {
    NumericFrom(decode, Init(), actions)
  }

  lemma StepKeepsInv(decode: Decoder, s: State, a: Action)
    requires Inv(decode, s) && Numeric(s, a)
    ensures Inv(decode, Step(decode, s, a))
  {
    match a
    case Append(op) => if Head(s.ledger) < op.token { AppendKeepsInv(decode, s, op); }
    case Run(step) => ProcStepKeepsInv(decode, s, step);
    case SetStatus(token, status) => StatusKeepsKeys(s.payments, token, status);
    case _ =>
  }

  lemma {:induction false} RunKeepsInv(decode: Decoder, actions: seq<Action>)
    requires NumericRewinds(decode, actions)
    ensures Inv(decode, Exec(decode, Init(), actions))
  {
    if actions != [] {
      RunKeepsInv(decode, actions[..|actions| - 1]);
      StepKeepsInv(decode, Exec(decode, Init(), actions[..|actions| - 1]), actions[|actions| - 1]);
    }
  }

  /** An admin who rewinds to an earlier position gets it: checked and written, it is where the next start resumes. */
  lemma RewindIsServed(decode: Decoder, s: State, admin: nat, token: nat)
    requires s.stored.At? && token <= s.stored.token
    ensures var t := Step(decode, Step(decode, s, CheckRewind(admin, At(token))), WriteRewind(admin));
            && t.stored == At(token) && t.payments == s.payments && t.ledger == s.ledger
            && Step(decode, t.(proc := Stopped), Run(Start)).proc == Watching(token, [])
  {
  }

  // ---- no skip, no double ----

  predicate RecordedOnce(payments: seq<Payment>, token: nat) {
    exists i | 0 <= i < |payments| ::
      payments[i].token == token && forall j | 0 <= j < |payments| && payments[j].token == token :: j == i
  }

  /** Each matchable operation past the first numeric cursor and up to the highest is in the table exactly once. */
  predicate NothingSkipped(decode: Decoder, s: State) {
    s.base.Some? ==>
      forall i | 0 <= i < |s.ledger| && s.base.value < s.ledger[i].token <= s.high && Matchable(decode, s.ledger[i]) ::
        RecordedOnce(s.payments, s.ledger[i].token)
  }

  /** In every run, whatever crashes, fails and is rewound, if each rewind's check read a numeric cursor. */
  lemma NoSkipNoDouble(decode: Decoder, actions: seq<Action>)
    requires NumericRewinds(decode, actions)
    ensures NothingSkipped(decode, Exec(decode, Init(), actions))
  {
    RunKeepsInv(decode, actions);
    var s := Exec(decode, Init(), actions);
    if s.base.Some? {
      PosSplits(s.ledger, s.base.value);
      PosSplits(s.ledger, s.high);
      forall i | 0 <= i < |s.ledger| && s.base.value < s.ledger[i].token <= s.high && Matchable(decode, s.ledger[i])
        ensures RecordedOnce(s.payments, s.ledger[i].token)
      {
        TokenHasOneRow(s.payments, s.ledger[i].token);
      }
    }
  }

  lemma TokenHasOneRow(payments: seq<Payment>, token: nat)
    requires UniqueRows(payments) && token in Tokens(payments)
    ensures RecordedOnce(payments, token)
  {
    var p :| p in payments && p.token == token;
    var i :| 0 <= i < |payments| && payments[i] == p;
    forall j | 0 <= j < |payments| && payments[j].token == token ensures j == i {
    }
  }

  // ---- exactly the rewinds that read a numeric cursor are safe ----

  lemma {:induction false} ExecAppend(decode: Decoder, s: State, first: seq<Action>, second: seq<Action>)
    ensures Exec(decode, s, first + second) == Exec(decode, Exec(decode, s, first), second)
  {
    hide Step;
    if second == [] {
      assert first + second == first;
    } else {
      var n, all := |second| - 1, first + second;
      assert all[..|all| - 1] == first + second[..n] && all[|all| - 1] == second[n];
      ExecAppend(decode, s, first, second[..n]);
    }
  }

  lemma {:induction false} NumericAppend(decode: Decoder, s: State, first: seq<Action>, second: seq<Action>)
    requires NumericFrom(decode, s, first) && NumericFrom(decode, Exec(decode, s, first), second)
    ensures NumericFrom(decode, s, first + second)
  {
    hide Exec, Numeric;
    if second == [] {
      assert first + second == first;
    } else {
      var n, all := |second| - 1, first + second;
      assert all[..|all| - 1] == first + second[..n] && all[|all| - 1] == second[n];
      NumericAppend(decode, s, first, second[..n]);
      ExecAppend(decode, s, first, second[..n]);
    }
  }

  /** One more action that checks no rewind. */
  lemma Do(decode: Decoder, s: State, actions: seq<Action>, a: Action) returns (more: seq<Action>)
    requires NumericFrom(decode, s, actions) && !a.CheckRewind?
    ensures more == actions + [a] && NumericFrom(decode, s, more)
    ensures Exec(decode, s, more) == Step(decode, Exec(decode, s, actions), a)
  {
    more := actions + [a];
    assert more[..|more| - 1] == actions;
  }

  // What each step does where it is enabled.

  lemma AppendGrows(decode: Decoder, s: State, op: Op)
    requires Head(s.ledger) < op.token
    ensures Step(decode, s, Append(op)) == s.(ledger := s.ledger + [op])
  {
  }

  lemma PollFetches(decode: Decoder, s: State)
    requires s.proc.Watching? && s.proc.batch == []
    ensures Step(decode, s, Run(Poll)) == s.(proc := Watching(s.proc.cursor, Page(s.ledger, s.proc.cursor)))
  {
  }

  lemma HandlePasses(decode: Decoder, s: State, ctx: Ctx)
    requires s.proc.Watching? && s.proc.batch != [] && !Matchable(decode, s.proc.batch[0])
    ensures var token := s.proc.batch[0].token;
            Step(decode, s, Run(Handle(ctx))) ==
            s.(proc := Watching(token, s.proc.batch[1..]), high := Max(s.high, token))
  {
  }

  lemma HandlePrices(decode: Decoder, s: State, ctx: Ctx, row: Payment)
    requires s.proc.Watching? && s.proc.batch != [] && Matchable(decode, s.proc.batch[0])
    requires Quote(decode, ctx, s.payments, s.proc.batch[0]) == Some(row)
    ensures Step(decode, s, Run(Handle(ctx))) == s.(proc := Priced(s.proc.cursor, s.proc.batch, row))
  {
  }

  lemma HandleStops(decode: Decoder, s: State, ctx: Ctx)
    requires s.proc.Watching? && s.proc.batch != [] && Matchable(decode, s.proc.batch[0])
    requires Quote(decode, ctx, s.payments, s.proc.batch[0]).None?
    ensures Step(decode, s, Run(Handle(ctx))) == s.(proc := Stopped)
  {
  }

  lemma InsertStops(decode: Decoder, s: State)
    requires s.proc.Priced? && InsertRow(s.payments, s.proc.row).Failed?
    ensures Step(decode, s, Run(Insert)) == s.(proc := Stopped)
  {
  }

  lemma InsertCommits(decode: Decoder, s: State, ps: seq<Payment>)
    requires s.proc.Priced?
    requires InsertRow(s.payments, s.proc.row) == Inserted(ps)
             || (InsertRow(s.payments, s.proc.row).Seen? && ps == s.payments)
    ensures Step(decode, s, Run(Insert)) == s.(payments := ps, proc := Committed(s.proc.cursor, s.proc.batch))
  {
  }

  lemma AdvancePasses(decode: Decoder, s: State)
    requires s.proc.Committed? && s.proc.batch != []
    ensures var token := s.proc.batch[0].token;
            Step(decode, s, Run(Advance)) ==
            s.(stored := At(token), proc := Watching(token, s.proc.batch[1..]), high := Max(s.high, token))
  {
  }

  /** A payment with the id memo 1 is matchable under any decoder. */
  function SomePayment(token: nat): Op {
    Op(token, "payment", Some(Memo(Some("id"), Some(Rendered(1)))), None, None, None, None, None, None, Absent)
  }

  lemma SomePaymentIsMatchable(decode: Decoder, token: nat)
    ensures Matchable(decode, SomePayment(token))
  {
    ParseRendered(1);
  }

  /** `s` with its process at the head, resolved but not yet stored. */
  lemma Restarted(decode: Decoder, s: State) returns (actions: seq<Action>)
    requires s.stored.Now?
    ensures NumericFrom(decode, s, actions) && Exec(decode, s, actions) == s.(proc := Resolved(Head(s.ledger)))
  {
    assert Exec(decode, s, []) == s;
    hide Exec, NumericFrom;
    assert NumericFrom(decode, s, []) by { NoActions(decode, s); }
    actions := Do(decode, s, [], Run(Crash));
    actions := Do(decode, s, actions, Run(Start));
  }

  lemma NoActions(decode: Decoder, s: State)
    ensures NumericFrom(decode, s, []) && Exec(decode, s, []) == s
  {
  }

  /** A payment past the base, not past the highest cursor, and nothing recorded. */
  lemma SkipShown(decode: Decoder, s: State, ledger: seq<Op>, token: nat)
    requires s.ledger == ledger + [SomePayment(token)] && s.payments == []
    requires s.base.Some? && s.base.value < token <= s.high
    ensures !NothingSkipped(decode, s)
  {
    SomePaymentIsMatchable(decode, token);
    hide Matchable;
    assert s.ledger[|ledger|] == SomePayment(token) && !RecordedOnce(s.payments, token);
  }

  /** Nothing stored, recorded or polled yet. */
  predicate Unstarted(s: State) {
    s.stored.Now? && s.base.None? && s.high == 0 && s.payments == []
  }

  /** What a skip needs of a state: its ledger, its base and its highest cursor. */
  predicate Reached(s: State, ledger: seq<Op>, base: nat, high: nat) {
    s.ledger == ledger && s.payments == [] && s.base == Some(base) && s.high == high
  }

  /** The reconciler stores its start, and a payment comes in behind it. */
  lemma StartedAndPaid(decode: Decoder, s: State) returns (actions: seq<Action>)
    requires Unstarted(s)
    ensures NumericFrom(decode, s, actions)
    ensures var t, head := Exec(decode, s, actions), Head(s.ledger);
            Reached(t, s.ledger + [SomePayment(head + 1)], head, head) && t.rewinds == s.rewinds
  {
    hide Exec, NumericFrom, SomePayment;
    actions := Restarted(decode, s);
    actions := Do(decode, s, actions, Run(StoreHead));
    actions := Do(decode, s, actions, Append(SomePayment(Head(s.ledger) + 1)));
    SomePaymentIsHead(s.ledger, Head(s.ledger) + 1);
  }

  lemma SomePaymentIsHead(ledger: seq<Op>, token: nat)
    ensures SomePayment(token).token == token && Head(ledger + [SomePayment(token)]) == token
  {
  }

  /** A payment comes in, and the reconciler resolves the head behind it. */
  lemma PaidAndResolved(decode: Decoder, s: State) returns (actions: seq<Action>)
    requires s.stored.Now?
    ensures NumericFrom(decode, s, actions)
    ensures var head := Head(s.ledger);
            Exec(decode, s, actions) ==
            s.(ledger := s.ledger + [SomePayment(head + 1)], proc := Resolved(head + 1))
  {
    var op := SomePayment(Head(s.ledger) + 1);
    NoActions(decode, s);
    hide Exec, NumericFrom;
    var first := Do(decode, s, [], Append(op));
    var more := Restarted(decode, s.(ledger := s.ledger + [op]));
    ExecAppend(decode, s, first, more);
    NumericAppend(decode, s, first, more);
    actions := first + more;
  }

  /** Past the head: the rewind lands after the reconciler has stored its start, and jumps over what came since. */
  lemma ForwardRewindSkips(decode: Decoder, s: State, admin: nat, token: nat) returns (rest: seq<Action>)
    requires Unstarted(s) && admin in s.rewinds && s.rewinds[admin] == At(token) && token > Head(s.ledger)
    ensures NumericFrom(decode, s, rest) && !NothingSkipped(decode, Exec(decode, s, rest))
  {
    var head := Head(s.ledger);
    hide Exec, NumericFrom, NothingSkipped, SomePayment, Head, Step;
    rest := StartedAndPaid(decode, s);
    WriteJumps(decode, Exec(decode, s, rest), admin, token, head);
    rest := Do(decode, s, rest, WriteRewind(admin));
    SkipShown(decode, Exec(decode, s, rest), s.ledger, head + 1);
  }

  lemma WriteJumps(decode: Decoder, s: State, admin: nat, token: nat, head: nat)
    requires Reached(s, s.ledger, head, head) && admin in s.rewinds && s.rewinds[admin] == At(token) && token > head
    ensures Reached(Step(decode, s, WriteRewind(admin)), s.ledger, head, token)
  {
  }

  /** The reconciler starts again from `now`, and stores a new head. */
  lemma StartedAgain(decode: Decoder, s: State, base: nat) returns (actions: seq<Action>)
    requires s.stored.Now? && Reached(s, s.ledger, base, base) && Head(s.ledger) > base
    ensures NumericFrom(decode, s, actions)
    ensures Reached(Exec(decode, s, actions), s.ledger, base, Head(s.ledger))
  {
    hide Exec, NumericFrom;
    actions := Restarted(decode, s);
    actions := Do(decode, s, actions, Run(StoreHead));
  }

  lemma WriteToNow(decode: Decoder, s: State, admin: nat, head: nat)
    requires Reached(s, s.ledger, head, head) && admin in s.rewinds && s.rewinds[admin].Now?
    ensures var t := Step(decode, s, WriteRewind(admin)); Reached(t, s.ledger, head, head) && t.stored.Now?
  {
  }

  /** To `now`: it lands there too, and the next start resolves a new head. */
  lemma RewindToNowSkips(decode: Decoder, s: State, admin: nat) returns (rest: seq<Action>)
    requires Unstarted(s) && admin in s.rewinds && s.rewinds[admin].Now?
    ensures NumericFrom(decode, s, rest) && !NothingSkipped(decode, Exec(decode, s, rest))
  {
    hide Exec, NumericFrom, NothingSkipped, SomePayment, Head, Step;
    var head := Head(s.ledger);
    SomePaymentIsHead(s.ledger, head + 1);
    var first := StartedAndPaid(decode, s);
    WriteToNow(decode, Exec(decode, s, first), admin, head);
    first := Do(decode, s, first, WriteRewind(admin));
    var more := StartedAgain(decode, Exec(decode, s, first), head);
    ExecAppend(decode, s, first, more);
    NumericAppend(decode, s, first, more);
    rest := first + more;
    SkipShown(decode, Exec(decode, s, rest), s.ledger, head + 1);
  }

  /** Before it: the reconciler's own start overwrites the rewind, and what lies between is skipped. */
  lemma OverwrittenRewindSkips(decode: Decoder, s: State, admin: nat, token: nat) returns (rest: seq<Action>)
    requires Unstarted(s) && admin in s.rewinds && s.rewinds[admin] == At(token) && token <= Head(s.ledger)
    ensures NumericFrom(decode, s, rest) && !NothingSkipped(decode, Exec(decode, s, rest))
  {
    var head := Head(s.ledger);
    hide Exec, NumericFrom, NothingSkipped, SomePayment, Head, Step;
    rest := PaidAndResolved(decode, s);
    WriteIsOverwritten(decode, Exec(decode, s, rest), admin, token, head + 1);
    rest := Do(decode, s, rest, WriteRewind(admin));
    rest := Do(decode, s, rest, Run(StoreHead));
    SkipShown(decode, Exec(decode, s, rest), s.ledger, head + 1);
  }

  lemma WriteIsOverwritten(decode: Decoder, s: State, admin: nat, token: nat, head: nat)
    requires Unstarted(s) && admin in s.rewinds && s.rewinds[admin] == At(token) && token <= head
    requires s.proc == Resolved(head)
    ensures Reached(Step(decode, Step(decode, s, WriteRewind(admin)), Run(StoreHead)), s.ledger, token, head)
  {
  }

  /** Every later run whose own rewinds are checked at a numeric cursor skips nothing. */
  ghost predicate SafeAfter(decode: Decoder, actions: seq<Action>) {
    forall rest | NumericFrom(decode, Exec(decode, Init(), actions), rest) ::
      NothingSkipped(decode, Exec(decode, Init(), actions + rest))
  }

  /** A check that reads `now` lets any target through, and whatever it is, some later run skips a payment. */
  lemma RewindCheckedAtNowSkips(decode: Decoder, actions: seq<Action>, admin: nat, target: Cursor)
    requires NumericRewinds(decode, actions) && Exec(decode, Init(), actions).stored.Now?
    ensures !SafeAfter(decode, actions + [CheckRewind(admin, target)])
  {
    RunKeepsInv(decode, actions);
    var s := Exec(decode, Init(), actions);
    var checked := actions + [CheckRewind(admin, target)];
    assert checked[..|checked| - 1] == actions;
    var t := Exec(decode, Init(), checked);
    assert t == s.(rewinds := s.rewinds[admin := target]);
    var rest: seq<Action>;
    if target.Now? {
      rest := RewindToNowSkips(decode, t, admin);
    } else if target.token <= Head(t.ledger) {
      rest := OverwrittenRewindSkips(decode, t, admin, target.token);
    } else {
      rest := ForwardRewindSkips(decode, t, admin, target.token);
    }
    ExecAppend(decode, Init(), checked, rest);
  }

  /** So after any such run a rewind is safe if and only if its check reads a numeric cursor. */
  lemma RewindSafeIffNumeric(decode: Decoder, actions: seq<Action>, admin: nat, target: Cursor)
    requires NumericRewinds(decode, actions)
    ensures SafeAfter(decode, actions + [CheckRewind(admin, target)]) <==> Exec(decode, Init(), actions).stored.At?
  {
    if Exec(decode, Init(), actions).stored.Now? {
      RewindCheckedAtNowSkips(decode, actions, admin, target);
    } else {
      var checked := actions + [CheckRewind(admin, target)];
      assert checked[..|checked| - 1] == actions;
      forall rest | NumericFrom(decode, Exec(decode, Init(), checked), rest)
        ensures NothingSkipped(decode, Exec(decode, Init(), checked + rest))
      {
        NumericAppend(decode, Init(), checked, rest);
        NoSkipNoDouble(decode, checked + rest);
      }
    }
  }
}
