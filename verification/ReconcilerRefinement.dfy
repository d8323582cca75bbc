/**
 Crash refinement: in a fixed world, however often the reconciler crashes, restarts,
 replays or is rewound, the payments table equals a pure left fold over the
 matchable operations passed, fees included.
 */
module ReconcilerRefinement {
  import opened Common
  import opened ReconcilerOps
  import opened Payments
  import opened Reconciler

  /** What recording one operation makes of the table; an unmatchable, seen or failing one leaves it. */
  function RecordStep(decode: Decoder, ctx: Ctx, ps: seq<Payment>, op: Op): seq<Payment> {
    if !Matchable(decode, op) then ps
    else match RecordIfNew(decode, ctx, ps, op)
      case Inserted(ps') => ps'
      case _ => ps
  }

  /** The pure left fold: the table after ledger[lo..hi] in order, each operation once, starting from nothing. */
  function Fold(decode: Decoder, ctx: Ctx, ledger: seq<Op>, lo: nat, hi: nat): seq<Payment>
    requires hi <= |ledger|
  {
    if hi <= lo then [] else RecordStep(decode, ctx, Fold(decode, ctx, ledger, lo, hi - 1), ledger[hi - 1])
  }

  /** How far a table reaches past position `q`: one further if the operation there is recorded already. */
  function Front(ledger: seq<Op>, ps: seq<Payment>, q: nat): (k: nat)
    requires q <= |ledger|
    ensures q <= k <= q + 1 && k <= |ledger|
  {
    if q < |ledger| && ledger[q].token in Tokens(ps) then q + 1 else q
  }

  predicate TableAt(decode: Decoder, ctx: Ctx, ledger: seq<Op>, ps: seq<Payment>, lo: nat, q: nat) {
    lo <= q <= |ledger| && ps == Fold(decode, ctx, ledger, lo, Front(ledger, ps, q))
  }

  // ---- the table against the fold ----

  lemma RecordStepTokens(decode: Decoder, ctx: Ctx, ps: seq<Payment>, op: Op)
    ensures Tokens(RecordStep(decode, ctx, ps, op)) <= Tokens(ps) + (if Matchable(decode, op) then {op.token} else {})
  {
    if Matchable(decode, op) && RecordIfNew(decode, ctx, ps, op).Inserted? {
      RecordAddsToken(decode, ctx, ps, op);
    }
  }

  /** The fold records no operation outside its range and no unmatchable one. */
  lemma {:induction false} FoldOmits(decode: Decoder, ctx: Ctx, ledger: seq<Op>, lo: nat, hi: nat, j: nat)
    requires Sorted(ledger) && hi <= |ledger| && j < |ledger|
    requires j >= hi || !Matchable(decode, ledger[j])
    ensures ledger[j].token !in Tokens(Fold(decode, ctx, ledger, lo, hi))
  {
    hide RecordStep;
    if lo < hi {
      FoldOmits(decode, ctx, ledger, lo, hi - 1, j);
      RecordStepTokens(decode, ctx, Fold(decode, ctx, ledger, lo, hi - 1), ledger[hi - 1]);
    }
  }

  lemma {:induction false} FoldIgnoresLater(decode: Decoder, ctx: Ctx, ledger: seq<Op>, op: Op, lo: nat, hi: nat)
    requires hi <= |ledger|
    ensures Fold(decode, ctx, ledger + [op], lo, hi) == Fold(decode, ctx, ledger, lo, hi)
  {
    hide RecordStep;
    if lo < hi {
      FoldIgnoresLater(decode, ctx, ledger, op, lo, hi - 1);
    }
  }

  lemma TableStart(decode: Decoder, ctx: Ctx, ledger: seq<Op>, q: nat)
    requires q <= |ledger|
    ensures TableAt(decode, ctx, ledger, [], q, q)
  {
  }

  lemma TablePass(decode: Decoder, ctx: Ctx, ledger: seq<Op>, ps: seq<Payment>, lo: nat, q: nat)
    requires Sorted(ledger) && q < |ledger| && TableAt(decode, ctx, ledger, ps, lo, q)
    requires Matchable(decode, ledger[q]) ==> ledger[q].token in Tokens(ps)
    ensures TableAt(decode, ctx, ledger, ps, lo, q + 1)
  {
    hide RecordIfNew;
    if !Matchable(decode, ledger[q]) {
      FoldOmits(decode, ctx, ledger, lo, Front(ledger, ps, q), q);
      assert ps == Fold(decode, ctx, ledger, lo, q);
      assert RecordStep(decode, ctx, ps, ledger[q]) == ps;
    }
    assert ps == Fold(decode, ctx, ledger, lo, q + 1);
    if q + 1 < |ledger| {
      FoldOmits(decode, ctx, ledger, lo, q + 1, q + 1);
    }
  }

  lemma TableInsert(decode: Decoder, ctx: Ctx, ledger: seq<Op>, ps: seq<Payment>, lo: nat, q: nat)
    requires q < |ledger| && TableAt(decode, ctx, ledger, ps, lo, q) && ledger[q].token !in Tokens(ps)
    requires Matchable(decode, ledger[q]) && RecordIfNew(decode, ctx, ps, ledger[q]).Inserted?
    ensures TableAt(decode, ctx, ledger, RecordIfNew(decode, ctx, ps, ledger[q]).payments, lo, q)
  {
    hide RecordIfNew;
    RecordAddsToken(decode, ctx, ps, ledger[q]);
  }

  lemma TableAppend(decode: Decoder, ctx: Ctx, ledger: seq<Op>, ps: seq<Payment>, lo: nat, q: nat, op: Op)
    requires Sorted(ledger + [op]) && TableAt(decode, ctx, ledger, ps, lo, q)
    ensures TableAt(decode, ctx, ledger + [op], ps, lo, q)
  {
    hide RecordStep;
    var k := Front(ledger, ps, q);
    FoldIgnoresLater(decode, ctx, ledger, op, lo, k);
    FoldOmits(decode, ctx, ledger + [op], lo, k, |ledger|);
  }

  // ---- the machine ----

  /** One world: the same rate, blocklist, promo, clock verdict and reservations, and no later status write. */
  ghost predicate Allowed(ctx: Ctx, s: State, a: Action) {
    match a
    case Run(Handle(c)) => c == ctx
    case SetStatus(_, _) => false
    case CheckRewind(_, target) => s.base.Some? && (target.At? ==> s.base.value <= target.token)
    case _ => true
  }

  ghost predicate Steady(decode: Decoder, ctx: Ctx, actions: seq<Action>) {
    actions == [] ||
    (Steady(decode, ctx, actions[..|actions| - 1])
     && Allowed(ctx, Exec(decode, Init(), actions[..|actions| - 1]), actions[|actions| - 1]))
  }

  predicate AboveBase(s: State, base: nat) {
    && (s.stored.At? ==> base <= s.stored.token)
    && (forall admin | admin in s.rewinds && s.rewinds[admin].At? :: base <= s.rewinds[admin].token)
    && (AtWork(s.proc) ==> base <= s.proc.cursor)
  }

  /** Nothing has changed since the row was priced. */
  predicate QuoteOk(decode: Decoder, ctx: Ctx, s: State) {
    s.proc.Priced? ==>
      && s.proc.batch != [] && Matchable(decode, s.proc.batch[0])
      && Quote(decode, ctx, s.payments, s.proc.batch[0]) == Some(s.proc.row)
  }

  predicate Refines(decode: Decoder, ctx: Ctx, s: State) {
    s.base.Some? ==>
      && AboveBase(s, s.base.value) && QuoteOk(decode, ctx, s)
      && TableAt(decode, ctx, s.ledger, s.payments, Pos(s.ledger, s.base.value), Pos(s.ledger, s.high))
  }

  /** The process works at or before the highest cursor; at it exactly when its operation is still ahead of that. */
  lemma FindWork(decode: Decoder, s: State)
    requires Inv(decode, s) && AtWork(s.proc) && s.proc.batch != []
    ensures var p, q := Pos(s.ledger, s.proc.cursor), Pos(s.ledger, s.high);
            p <= q && p < |s.ledger| && s.ledger[p] == s.proc.batch[0]
            && (if p == q then s.proc.batch[0].token > s.high && Pos(s.ledger, s.proc.batch[0].token) == q + 1
                else s.proc.batch[0].token <= s.high)
    ensures s.proc.cursor < s.proc.batch[0].token
  {
    WindowHead(s.ledger, s.proc.cursor, s.proc.batch);
    PosMonotone(s.ledger, s.proc.cursor, s.high);
    PosSplits(s.ledger, s.high);
  }

  lemma PassRefines(decode: Decoder, ctx: Ctx, s: State)
    requires Inv(decode, s) && Refines(decode, ctx, s) && AtWork(s.proc) && s.proc.batch != []
    requires Matchable(decode, s.proc.batch[0]) ==> s.proc.batch[0].token in Tokens(s.payments)
    ensures var t := Pass(s, s.proc.batch[0].token, s.proc.batch[1..]);
            Refines(decode, ctx, t) && Refines(decode, ctx, t.(stored := At(s.proc.batch[0].token)))
  {
    hide TableAt;
    FindWork(decode, s);
    if Pos(s.ledger, s.proc.cursor) == Pos(s.ledger, s.high) {
      TablePass(decode, ctx, s.ledger, s.payments, Pos(s.ledger, s.base.value), Pos(s.ledger, s.high));
    }
  }

  lemma RecordRefines(decode: Decoder, ctx: Ctx, s: State)
    requires Inv(decode, s) && Refines(decode, ctx, s) && s.proc.Priced?
    ensures Refines(decode, ctx, RunStep(decode, s, Insert))
  {
    hide TableAt, InsertRow, Quote;
    var op := s.proc.batch[0];
    var lo, q := Pos(s.ledger, s.base.value), Pos(s.ledger, s.high);
    if RecordIfNew(decode, ctx, s.payments, op).Inserted? {
      InsertedIsNew(decode, ctx, s.payments, op);
      FindWork(decode, s);
      PosMonotone(s.ledger, s.base.value, s.proc.cursor);
      TableInsert(decode, ctx, s.ledger, s.payments, lo, q);
    }
  }

  lemma InsertedIsNew(decode: Decoder, ctx: Ctx, ps: seq<Payment>, op: Op)
    requires Matchable(decode, op) && RecordIfNew(decode, ctx, ps, op).Inserted?
    ensures op.token !in Tokens(ps)
  {
  }

  lemma AppendRefines(decode: Decoder, ctx: Ctx, s: State, op: Op)
    requires Inv(decode, s) && Refines(decode, ctx, s) && Head(s.ledger) < op.token
    ensures Refines(decode, ctx, s.(ledger := s.ledger + [op]))
  {
    hide TableAt;
    if s.base.Some? {
      PosAppend(s.ledger, op, s.base.value);
      PosAppend(s.ledger, op, s.high);
      TableAppend(decode, ctx, s.ledger, s.payments, Pos(s.ledger, s.base.value), Pos(s.ledger, s.high), op);
    }
  }

  lemma ProcStepRefines(decode: Decoder, ctx: Ctx, s: State, a: ProcAction)
    requires Inv(decode, s) && Refines(decode, ctx, s) && (a.Handle? ==> a.ctx == ctx)
    ensures Refines(decode, ctx, RunStep(decode, s, a))
  {
    hide TableAt, Quote, InsertRow;
    match a
    case Handle(_) =>
      if s.proc.Watching? && s.proc.batch != [] && !Matchable(decode, s.proc.batch[0]) {
        PassRefines(decode, ctx, s);
      }
    case Insert => if s.proc.Priced? { RecordRefines(decode, ctx, s); }
    case Advance => if s.proc.Committed? { PassRefines(decode, ctx, s); }
    case StoreHead => if s.proc.Resolved? { TableStart(decode, ctx, s.ledger, Pos(s.ledger, s.proc.head)); }
    case _ =>
  }

  lemma RewindRefines(decode: Decoder, ctx: Ctx, s: State, a: Action)
    requires Inv(decode, s) && Refines(decode, ctx, s) && Allowed(ctx, s, a)
    requires a.CheckRewind? || a.WriteRewind?
    ensures Refines(decode, ctx, Step(decode, s, a))
  {
    hide TableAt, RunStep, Pos, Window, Covered, CommittedOk, UniqueRows;
    var t := Step(decode, s, a);
    assert t.payments == s.payments && t.ledger == s.ledger && t.base == s.base && t.high == s.high;
  }

  lemma StepRefines(decode: Decoder, ctx: Ctx, s: State, a: Action)
    requires Inv(decode, s) && Refines(decode, ctx, s) && Allowed(ctx, s, a)
    ensures Refines(decode, ctx, Step(decode, s, a))
  {
    hide TableAt, RunStep, Inv, Refines;
    match a
    case Append(op) => if Head(s.ledger) < op.token { AppendRefines(decode, ctx, s, op); }
    case Run(step) => ProcStepRefines(decode, ctx, s, step);
    case SetStatus(_, _) => assert false;
    case _ => RewindRefines(decode, ctx, s, a);
  }

  lemma {:induction false} RunRefines(decode: Decoder, ctx: Ctx, actions: seq<Action>)
    requires Steady(decode, ctx, actions)
    ensures Inv(decode, Exec(decode, Init(), actions)) && Refines(decode, ctx, Exec(decode, Init(), actions))
  {
    if actions != [] {
      var before := actions[..|actions| - 1];
      RunRefines(decode, ctx, before);
      StepKeepsInv(decode, Exec(decode, Init(), before), actions[|actions| - 1]);
      StepRefines(decode, ctx, Exec(decode, Init(), before), actions[|actions| - 1]);
    }
  }

  function Frontier(s: State): nat {
    Front(s.ledger, s.payments, Pos(s.ledger, s.high))
  }

  /** The theorem: the table is the fold from the base to the frontier, which is at most one past the highest cursor. */
  lemma CrashRefinement(decode: Decoder, ctx: Ctx, actions: seq<Action>)
    requires Steady(decode, ctx, actions)
    ensures var s := Exec(decode, Init(), actions);
            s.base.Some? ==>
              && Pos(s.ledger, s.base.value) <= Pos(s.ledger, s.high) <= Frontier(s) <= Pos(s.ledger, s.high) + 1
              && s.payments == Fold(decode, ctx, s.ledger, Pos(s.ledger, s.base.value), Frontier(s))
  {
    RunRefines(decode, ctx, actions);
  }

  /** So two runs over one ledger that got equally far hold the same rows, fees included, however they crashed. */
  lemma CrashesLeaveNoTrace(decode: Decoder, ctx: Ctx, run1: seq<Action>, run2: seq<Action>)
    requires Steady(decode, ctx, run1) && Steady(decode, ctx, run2)
    requires var s, t := Exec(decode, Init(), run1), Exec(decode, Init(), run2);
             s.base.Some? && s.base == t.base && s.ledger == t.ledger && Frontier(s) == Frontier(t)
    ensures Exec(decode, Init(), run1).payments == Exec(decode, Init(), run2).payments
  {
    CrashRefinement(decode, ctx, run1);
    CrashRefinement(decode, ctx, run2);
  }
}
