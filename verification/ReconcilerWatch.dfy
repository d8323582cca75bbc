/**
 The reconciler as it runs undisturbed: the store's statements, the watch loop with
 its polls and batches, and the admin's rewind.  The loop is proved against one pass
 over the ledger, so where the pages are cut never matters.
 */
module ReconcilerWatch {
  import opened Common
  import opened ReconcilerOps
  import opened Payments
  import opened Reconciler
  import Fold = ReconcilerRefinement
  import opened ReconcilerMoney

  // ---- one pass ----

  /** `passed` counts the operations gone by, `matched` is the token of the last matchable one. */
  datatype Progress = Progress(payments: seq<Payment>, passed: nat, matched: Option<nat>, ok: bool)

  function Extend(decode: Decoder, ctx: Ctx, pr: Progress, op: Op): Progress {
    if !pr.ok then pr
    else if !Matchable(decode, op) then pr.(passed := pr.passed + 1)
    else match RecordIfNew(decode, ctx, pr.payments, op)
      case Inserted(ps) => Progress(ps, pr.passed + 1, Some(op.token), true)
      case Seen => pr.(passed := pr.passed + 1, matched := Some(op.token))
      case Failed => pr.(ok := false)
  }

  /** Recording ledger[lo..hi] in order, stopping at the first failing insert. */
  function RecordAll(decode: Decoder, ctx: Ctx, ps: seq<Payment>, ledger: seq<Op>, lo: nat, hi: nat): Progress
    requires hi <= |ledger|
  {
    if hi <= lo then Progress(ps, 0, None, true)
    else Extend(decode, ctx, RecordAll(decode, ctx, ps, ledger, lo, hi - 1), ledger[hi - 1])
  }

  lemma RecordNext(decode: Decoder, ctx: Ctx, ps: seq<Payment>, ledger: seq<Op>, lo: nat, hi: nat)
    requires lo <= hi < |ledger|
    ensures RecordAll(decode, ctx, ps, ledger, lo, hi + 1)
         == Extend(decode, ctx, RecordAll(decode, ctx, ps, ledger, lo, hi), ledger[hi])
  {
  }

  lemma {:induction false} FailureIsFinal(
      decode: Decoder, ctx: Ctx, ps: seq<Payment>, ledger: seq<Op>, lo: nat, mid: nat, hi: nat)
    requires mid <= hi <= |ledger| && !RecordAll(decode, ctx, ps, ledger, lo, mid).ok
    ensures RecordAll(decode, ctx, ps, ledger, lo, hi) == RecordAll(decode, ctx, ps, ledger, lo, mid)
  {
    hide RecordIfNew;
    if mid < hi {
      FailureIsFinal(decode, ctx, ps, ledger, lo, mid, hi - 1);
    }
  }

  /** From an empty table the pass leaves exactly the fold over what it passed, and passes all when nothing fails. */
  lemma {:induction false} PassIsFold(decode: Decoder, ctx: Ctx, ledger: seq<Op>, lo: nat, hi: nat)
    requires lo <= hi <= |ledger|
    ensures var pr := RecordAll(decode, ctx, [], ledger, lo, hi);
            && pr.passed <= hi - lo && (pr.ok ==> pr.passed == hi - lo)
            && pr.payments == Fold.Fold(decode, ctx, ledger, lo, lo + pr.passed)
  {
    hide RecordIfNew;
    if lo < hi {
      PassIsFold(decode, ctx, ledger, lo, hi - 1);
    }
  }

  /** Where a number of pages from position `lo` ends. */
  function PagesEnd(ledger: seq<Op>, lo: nat, polls: nat): (end: nat)
    requires lo <= |ledger|
    ensures lo <= end <= |ledger|
  {
    Min(lo + PAGE * polls, |ledger|)
  }

  lemma NextPage(ledger: seq<Op>, lo: nat, poll: nat, polls: nat)
    requires lo <= |ledger| && poll < polls
    ensures Min(PagesEnd(ledger, lo, poll) + PAGE, |ledger|) == PagesEnd(ledger, lo, poll + 1)
    ensures PagesEnd(ledger, lo, poll + 1) <= PagesEnd(ledger, lo, polls)
  {
  }

  lemma NoPages(decode: Decoder, ctx: Ctx, ps: seq<Payment>, ledger: seq<Op>, lo: nat)
    requires lo <= |ledger|
    ensures PagesEnd(ledger, lo, 0) == lo && RecordAll(decode, ctx, ps, ledger, lo, lo) == Progress(ps, 0, None, true)
  {
  }

  // ---- when a pass gets through ----

  /** The amount can be read, and amount, fee and net fit their columns at either rate. */
  predicate Readable(ctx: Ctx, op: Op) {
    var gross := Gross(ctx, op);
    gross.Some?
    && Fees.Fits(gross.value, Fees.Fee(gross.value, ctx.merchant.feeBps))
    && (ctx.merchant.promoFeeBps.Some? ==>
          Fees.Fits(gross.value, Fees.Fee(gross.value, ctx.merchant.promoFeeBps.value)))
  }

  /** A payment the table does not hold yet. */
  predicate New(decode: Decoder, ps: seq<Payment>, op: Op) {
    Matchable(decode, op) && op.token !in Tokens(ps)
  }

  function WrappedId(decode: Decoder, op: Op): int
    requires Matchable(decode, op)
  {
    AsI64(SessionId(decode, op).value)
  }

  /** No new payment of the range has the id of a row, nor that of an earlier new one. */
  predicate NoClash(decode: Decoder, ps: seq<Payment>, ledger: seq<Op>, lo: nat, hi: nat)
    requires hi <= |ledger|
  {
    forall i | lo <= i < hi && New(decode, ps, ledger[i]) ::
      && WrappedId(decode, ledger[i]) !in MuxedIds(ps)
      && forall j | lo <= j < i && New(decode, ps, ledger[j]) ::
           SessionId(decode, ledger[j]) != SessionId(decode, ledger[i])
  }

  /** The wrapped ids of the new payments of the range. */
  function NewIds(decode: Decoder, ps: seq<Payment>, ledger: seq<Op>, lo: nat, hi: nat): set<int>
    requires hi <= |ledger|
  {
    if hi <= lo then {}
    else NewIds(decode, ps, ledger, lo, hi - 1)
         + if New(decode, ps, ledger[hi - 1]) then {WrappedId(decode, ledger[hi - 1])} else {}
  }

  lemma {:induction false} NewIdsIff(decode: Decoder, ps: seq<Payment>, ledger: seq<Op>, lo: nat, hi: nat, op: Op)
    requires hi <= |ledger| && Matchable(decode, op)
    ensures WrappedId(decode, op) in NewIds(decode, ps, ledger, lo, hi)
            <==> exists j | lo <= j < hi ::
                   New(decode, ps, ledger[j]) && SessionId(decode, ledger[j]) == SessionId(decode, op)
  {
    hide SessionId, Tokens;
    if lo < hi {
      NewIdsIff(decode, ps, ledger, lo, hi - 1, op);
    }
  }

  lemma NoClashNext(decode: Decoder, ps: seq<Payment>, ledger: seq<Op>, lo: nat, hi: nat)
    requires lo <= hi < |ledger|
    ensures var op := ledger[hi];
            NoClash(decode, ps, ledger, lo, hi + 1) <==>
            NoClash(decode, ps, ledger, lo, hi)
            && (New(decode, ps, op) ==>
                  WrappedId(decode, op) !in MuxedIds(ps) + NewIds(decode, ps, ledger, lo, hi))
  {
    if New(decode, ps, ledger[hi]) {
      NewIdsIff(decode, ps, ledger, lo, hi, ledger[hi]);
    }
    hide SessionId, Tokens, MuxedIds, Matchable, NewIds, WrappedId;
  }

  lemma ReadableFailsIff(decode: Decoder, ctx: Ctx, ps: seq<Payment>, op: Op)
    requires Matchable(decode, op) && Readable(ctx, op) && op.token !in Tokens(ps)
    ensures RecordIfNew(decode, ctx, ps, op).Failed? <==> AsI64(SessionId(decode, op).value) in MuxedIds(ps)
    ensures !RecordIfNew(decode, ctx, ps, op).Seen?
  {
  }

  /** The pass holds the rows it began with, and otherwise only operations of its range. */
  lemma {:induction false} RecordAllTokens(
      decode: Decoder, ctx: Ctx, ps: seq<Payment>, ledger: seq<Op>, lo: nat, hi: nat)
    requires hi <= |ledger|
    ensures var tokens := Tokens(RecordAll(decode, ctx, ps, ledger, lo, hi).payments);
            && Tokens(ps) <= tokens
            && forall x | x in tokens && x !in Tokens(ps) :: exists j | lo <= j < hi :: ledger[j].token == x
  {
    hide RecordIfNew, Matchable, Tokens;
    if lo < hi {
      RecordAllTokens(decode, ctx, ps, ledger, lo, hi - 1);
      var before, op := RecordAll(decode, ctx, ps, ledger, lo, hi - 1), ledger[hi - 1];
      if before.ok && Matchable(decode, op) && RecordIfNew(decode, ctx, before.payments, op).Inserted? {
        RecordAddsToken(decode, ctx, before.payments, op);
      }
    }
  }

  /** So the next operation is new to the table of the pass exactly when it is new to the table at its start. */
  lemma NewIsNew(decode: Decoder, ctx: Ctx, ps: seq<Payment>, ledger: seq<Op>, lo: nat, hi: nat)
    requires Sorted(ledger) && hi < |ledger|
    ensures ledger[hi].token in Tokens(RecordAll(decode, ctx, ps, ledger, lo, hi).payments)
            <==> ledger[hi].token in Tokens(ps)
  {
    RecordAllTokens(decode, ctx, ps, ledger, lo, hi);
  }

  lemma SeenIsNoOp(decode: Decoder, ctx: Ctx, ps: seq<Payment>, op: Op)
    requires Matchable(decode, op) && Readable(ctx, op) && op.token in Tokens(ps)
    ensures RecordIfNew(decode, ctx, ps, op).Seen?
  {
  }

  predicate AllReadable(ctx: Ctx, ledger: seq<Op>, lo: nat, hi: nat)
    requires hi <= |ledger|
  {
    forall i | lo <= i < hi :: Readable(ctx, ledger[i])
  }

  /** One operation further: the pass goes on exactly when the operation is not new or has a free id. */
  lemma ExtendSucceedsIff(decode: Decoder, ctx: Ctx, ps: seq<Payment>, ledger: seq<Op>, lo: nat, hi: nat)
    requires Sorted(ledger) && lo <= hi < |ledger| && Readable(ctx, ledger[hi])
    requires var pr := RecordAll(decode, ctx, ps, ledger, lo, hi);
             pr.ok && MuxedIds(pr.payments) == MuxedIds(ps) + NewIds(decode, ps, ledger, lo, hi)
    ensures var op, pr := ledger[hi], RecordAll(decode, ctx, ps, ledger, lo, hi + 1);
            && (pr.ok <==> (New(decode, ps, op) ==>
                              WrappedId(decode, op) !in MuxedIds(ps) + NewIds(decode, ps, ledger, lo, hi)))
            && (pr.ok ==> MuxedIds(pr.payments) == MuxedIds(ps) + NewIds(decode, ps, ledger, lo, hi + 1))
  {
    var op, before := ledger[hi], RecordAll(decode, ctx, ps, ledger, lo, hi);
    RecordNext(decode, ctx, ps, ledger, lo, hi);
    NewIsNew(decode, ctx, ps, ledger, lo, hi);
    hide RecordIfNew, Readable, Matchable, SessionId, Tokens, MuxedIds, RecordAll;
    if Matchable(decode, op) {
      if op.token in Tokens(ps) {
        SeenIsNoOp(decode, ctx, before.payments, op);
      } else {
        ReadableFailsIff(decode, ctx, before.payments, op);
        if RecordIfNew(decode, ctx, before.payments, op).Inserted? {
          RecordAddsSession(decode, ctx, before.payments, op);
        }
      }
    }
  }

  /** What the pass over lo..hi does, and what its table then holds. */
  predicate SucceedsIff(decode: Decoder, ctx: Ctx, ps: seq<Payment>, ledger: seq<Op>, lo: nat, hi: nat)
    requires hi <= |ledger|
  {
    var pr := RecordAll(decode, ctx, ps, ledger, lo, hi);
    && (pr.ok <==> NoClash(decode, ps, ledger, lo, hi))
    && (pr.ok ==> MuxedIds(pr.payments) == MuxedIds(ps) + NewIds(decode, ps, ledger, lo, hi))
  }

  lemma SucceedsEmpty(decode: Decoder, ctx: Ctx, ps: seq<Payment>, ledger: seq<Op>, lo: nat)
    requires lo <= |ledger|
    ensures SucceedsIff(decode, ctx, ps, ledger, lo, lo)
  {
    hide MuxedIds, New, WrappedId;
  }

  lemma SucceedsNext(decode: Decoder, ctx: Ctx, ps: seq<Payment>, ledger: seq<Op>, lo: nat, hi: nat)
    requires Sorted(ledger) && lo <= hi < |ledger| && Readable(ctx, ledger[hi])
    requires SucceedsIff(decode, ctx, ps, ledger, lo, hi)
    ensures SucceedsIff(decode, ctx, ps, ledger, lo, hi + 1)
  {
    hide RecordAll, Readable, MuxedIds, NoClash, NewIds, New, Sorted, WrappedId;
    NoClashNext(decode, ps, ledger, lo, hi);
    if RecordAll(decode, ctx, ps, ledger, lo, hi).ok {
      ExtendSucceedsIff(decode, ctx, ps, ledger, lo, hi);
    } else {
      FailureIsFinal(decode, ctx, ps, ledger, lo, hi, hi + 1);
    }
  }

  /**
   Over readable operations a pass from any table gets through if and only if no payment new to the
   table has the id of a row, or that of an earlier new one.
   */
  lemma {:induction false} PassSucceedsIff(
      decode: Decoder, ctx: Ctx, ps: seq<Payment>, ledger: seq<Op>, lo: nat, hi: nat)
    requires Sorted(ledger) && lo <= hi <= |ledger| && AllReadable(ctx, ledger, lo, hi)
    ensures SucceedsIff(decode, ctx, ps, ledger, lo, hi)
  {
    hide SucceedsIff, Sorted, Readable;
    if lo == hi {
      SucceedsEmpty(decode, ctx, ps, ledger, lo);
    } else {
      PassSucceedsIff(decode, ctx, ps, ledger, lo, hi - 1);
      SucceedsNext(decode, ctx, ps, ledger, lo, hi - 1);
    }
  }

  // ---- recovery ----

  /** Two payments share a session id. */
  predicate SameSession(decode: Decoder, op: Op, other: Op) {
    Matchable(decode, op) && Matchable(decode, other) && SessionId(decode, op) == SessionId(decode, other)
  }

  /** No new payment from `lo` on shares its id with a recorded payment, or with an earlier new one from `lo` on. */
  predicate NoRepeat(decode: Decoder, ps: seq<Payment>, ledger: seq<Op>, lo: nat) {
    forall i, j | lo <= i < |ledger| && 0 <= j < |ledger| && New(decode, ps, ledger[i]) ::
      ledger[j].token in Tokens(ps) || lo <= j < i ==> !SameSession(decode, ledger[i], ledger[j])
  }

  lemma SameWrap(decode: Decoder, op: Op, other: Op)
    requires Matchable(decode, op) && Matchable(decode, other)
    ensures WrappedId(decode, op) == WrappedId(decode, other) <==> SameSession(decode, op, other)
  {
    WrapIsInjective(SessionId(decode, op).value, SessionId(decode, other).value);
  }

  /** The ids of the table are those of the recorded payments. */
  lemma IdsOfTable(decode: Decoder, ledger: seq<Op>, ps: seq<Payment>, op: Op)
    requires Sorted(ledger) && FromLedger(decode, ledger, ps) && Matchable(decode, op)
    ensures WrappedId(decode, op) in MuxedIds(ps)
            <==> exists j | 0 <= j < |ledger| :: ledger[j].token in Tokens(ps) && SameSession(decode, op, ledger[j])
  {
    hide SessionId, Matchable;
    if WrappedId(decode, op) in MuxedIds(ps) {
      var p :| p in ps && p.muxedId == WrappedId(decode, op);
      var k :| 0 <= k < |ps| && ps[k] == p;
      assert RowFromLedger(decode, ledger, ps[k]);
      var j := Pos(ledger, p.token) - 1;
      assert Source(decode, ledger[j], p) && ledger[j].token in Tokens(ps);
      SameWrap(decode, op, ledger[j]);
    }
    forall j | 0 <= j < |ledger| && ledger[j].token in Tokens(ps) && SameSession(decode, op, ledger[j])
      ensures WrappedId(decode, op) in MuxedIds(ps)
    {
      var k := RecordedRow(decode, ledger, ps, j);
      assert ps[k] in ps;
    }
  }

  lemma NoClashIsNoRepeat(decode: Decoder, ledger: seq<Op>, ps: seq<Payment>, lo: nat)
    requires Sorted(ledger) && FromLedger(decode, ledger, ps)
    ensures NoClash(decode, ps, ledger, lo, |ledger|) <==> NoRepeat(decode, ps, ledger, lo)
  {
    forall i | lo <= i < |ledger| && New(decode, ps, ledger[i])
      ensures WrappedId(decode, ledger[i]) in MuxedIds(ps)
              <==> exists j | 0 <= j < |ledger| ::
                     ledger[j].token in Tokens(ps) && SameSession(decode, ledger[i], ledger[j])
    {
      IdsOfTable(decode, ledger, ps, ledger[i]);
    }
    hide SessionId, Matchable, FromLedger, Tokens, MuxedIds, WrappedId, Sorted;
  }

  /** Where the next start resumes. */
  function ResumesAt(s: State): (lo: nat)
    ensures lo <= |s.ledger|
  {
    Pos(s.ledger, match s.stored case Now => Head(s.ledger) case At(token) => token)
  }

  /**
   After any run, whatever crashed or was rewound in it: the next pass gets through all there is, over
   readable operations, if and only if no payment it has yet to record repeats a session id.
   */
  lemma RecoversIff(decode: Decoder, ctx: Ctx, actions: seq<Action>)
    requires NumericRewinds(decode, actions)
    requires var s := Exec(decode, Init(), actions); AllReadable(ctx, s.ledger, ResumesAt(s), |s.ledger|)
    ensures var s := Exec(decode, Init(), actions);
            RecordAll(decode, ctx, s.payments, s.ledger, ResumesAt(s), |s.ledger|).ok
            <==> NoRepeat(decode, s.payments, s.ledger, ResumesAt(s))
  {
    RunKeepsFromLedger(decode, actions);
    var s := Exec(decode, Init(), actions);
    assert Sorted(s.ledger);
    hide Exec, NumericRewinds, Inv, FromLedger, ResumesAt, AllReadable;
    NoClashIsNoRepeat(decode, s.ledger, s.payments, ResumesAt(s));
    PassSucceedsIff(decode, ctx, s.payments, s.ledger, ResumesAt(s), |s.ledger|);
  }

  // ---- the store and the loop ----

  class Store {
    var payments: seq<Payment>
    var cursorRow: Option<Cursor>   // the 'cursor' row of reconciler_state, if there is one

    constructor ()
      ensures payments == [] && cursorRow == Some(Now)
    {
      payments, cursorRow := [], Some(Now);
    }

    /** The migration seeds the row with `now`; a missing row reads as `now` too. */
    function GetCursor(): Cursor
      reads this
    {
      if cursorRow.Some? then cursorRow.value else Now
    }

    method RecordPaymentIfNew(decode: Decoder, ctx: Ctx, op: Op) returns (ok: bool)
      requires Matchable(decode, op)
      modifies this`payments
      ensures var r := RecordIfNew(decode, ctx, old(payments), op);
              ok == !r.Failed? && payments == if r.Inserted? then r.payments else old(payments)
    {
      var r := RecordIfNew(decode, ctx, payments, op);
      match r
      case Inserted(ps) => payments := ps; ok := true;
      case Seen => ok := true;
      case Failed => ok := false;
    }

    method SetCursor(token: nat)
      modifies this`cursorRow
      ensures cursorRow == Some(At(token))
    {
      cursorRow := Some(At(token));
    }

    /** The admin's rewind: checked, then written to the row, and never forward from a real position. */
    method Rewind(text: string) returns (error: Option<RewindError>)
      modifies this`cursorRow
      ensures error == AssertNotForward(old(GetCursor()), ParseTarget(text))
      ensures cursorRow == if error.None? && old(cursorRow).Some? then Some(ParseTarget(text).cursor)
                           else old(cursorRow)
      ensures old(GetCursor()).At? ==> GetCursor().At? && GetCursor().token <= old(GetCursor()).token
      ensures forall token: nat | old(cursorRow).Some? && text == Rendered(token) ::
                if old(GetCursor()).Now? || token <= old(GetCursor()).token
                then cursorRow == Some(At(token)) else error == Some(Forward) && cursorRow == old(cursorRow)
    {
      var target := ParseTarget(text);
      error := AssertNotForward(GetCursor(), target);
      if error.None? && cursorRow.Some? {
        cursorRow := Some(target.cursor);
      }
      forall token: nat ensures ParseTarget(Rendered(token)) == Valid(At(token)) {
        TargetsRead(token, text);
      }
      hide ParseTarget, Rendered;
    }

    /** Where the watch loop starts: the stored cursor, or the head when it is still `now`. */
    function StartCursor(ledger: seq<Op>): nat
      reads this
    {
      match GetCursor()
      case Now => Head(ledger)
      case At(token) => token
    }

    /** The table and the stored cursor are those of the pass `pr` that began at cursor `start`. */
    predicate Shows(pr: Progress, start: nat)
      reads this
    {
      payments == pr.payments && cursorRow == Some(At(if pr.matched.Some? then pr.matched.value else start))
    }

    /** The loop body: pass an unmatchable operation, or record a matchable one and only then store its token. */
    method HandleOp(decode: Decoder, ctx: Ctx, op: Op, ghost pr: Progress, ghost start: nat) returns (ok: bool)
      requires pr.ok && Shows(pr, start)
      modifies this
      ensures Shows(Extend(decode, ctx, pr, op), start) && ok == Extend(decode, ctx, pr, op).ok
    {
      if !Matchable(decode, op) {
        return true;
      }
      ok := RecordPaymentIfNew(decode, ctx, op);
      if ok {
        SetCursor(op.token);
      }
    }

    /** One page; `next` is the cursor in memory after it. */
    method WatchPage(decode: Decoder, ctx: Ctx, ledger: seq<Op>, current: nat,
                     ghost ps0: seq<Payment>, ghost lo: nat, ghost start: nat)
      returns (ok: bool, next: nat)
      requires Sorted(ledger) && lo <= Pos(ledger, current)
      requires var pr := RecordAll(decode, ctx, ps0, ledger, lo, Pos(ledger, current)); pr.ok && Shows(pr, start)
      modifies this
      ensures var n := Min(Pos(ledger, current) + PAGE, |ledger|);
              var pr := RecordAll(decode, ctx, ps0, ledger, lo, n);
              Shows(pr, start) && ok == pr.ok && (ok ==> Pos(ledger, next) == n)
    {
      hide Extend, RecordAll, Shows, Pos, Sorted;
      var ops := Page(ledger, current);
      ghost var from := Pos(ledger, current);
      next := current;
      for i := 0 to |ops|
        invariant Pos(ledger, next) == from + i
        invariant RecordAll(decode, ctx, ps0, ledger, lo, from + i).ok
        invariant Shows(RecordAll(decode, ctx, ps0, ledger, lo, from + i), start)
      {
        assert ops[i] == ledger[from + i];
        RecordNext(decode, ctx, ps0, ledger, lo, from + i);
        ok := HandleOp(decode, ctx, ops[i], RecordAll(decode, ctx, ps0, ledger, lo, from + i), start);
        if !ok {
          FailureIsFinal(decode, ctx, ps0, ledger, lo, from + i + 1, from + |ops|);
          return;
        }
        next := ops[i].token;
        PosOfToken(ledger, from + i);
      }
      ok := true;
    }

    /** The first numeric cursor is stored before anything is polled. */
    method ResolveStart(ledger: seq<Op>) returns (current: nat)
      modifies this`cursorRow
      ensures current == old(StartCursor(ledger)) && cursorRow == Some(At(current))
    {
      current := StartCursor(ledger);
      if GetCursor() == Now {
        SetCursor(current);
      }
    }

    /**
     One watch run: at most `maxPolls` pages from the start cursor.  Its table and stored cursor are
     those of one pass over the operations the pages cover, wherever they are cut; `ok` is false when
     an insert ended the process.
     */
    method Watch(decode: Decoder, ctx: Ctx, ledger: seq<Op>, maxPolls: nat) returns (ok: bool)
      requires Sorted(ledger)
      modifies this
      ensures var start := old(StartCursor(ledger));
              var lo := Pos(ledger, start);
              var pr := RecordAll(decode, ctx, old(payments), ledger, lo, PagesEnd(ledger, lo, maxPolls));
              Shows(pr, start) && ok == pr.ok
    {
      ghost var ps0 := payments;
      var current := ResolveStart(ledger);
      ghost var start, lo := current, Pos(ledger, current);
      NoPages(decode, ctx, ps0, ledger, lo);
      hide RecordAll, Shows, Pos, StartCursor, GetCursor, Sorted, Extend, PagesEnd;
      for poll := 0 to maxPolls
        invariant Pos(ledger, current) == PagesEnd(ledger, lo, poll)
        invariant var pr := RecordAll(decode, ctx, ps0, ledger, lo, Pos(ledger, current)); pr.ok && Shows(pr, start)
      {
        NextPage(ledger, lo, poll, maxPolls);
        ok, current := WatchPage(decode, ctx, ledger, current, ps0, lo, start);
        if !ok {
          FailureIsFinal(decode, ctx, ps0, ledger, lo, PagesEnd(ledger, lo, poll + 1), PagesEnd(ledger, lo, maxPolls));
          return;
        }
      }
      ok := true;
    }
  }
}
