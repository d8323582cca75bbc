/**
 The undisturbed watch loop is one of the machine's runs: from a stopped process, the same
 pages, the same rows and the same stored cursor as the loop's own pass.
 */
module ReconcilerLoop {
  import opened Common
  import opened ReconcilerOps
  import opened Payments
  import opened Reconciler
  import opened ReconcilerWatch

  /** State `t` shows the pass `pr` over `s`'s ledger that began at cursor `start`. */
  predicate ShowsPass(s: State, t: State, pr: Progress, start: nat) {
    && t.ledger == s.ledger && t.payments == pr.payments
    && t.stored == At(if pr.matched.Some? then pr.matched.value else start)
  }

  /** The process stands at position `at` with `batch` ahead, or an insert has ended it. */
  predicate Stands(s: State, t: State, pr: Progress, start: nat, at: nat, batch: seq<Op>) {
    && ShowsPass(s, t, pr, start)
    && if pr.ok then t.proc.Watching? && Pos(t.ledger, t.proc.cursor) == at && t.proc.batch == batch
       else t.proc.Stopped?
  }

  ghost predicate InWorld(actions: seq<Action>, ctx: Ctx) {
    forall a | a in actions :: a.Run? && (a.step.Handle? ==> a.step.ctx == ctx)
  }

  /** One more step of the process in its world. */
  lemma DoIn(decode: Decoder, s: State, before: seq<Action>, step: ProcAction, ctx: Ctx) returns (more: seq<Action>)
    requires NumericFrom(decode, s, before) && InWorld(before, ctx) && (step.Handle? ==> step.ctx == ctx)
    ensures NumericFrom(decode, s, more) && InWorld(more, ctx)
    ensures Exec(decode, s, more) == Step(decode, Exec(decode, s, before), Run(step))
  {
    hide NumericFrom, Exec, Step;
    more := Do(decode, s, before, Run(step));
  }

  lemma RecordIsQuoteAndInsert(decode: Decoder, ctx: Ctx, ps: seq<Payment>, op: Op)
    requires Matchable(decode, op)
    ensures var quote := Quote(decode, ctx, ps, op);
            RecordIfNew(decode, ctx, ps, op) == if quote.None? then Failed else InsertRow(ps, quote.value)
  {
  }

  /** A matchable operation: priced, inserted, the cursor advanced; or the process ends. */
  lemma RecordIsARun(
      decode: Decoder, ctx: Ctx, s: State, before: seq<Action>, pr: Progress, start: nat, at: nat, batch: seq<Op>)
    returns (actions: seq<Action>)
    requires NumericFrom(decode, s, before) && InWorld(before, ctx)
    requires Stands(s, Exec(decode, s, before), pr, start, at, batch) && pr.ok
    requires Sorted(s.ledger) && batch != [] && at < |s.ledger| && s.ledger[at] == batch[0]
    requires Matchable(decode, batch[0])
    ensures NumericFrom(decode, s, actions) && InWorld(actions, ctx)
    ensures Stands(s, Exec(decode, s, actions), Extend(decode, ctx, pr, batch[0]), start, at + 1, batch[1..])
  {
    var t, op := Exec(decode, s, before), batch[0];
    PosOfToken(s.ledger, at);
    RecordIsQuoteAndInsert(decode, ctx, t.payments, op);
    hide Exec, NumericFrom, InWorld, Step, Quote, InsertRow, RecordIfNew, Matchable, Pos, Sorted;
    var quote := Quote(decode, ctx, t.payments, op);
    actions := DoIn(decode, s, before, Handle(ctx), ctx);
    if quote.None? {
      HandleStops(decode, t, ctx);
    } else {
      HandlePrices(decode, t, ctx, quote.value);
      var priced, r := Exec(decode, s, actions), InsertRow(t.payments, quote.value);
      actions := DoIn(decode, s, actions, Insert, ctx);
      if r.Failed? {
        InsertStops(decode, priced);
      } else {
        InsertCommits(decode, priced, if r.Inserted? then r.payments else t.payments);
        AdvancePasses(decode, Exec(decode, s, actions));
        actions := DoIn(decode, s, actions, Advance, ctx);
      }
    }
  }

  lemma OpIsARun(
      decode: Decoder, ctx: Ctx, s: State, before: seq<Action>, pr: Progress, start: nat, at: nat, batch: seq<Op>)
    returns (actions: seq<Action>)
    requires NumericFrom(decode, s, before) && InWorld(before, ctx)
    requires Stands(s, Exec(decode, s, before), pr, start, at, batch) && pr.ok
    requires Sorted(s.ledger) && batch != [] && at < |s.ledger| && s.ledger[at] == batch[0]
    ensures NumericFrom(decode, s, actions) && InWorld(actions, ctx)
    ensures Stands(s, Exec(decode, s, actions), Extend(decode, ctx, pr, batch[0]), start, at + 1, batch[1..])
  {
    if Matchable(decode, batch[0]) {
      actions := RecordIsARun(decode, ctx, s, before, pr, start, at, batch);
    } else {
      PosOfToken(s.ledger, at);
      hide Exec, NumericFrom, InWorld, Step, Matchable, Pos, Sorted;
      HandlePasses(decode, Exec(decode, s, before), ctx);
      actions := DoIn(decode, s, before, Handle(ctx), ctx);
    }
  }

  /** A window of the ledger, operation after operation; a failing insert ends it early. */
  lemma {:induction false} BatchIsARun(
      decode: Decoder, ctx: Ctx, s: State, before: seq<Action>, ps: seq<Payment>, lo: nat, start: nat,
      at: nat, end: nat)
    returns (actions: seq<Action>)
    requires NumericFrom(decode, s, before) && InWorld(before, ctx)
    requires Sorted(s.ledger) && lo <= at <= end <= |s.ledger|
    requires var pr := RecordAll(decode, ctx, ps, s.ledger, lo, at);
             pr.ok && Stands(s, Exec(decode, s, before), pr, start, at, s.ledger[at..end])
    ensures NumericFrom(decode, s, actions) && InWorld(actions, ctx)
    ensures Stands(s, Exec(decode, s, actions), RecordAll(decode, ctx, ps, s.ledger, lo, end), start, end, [])
    decreases end - at
  {
    hide Exec, NumericFrom, InWorld, Step, Sorted, RecordAll, Extend;
    if at == end {
      actions := before;
      assert s.ledger[at..end] == [];
    } else {
      var batch := s.ledger[at..end];
      RecordNext(decode, ctx, ps, s.ledger, lo, at);
      assert batch[1..] == s.ledger[at + 1..end] && batch[0] == s.ledger[at];
      actions := OpIsARun(decode, ctx, s, before, RecordAll(decode, ctx, ps, s.ledger, lo, at), start, at, batch);
      if RecordAll(decode, ctx, ps, s.ledger, lo, at + 1).ok {
        actions := BatchIsARun(decode, ctx, s, actions, ps, lo, start, at + 1, end);
      } else {
        FailureIsFinal(decode, ctx, ps, s.ledger, lo, at + 1, end);
      }
    }
  }

  /** One poll and its batch. */
  lemma PageIsARun(
      decode: Decoder, ctx: Ctx, s: State, before: seq<Action>, ps: seq<Payment>, lo: nat, start: nat, at: nat)
    returns (actions: seq<Action>)
    requires NumericFrom(decode, s, before) && InWorld(before, ctx)
    requires Sorted(s.ledger) && lo <= at <= |s.ledger|
    requires var pr := RecordAll(decode, ctx, ps, s.ledger, lo, at);
             pr.ok && Stands(s, Exec(decode, s, before), pr, start, at, [])
    ensures NumericFrom(decode, s, actions) && InWorld(actions, ctx)
    ensures var end := Min(at + PAGE, |s.ledger|);
            Stands(s, Exec(decode, s, actions), RecordAll(decode, ctx, ps, s.ledger, lo, end), start, end, [])
  {
    hide Exec, NumericFrom, InWorld, Step, Sorted, RecordAll, Pos;
    PollFetches(decode, Exec(decode, s, before));
    actions := DoIn(decode, s, before, Poll, ctx);
    actions := BatchIsARun(decode, ctx, s, actions, ps, lo, start, at, Min(at + PAGE, |s.ledger|));
  }

  lemma {:induction false} PagesAreARun(
      decode: Decoder, ctx: Ctx, s: State, before: seq<Action>, ps: seq<Payment>, lo: nat, start: nat, polls: nat)
    returns (actions: seq<Action>)
    requires NumericFrom(decode, s, before) && InWorld(before, ctx) && Sorted(s.ledger) && lo <= |s.ledger|
    requires Stands(s, Exec(decode, s, before), Progress(ps, 0, None, true), start, lo, [])
    ensures NumericFrom(decode, s, actions) && InWorld(actions, ctx)
    ensures var end := PagesEnd(s.ledger, lo, polls);
            Stands(s, Exec(decode, s, actions), RecordAll(decode, ctx, ps, s.ledger, lo, end), start, end, [])
  {
    hide Exec, NumericFrom, InWorld, Step, Sorted, RecordAll, Stands, PagesEnd;
    if polls == 0 {
      actions := before;
      NoPages(decode, ctx, ps, s.ledger, lo);
    } else {
      actions := PagesAreARun(decode, ctx, s, before, ps, lo, start, polls - 1);
      NextPage(s.ledger, lo, polls - 1, polls);
      var at, end := PagesEnd(s.ledger, lo, polls - 1), PagesEnd(s.ledger, lo, polls);
      if RecordAll(decode, ctx, ps, s.ledger, lo, at).ok {
        actions := PageIsARun(decode, ctx, s, actions, ps, lo, start, at);
      } else {
        FailureIsFinal(decode, ctx, ps, s.ledger, lo, at, end);
        StoppedStands(s, Exec(decode, s, actions), RecordAll(decode, ctx, ps, s.ledger, lo, at), start, at, end);
      }
    }
  }

  lemma StoppedStands(s: State, t: State, pr: Progress, start: nat, at: nat, end: nat)
    requires Stands(s, t, pr, start, at, []) && !pr.ok
    ensures Stands(s, t, pr, start, end, [])
  {
  }

  function StartOf(s: State): nat {
    match s.stored case Now => Head(s.ledger) case At(token) => token
  }

  /** The start: the stored cursor, or the head, stored before anything is polled. */
  lemma StartIsARun(decode: Decoder, ctx: Ctx, s: State) returns (actions: seq<Action>)
    requires s.proc.Stopped?
    ensures NumericFrom(decode, s, actions) && InWorld(actions, ctx)
    ensures Stands(s, Exec(decode, s, actions), Progress(s.payments, 0, None, true), StartOf(s), ResumesAt(s), [])
  {
    NoActions(decode, s);
    hide Exec, NumericFrom, Pos, Head;
    actions := DoIn(decode, s, [], Start, ctx);
    if s.stored.Now? {
      actions := DoIn(decode, s, actions, StoreHead, ctx);
    }
  }

  /**
   A whole watch run from a stopped process: the rows and the stored cursor are those of the loop's pass,
   and the process has ended exactly when an insert failed.
   */
  lemma WatchIsARun(decode: Decoder, ctx: Ctx, s: State, maxPolls: nat) returns (actions: seq<Action>)
    requires Sorted(s.ledger) && s.proc.Stopped?
    ensures NumericFrom(decode, s, actions) && InWorld(actions, ctx)
    ensures var lo := ResumesAt(s);
            var end := PagesEnd(s.ledger, lo, maxPolls);
            Stands(s, Exec(decode, s, actions), RecordAll(decode, ctx, s.payments, s.ledger, lo, end),
                   StartOf(s), end, [])
  {
    hide Exec, NumericFrom, InWorld, Sorted, RecordAll, PagesEnd, ResumesAt, StartOf, Stands;
    actions := StartIsARun(decode, ctx, s);
    actions := PagesAreARun(decode, ctx, s, actions, s.payments, ResumesAt(s), StartOf(s), maxPolls);
  }

  // ---- catching up ----

  /** Every matchable operation after the first numeric cursor is in the table exactly once. */
  predicate CaughtUp(decode: Decoder, s: State) {
    s.base.Some? &&
    forall i | 0 <= i < |s.ledger| && s.base.value < s.ledger[i].token && Matchable(decode, s.ledger[i]) ::
      RecordedOnce(s.payments, s.ledger[i].token)
  }

  lemma AllPagesEnd(ledger: seq<Op>, lo: nat)
    requires lo <= |ledger|
    ensures PagesEnd(ledger, lo, |ledger|) == |ledger|
  {
  }

  lemma AtTheEndIsCaughtUp(decode: Decoder, s: State)
    requires Inv(decode, s) && NothingSkipped(decode, s)
    requires s.proc.Watching? && Pos(s.ledger, s.proc.cursor) == |s.ledger|
    ensures CaughtUp(decode, s)
  {
    PosSplits(s.ledger, s.proc.cursor);
    hide RecordedOnce, Covered, CommittedOk, Window, Pos;
  }

  lemma CrashStops(decode: Decoder, actions: seq<Action>) returns (stopped: seq<Action>)
    requires NumericRewinds(decode, actions)
    ensures NumericRewinds(decode, stopped) && stopped == actions + [Run(Crash)]
    ensures Exec(decode, Init(), stopped) == Exec(decode, Init(), actions).(proc := Stopped)
  {
    stopped := Do(decode, Init(), actions, Run(Crash));
  }

  /** The process stands at the end of the ledger `ledger`. */
  predicate AtEnd(t: State, ledger: seq<Op>) {
    t.ledger == ledger && t.proc.Watching? && Pos(t.ledger, t.proc.cursor) == |t.ledger|
  }

  lemma WatchReachesTheEnd(decode: Decoder, ctx: Ctx, s: State) returns (more: seq<Action>)
    requires Sorted(s.ledger) && s.proc.Stopped?
    requires RecordAll(decode, ctx, s.payments, s.ledger, ResumesAt(s), |s.ledger|).ok
    ensures NumericFrom(decode, s, more) && AtEnd(Exec(decode, s, more), s.ledger)
  {
    AllPagesEnd(s.ledger, ResumesAt(s));
    hide Exec, NumericFrom, InWorld, Sorted, RecordAll, PagesEnd, ResumesAt, StartOf, Pos;
    more := WatchIsARun(decode, ctx, s, |s.ledger|);
  }

  /** Two numeric runs, one after the other. */
  lemma OneAfterTheOther(decode: Decoder, first: seq<Action>, more: seq<Action>)
    requires NumericRewinds(decode, first) && NumericFrom(decode, Exec(decode, Init(), first), more)
    ensures NumericRewinds(decode, first + more)
    ensures Exec(decode, Init(), first + more) == Exec(decode, Exec(decode, Init(), first), more)
    ensures var t := Exec(decode, Init(), first + more); Inv(decode, t) && NothingSkipped(decode, t)
  {
    hide Exec, NumericFrom, Inv, NothingSkipped;
    ExecAppend(decode, Init(), first, more);
    NumericAppend(decode, Init(), first, more);
    RunKeepsInv(decode, first + more);
    NoSkipNoDouble(decode, first + more);
  }

  lemma InvIsSorted(decode: Decoder, s: State)
    requires Inv(decode, s)
    ensures Sorted(s.ledger)
  {
  }

  /** A crash does not move where the next start resumes. */
  lemma CrashKeepsPlace(s: State)
    ensures ResumesAt(s.(proc := Stopped)) == ResumesAt(s)
  {
  }

  /**
   After any run, crashed wherever it was: one more watch run, of enough polls, records all that is left,
   when the operations left are readable and none of them repeats a session id.
   */
  lemma CatchesUp(decode: Decoder, ctx: Ctx, actions: seq<Action>) returns (rest: seq<Action>)
    requires NumericRewinds(decode, actions)
    requires var s := Exec(decode, Init(), actions);
             && AllReadable(ctx, s.ledger, ResumesAt(s), |s.ledger|)
             && NoRepeat(decode, s.payments, s.ledger, ResumesAt(s))
    ensures NumericRewinds(decode, actions + rest)
    ensures var t := Exec(decode, Init(), actions + rest);
            t.ledger == Exec(decode, Init(), actions).ledger && CaughtUp(decode, t)
  {
    hide Exec, NumericRewinds, Inv, AllReadable, NoRepeat, NothingSkipped, RecordAll, CaughtUp, ResumesAt, Sorted;
    RecoversIff(decode, ctx, actions);
    RunKeepsInv(decode, actions);
    var s := Exec(decode, Init(), actions);
    InvIsSorted(decode, s);
    CrashKeepsPlace(s);
    var stopped := CrashStops(decode, actions);
    var more := WatchReachesTheEnd(decode, ctx, Exec(decode, Init(), stopped));
    OneAfterTheOther(decode, stopped, more);
    AtTheEndIsCaughtUp(decode, Exec(decode, Init(), stopped + more));
    rest := [Run(Crash)] + more;
    assert actions + rest == stopped + more;
  }
}
