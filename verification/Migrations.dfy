/**
 The migration runner.  `up` applies the pending files in sorted order, `down` reverts the newest, each
 file in one transaction with its tracking row; a run may stop at any transaction.  For a fixed directory
 the applied names are always a prefix of the sorted list, and where down files invert their up
 files the database is always the composition of that prefix.
 */
module Migrations {
  import opened Common

  const SUFFIX := ".up.sql"

  /** Everything in the database but the tracking table: objects and rows by name. */
  type Content = map<string, string>

  /** `files` is what readdir lists; the SQL of a file either fails or gives the new content. */
  datatype Directory = Directory(
    files: seq<string>, upSql: (string, Content) -> Option<Content>,
    hasDown: string -> bool, downSql: (string, Content) -> Option<Content>)

  /** The tracking table in applied_at order, and the rest. */
  datatype Database = Database(applied: seq<string>, content: Content)

  /** `budget` is how many transactions go through before one is lost. */
  datatype Command = Up(budget: nat) | Down(steps: nat, budget: nat)

  predicate Distinct<T(==)>(s: seq<T>) {
    forall i, j | 0 <= i < j < |s| :: s[i] != s[j]
  }

  // ---- sorting file names ----

  /** Array.prototype.sort's order on strings: by code unit, a prefix first. */
  predicate Less(a: string, b: string) {
    b != [] && (a == [] || a[0] < b[0] || (a[0] == b[0] && Less(a[1..], b[1..])))
  }

  lemma {:induction false} LessIsTotal(a: string, b: string)
    ensures Less(a, b) || a == b || Less(b, a)
    ensures !(Less(a, b) && Less(b, a)) && !Less(a, a)
  {
    if a != [] && b != [] && a[0] == b[0] {
      LessIsTotal(a[1..], b[1..]);
      assert a == [a[0]] + a[1..] && b == [b[0]] + b[1..];
    }
    if a != [] {
      LessIsTotal(a[1..], a[1..]);
    }
  }

  lemma {:induction false} LessIsTransitive(a: string, b: string, c: string)
    requires Less(a, b) && Less(b, c)
    ensures Less(a, c)
  {
    if a != [] && a[0] == b[0] == c[0] {
      LessIsTransitive(a[1..], b[1..], c[1..]);
    }
  }

  /** The first character that differs decides, the smaller first; a name comes before what continues it. */
  lemma {:induction false} FirstDifferenceDecides(common: string, a: char, x: string, b: char, y: string)
    requires a < b
    ensures Less(common + [a] + x, common + [b] + y) && !Less(common + [b] + y, common + [a] + x)
    ensures Less(common, common + [a] + x) && !Less(common + [a] + x, common)
  {
    var l, r := common + [a] + x, common + [b] + y;
    if common != [] {
      assert l[1..] == common[1..] + [a] + x && r[1..] == common[1..] + [b] + y;
      FirstDifferenceDecides(common[1..], a, x, b, y);
    }
  }

  predicate Ordered(s: seq<string>) {
    forall i, j | 0 <= i < j < |s| :: Less(s[i], s[j])
  }

  function InsertInto(x: string, s: seq<string>): seq<string> {
    if s == [] || Less(x, s[0]) then [x] + s else [s[0]] + InsertInto(x, s[1..])
  }

  function Sort(s: seq<string>): seq<string> {
    if s == [] then [] else InsertInto(s[0], Sort(s[1..]))
  }

  lemma {:induction false} InsertElements(x: string, s: seq<string>)
    ensures forall y :: y in InsertInto(x, s) <==> y == x || y in s
  {
    if s != [] && !Less(x, s[0]) {
      InsertElements(x, s[1..]);
      assert s == [s[0]] + s[1..];
    }
  }

  lemma {:induction false} InsertKeepsOrdered(x: string, s: seq<string>)
    requires Ordered(s) && x !in s
    ensures Ordered(InsertInto(x, s))
  {
    if s != [] {
      LessIsTotal(x, s[0]);
      if Less(x, s[0]) {
        forall j | 0 < j < |s| ensures Less(x, s[j]) {
          LessIsTransitive(x, s[0], s[j]);
        }
      } else {
        InsertKeepsOrdered(x, s[1..]);
        InsertElements(x, s[1..]);
        var t := InsertInto(x, s[1..]);
        forall j | 0 <= j < |t| ensures Less(s[0], t[j]) {
          assert t[j] in t;
        }
      }
    }
  }

  lemma {:induction false} SortSorts(s: seq<string>)
    requires Distinct(s)
    ensures Ordered(Sort(s)) && forall y :: y in Sort(s) <==> y in s
  {
    if s != [] {
      SortSorts(s[1..]);
      InsertElements(s[0], Sort(s[1..]));
      InsertKeepsOrdered(s[0], Sort(s[1..]));
      assert s == [s[0]] + s[1..];
    }
  }

  lemma FirstIsLeast(s: seq<string>, t: seq<string>)
    requires Ordered(s) && Ordered(t) && s != [] && t != [] && s[0] in t && t[0] in s
    ensures s[0] == t[0]
  {
    var i :| 0 <= i < |t| && t[i] == s[0];
    var j :| 0 <= j < |s| && s[j] == t[0];
    if i > 0 && j > 0 {
      LessIsTotal(s[0], t[0]);
    }
  }

  lemma TailElements(s: seq<string>)
    requires Ordered(s) && s != []
    ensures forall y :: y in s[1..] <==> y in s && y != s[0]
  {
    assert s == [s[0]] + s[1..];
    LessIsTotal(s[0], s[0]);
    forall j | 0 < j < |s| ensures s[j] != s[0] {
      assert Less(s[0], s[j]);
    }
  }

  /** There is one ordered list of given names, so any correct sort gives this one. */
  lemma {:induction false} OrderedIsUnique(s: seq<string>, t: seq<string>)
    requires Ordered(s) && Ordered(t) && forall y :: y in s <==> y in t
    ensures s == t
  {
    assert s != [] ==> s[0] in t;
    assert t != [] ==> t[0] in s;
    if s != [] {
      FirstIsLeast(s, t);
      TailElements(s);
      TailElements(t);
      OrderedIsUnique(s[1..], t[1..]);
    }
  }

  // ---- pendingUpFiles ----

  predicate IsUp(file: string) {
    |file| >= |SUFFIX| && file[|file| - |SUFFIX|..] == SUFFIX
  }

  function NameOf(file: string): string
    requires IsUp(file)
  {
    file[..|file| - |SUFFIX|]
  }

  function UpFiles(files: seq<string>): (r: seq<string>)
    ensures forall f :: f in r <==> f in files && IsUp(f)
  {
    if files == [] then []
    else
      assert files == [files[0]] + files[1..];
      (if IsUp(files[0]) then [files[0]] else []) + UpFiles(files[1..])
  }

  function Names(files: seq<string>): (r: seq<string>)
    requires forall f | f in files :: IsUp(f)
    ensures |r| == |files| && forall i | 0 <= i < |files| :: r[i] == NameOf(files[i])
  {
    if files == [] then [] else [NameOf(files[0])] + Names(files[1..])
  }

  lemma {:induction false} UpFilesDistinct(files: seq<string>)
    requires Distinct(files)
    ensures Distinct(UpFiles(files))
  {
    if files != [] {
      UpFilesDistinct(files[1..]);
    }
  }

  /** The whole directory in the order `up` would apply it. */
  function Order(d: Directory): seq<string>
    requires Distinct(d.files)
  {
    UpFilesDistinct(d.files);
    SortSorts(UpFiles(d.files));
    Names(Sort(UpFiles(d.files)))
  }

  lemma SuffixBack(file: string)
    requires IsUp(file)
    ensures file == NameOf(file) + SUFFIX
  {
  }

  lemma SuffixOn(name: string)
    ensures IsUp(name + SUFFIX) && NameOf(name + SUFFIX) == name
  {
  }

  /** Position by position, the order is the sorted up files without their suffix. */
  lemma OrderAt(d: Directory)
    requires Distinct(d.files)
    ensures var sorted := Sort(UpFiles(d.files));
            && Ordered(sorted) && (forall f :: f in sorted <==> f in d.files && IsUp(f))
            && |Order(d)| == |sorted| && forall i | 0 <= i < |sorted| :: sorted[i] == Order(d)[i] + SUFFIX
  {
    UpFilesDistinct(d.files);
    var sorted := Sort(UpFiles(d.files));
    SortSorts(UpFiles(d.files));
    hide Sort, UpFiles, Ordered, Distinct;
    forall i | 0 <= i < |sorted| ensures sorted[i] == Order(d)[i] + SUFFIX {
      SuffixBack(sorted[i]);
    }
  }

  /** Each name in the order once: exactly the names of the up files. */
  lemma OrderNames(d: Directory)
    requires Distinct(d.files)
    ensures Distinct(Order(d))
    ensures forall name :: name in Order(d) <==> name + ".up.sql" in d.files
  {
    OrderAt(d);
    var sorted, order := Sort(UpFiles(d.files)), Order(d);
    hide Sort, UpFiles, Order, IsUp, NameOf, Less;
    forall i, j | 0 <= i < j < |sorted| ensures order[i] != order[j] {
      LessIsTotal(sorted[i], sorted[j]);
    }
    forall name ensures name in order <==> name + ".up.sql" in d.files {
      SuffixOn(name);
      if name in order {
        var i :| 0 <= i < |order| && order[i] == name;
        assert sorted[i] in sorted;
      }
      if name + SUFFIX in d.files {
        var i :| 0 <= i < |sorted| && sorted[i] == name + SUFFIX;
        SameName(order[i], name);
      }
    }
  }

  lemma SameName(a: string, b: string)
    requires a + SUFFIX == b + SUFFIX
    ensures a == b
  {
    SuffixOn(a);
    SuffixOn(b);
  }

  function Omit(names: seq<string>, applied: seq<string>): (r: seq<string>)
    ensures forall n :: n in r <==> n in names && n !in applied
  {
    if names == [] then []
    else
      assert names == [names[0]] + names[1..];
      (if names[0] in applied then [] else [names[0]]) + Omit(names[1..], applied)
  }

  function PendingUpFiles(d: Directory, applied: seq<string>): seq<string>
    requires Distinct(d.files)
  {
    Omit(Order(d), applied)
  }

  lemma {:induction false} OmitPrefix(names: seq<string>, n: nat, applied: seq<string>)
    requires Distinct(names) && n <= |names| && forall x | x in names :: x in applied <==> x in names[..n]
    ensures Omit(names, applied) == names[n..]
  {
    if names != [] {
      var rest := names[1..];
      assert names == [names[0]] + rest;
      var m := if n == 0 then 0 else n - 1;
      assert n > 0 ==> names[..n] == [names[0]] + rest[..m];
      forall x | x in rest ensures x in applied <==> x in rest[..m] {
      }
      OmitPrefix(rest, m, applied);
    }
  }

  // ---- up and down ----

  /** One transaction of `up`: the SQL and its row, or neither. */
  function Apply(d: Directory, db: Database, name: string): Option<Database> {
    var content := d.upSql(name, db.content);
    if content.None? || name in db.applied then None else Some(Database(db.applied + [name], content.value))
  }

  function UpLoop(d: Directory, db: Database, pending: seq<string>, budget: nat): (Database, bool)
    decreases budget, |pending|
  {
    if pending == [] then (db, true)
    else
      var next := Apply(d, db, pending[0]);
      if budget == 0 || next.None? then (db, false) else UpLoop(d, next.value, pending[1..], budget - 1)
  }

  function RunUp(d: Directory, db: Database, budget: nat): (Database, bool)
    requires Distinct(d.files)
  {
    UpLoop(d, db, PendingUpFiles(d, db.applied), budget)
  }

  /** ORDER BY applied_at DESC LIMIT steps. */
  function Newest(applied: seq<string>, steps: nat): seq<string> {
    if steps == 0 || applied == [] then []
    else [applied[|applied| - 1]] + Newest(applied[..|applied| - 1], steps - 1)
  }

  function Revert(d: Directory, db: Database, name: string): Option<Database> {
    var content := d.downSql(name, db.content);
    if !d.hasDown(name) || content.None? then None else Some(Database(Omit(db.applied, [name]), content.value))
  }

  function DownLoop(d: Directory, db: Database, names: seq<string>, budget: nat): (Database, bool)
    decreases budget, |names|
  {
    if names == [] then (db, true)
    else
      var next := Revert(d, db, names[0]);
      if budget == 0 || next.None? then (db, false) else DownLoop(d, next.value, names[1..], budget - 1)
  }

  function RunDown(d: Directory, db: Database, steps: nat, budget: nat): (Database, bool) {
    DownLoop(d, db, Newest(db.applied, steps), budget)
  }

  function RunCommand(d: Directory, db: Database, c: Command): (Database, bool)
    requires Distinct(d.files)
  {
    match c
    case Up(budget) => RunUp(d, db, budget)
    case Down(steps, budget) => RunDown(d, db, steps, budget)
  }

  function Run(d: Directory, db: Database, commands: seq<Command>): Database
    requires Distinct(d.files)
  {
    if commands == [] then db
    else RunCommand(d, Run(d, db, commands[..|commands| - 1]), commands[|commands| - 1]).0
  }

  /** `down` stops at a newest file it has no down file for, or whose SQL fails, and leaves everything as it was. */
  lemma DownStopsIff(d: Directory, db: Database, budget: nat)
    requires db.applied != []
    ensures var name := db.applied[|db.applied| - 1];
            var (after, ok) := RunDown(d, db, 1, budget);
            && (ok <==> d.hasDown(name) && budget > 0 && d.downSql(name, db.content).Some?)
            && (!ok ==> after == db)
            && (ok ==> Some(after.content) == d.downSql(name, db.content) && name !in after.applied
                       && forall x :: x in after.applied <==> x in db.applied && x != name)
  {
    var n, names := |db.applied| - 1, Newest(db.applied, 1);
    assert Newest(db.applied[..n], 0) == [];
    assert names == [db.applied[n]] && names[1..] == [];
    var next := Revert(d, db, db.applied[n]);
    assert next.Some? && budget > 0 ==> DownLoop(d, next.value, [], budget - 1) == (next.value, true);
    assert RunDown(d, db, 1, budget) == if budget > 0 && next.Some? then (next.value, true) else (db, false);
    hide DownLoop, Newest, RunDown;
  }

  /** `up` runs the first pending file, and stops there when its SQL fails. */
  lemma UpStopsIff(d: Directory, db: Database, budget: nat)
    requires Distinct(d.files) && PendingUpFiles(d, db.applied) != []
    ensures var name := PendingUpFiles(d, db.applied)[0];
            var (after, ok) := RunUp(d, db, budget);
            && name !in db.applied && name + ".up.sql" in d.files
            && (d.upSql(name, db.content).None? || budget == 0 ==> !ok && after == db)
            && (budget == 1 && d.upSql(name, db.content).Some? ==>
                  after.applied == db.applied + [name] && Some(after.content) == d.upSql(name, db.content))
  {
    OrderNames(d);
    hide Order, Distinct;
    var pending := PendingUpFiles(d, db.applied);
    assert pending[0] in pending;
    var next := Apply(d, db, pending[0]);
    assert next.Some? ==> UpLoop(d, next.value, pending[1..], 0).0 == next.value;
    assert UpLoop(d, db, pending, budget) ==
           if budget == 0 || next.None? then (db, false) else UpLoop(d, next.value, pending[1..], budget - 1);
    hide UpLoop;
  }

  // ---- stack discipline ----

  predicate IsPrefix(s: seq<string>, t: seq<string>) {
    |s| <= |t| && s == t[..|s|]
  }

  lemma {:induction false} OmitLast(applied: seq<string>)
    requires Distinct(applied) && applied != []
    ensures Omit(applied, [applied[|applied| - 1]]) == applied[..|applied| - 1]
  {
    if |applied| > 1 {
      OmitLast(applied[1..]);
      assert applied[..|applied| - 1] == [applied[0]] + applied[1..][..|applied| - 2];
    }
  }

  lemma {:induction false} UpLoopKeepsPrefix(d: Directory, db: Database, order: seq<string>, budget: nat)
    requires IsPrefix(db.applied, order)
    ensures IsPrefix(UpLoop(d, db, order[|db.applied|..], budget).0.applied, order)
    decreases budget
  {
    var pending := order[|db.applied|..];
    if pending != [] && budget > 0 {
      var next := Apply(d, db, pending[0]);
      if next.Some? {
        assert pending[1..] == order[|next.value.applied|..];
        UpLoopKeepsPrefix(d, next.value, order, budget - 1);
      }
    }
  }

  lemma PrefixIsDistinct(s: seq<string>, t: seq<string>)
    requires IsPrefix(s, t) && Distinct(t)
    ensures Distinct(s)
  {
  }

  /** Reverting the newest name takes it off the end. */
  lemma RevertPops(d: Directory, db: Database)
    requires Distinct(db.applied) && db.applied != []
    ensures var n := |db.applied| - 1;
            var next := Revert(d, db, db.applied[n]);
            next.Some? ==> next.value.applied == db.applied[..n]
  {
    OmitLast(db.applied);
  }

  lemma RevertFirst(d: Directory, db: Database, k: nat, budget: nat)
    requires k > 0 && db.applied != [] && budget > 0
    requires var next := Revert(d, db, db.applied[|db.applied| - 1]);
             next.Some? ==> next.value.applied == db.applied[..|db.applied| - 1]
    ensures var next := Revert(d, db, db.applied[|db.applied| - 1]);
            RunDown(d, db, k, budget) == if next.Some? then RunDown(d, next.value, k - 1, budget - 1) else (db, false)
  {
    hide Revert;
    assert Newest(db.applied, k)[1..] == Newest(db.applied[..|db.applied| - 1], k - 1);
  }

  lemma {:induction false} DownKeepsPrefix(d: Directory, db: Database, order: seq<string>, steps: nat, budget: nat)
    requires IsPrefix(db.applied, order) && Distinct(order)
    ensures IsPrefix(RunDown(d, db, steps, budget).0.applied, order)
    decreases steps
  {
    if steps > 0 && db.applied != [] && budget > 0 {
      PrefixIsDistinct(db.applied, order);
      hide Distinct, Revert, RunDown;
      RevertPops(d, db);
      RevertFirst(d, db, steps, budget);
      var next := Revert(d, db, db.applied[|db.applied| - 1]);
      if next.Some? {
        DownKeepsPrefix(d, next.value, order, steps - 1, budget - 1);
      }
    }
  }

  lemma PendingIsSuffix(d: Directory, applied: seq<string>)
    requires Distinct(d.files) && IsPrefix(applied, Order(d))
    ensures PendingUpFiles(d, applied) == Order(d)[|applied|..]
  {
    OrderNames(d);
    OmitPrefix(Order(d), |applied|, applied);
  }

  /** Whatever fails, after any commands the applied names are a prefix of the sorted directory. */
  lemma {:induction false} AppliedIsAPrefix(d: Directory, content: Content, commands: seq<Command>)
    requires Distinct(d.files)
    ensures IsPrefix(Run(d, Database([], content), commands).applied, Order(d))
  {
    if commands != [] {
      var n := |commands| - 1;
      AppliedIsAPrefix(d, content, commands[..n]);
      var db := Run(d, Database([], content), commands[..n]);
      OrderNames(d);
      match commands[n]
      case Up(budget) =>
        PendingIsSuffix(d, db.applied);
        UpLoopKeepsPrefix(d, db, Order(d), budget);
      case Down(steps, budget) => DownKeepsPrefix(d, db, Order(d), steps, budget);
    }
  }

  // ---- what the database holds ----

  /** The up files of `names` one after another. */
  function Compose(d: Directory, names: seq<string>, content: Content): Option<Content> {
    if names == [] then Some(content)
    else
      var n := |names| - 1;
      var before := Compose(d, names[..n], content);
      if before.None? then None else d.upSql(names[n], before.value)
  }

  /** The down file exists and takes every result of the up file back. */
  ghost predicate Inverts(d: Directory, name: string) {
    d.hasDown(name)
    && forall c: Content :: d.upSql(name, c).Some? ==> d.downSql(name, d.upSql(name, c).value) == Some(c)
  }

  /** The database is exactly what the applied up files make of the original content. */
  predicate Built(d: Directory, content: Content, db: Database)
    requires Distinct(d.files)
  {
    IsPrefix(db.applied, Order(d)) && Compose(d, db.applied, content) == Some(db.content)
  }

  lemma ApplyKeepsBuilt(d: Directory, content: Content, db: Database)
    requires Distinct(d.files) && Built(d, content, db) && |db.applied| < |Order(d)|
    ensures var next := Apply(d, db, Order(d)[|db.applied|]);
            next.Some? ==> Built(d, content, next.value) && |next.value.applied| == |db.applied| + 1
  {
    var name := Order(d)[|db.applied|];
    assert (db.applied + [name])[..|db.applied|] == db.applied;
    assert db.applied + [name] == Order(d)[..|db.applied| + 1];
  }

  lemma RevertKeepsBuilt(d: Directory, content: Content, db: Database)
    requires Distinct(d.files) && Built(d, content, db) && db.applied != [] && Inverts(d, db.applied[|db.applied| - 1])
    ensures var n := |db.applied| - 1;
            var next := Revert(d, db, db.applied[n]);
            next.Some? && Built(d, content, next.value) && next.value.applied == db.applied[..n]
            && d.upSql(db.applied[n], next.value.content) == Some(db.content)
  {
    OrderNames(d);
    PrefixIsDistinct(db.applied, Order(d));
    hide Order, Omit, Distinct;
    RevertPops(d, db);
    var n := |db.applied| - 1;
    var before := Compose(d, db.applied[..n], content);
    hide Compose;
    assert d.downSql(db.applied[n], db.content) == before;
    assert db.applied[..n] == Order(d)[..n];
  }

  lemma {:induction false} UpLoopKeepsBuilt(d: Directory, content: Content, db: Database, budget: nat)
    requires Distinct(d.files) && Built(d, content, db)
    ensures Built(d, content, UpLoop(d, db, Order(d)[|db.applied|..], budget).0)
    decreases budget
  {
    var pending := Order(d)[|db.applied|..];
    if pending != [] && budget > 0 {
      ApplyKeepsBuilt(d, content, db);
      var next := Apply(d, db, pending[0]);
      if next.Some? {
        assert pending[1..] == Order(d)[|next.value.applied|..];
        UpLoopKeepsBuilt(d, content, next.value, budget - 1);
      }
    }
  }

  /** The down files of the k newest names invert their up files. */
  ghost predicate TopInverts(d: Directory, names: seq<string>, k: nat) {
    forall i | 0 <= i < |names| && i >= |names| - k :: Inverts(d, names[i])
  }

  lemma TopInvertsFewer(d: Directory, names: seq<string>, k: nat)
    requires names != [] && k > 0 && TopInverts(d, names, k)
    ensures Inverts(d, names[|names| - 1]) && TopInverts(d, names[..|names| - 1], k - 1)
  {
    hide Inverts;
  }

  lemma {:induction false} DownKeepsBuilt(d: Directory, content: Content, db: Database, steps: nat, budget: nat)
    requires Distinct(d.files) && Built(d, content, db) && TopInverts(d, db.applied, |db.applied|)
    ensures Built(d, content, RunDown(d, db, steps, budget).0)
    decreases steps
  {
    hide Compose, Order, Inverts, DownLoop, Revert, Distinct, TopInverts, Newest;
    if steps == 0 {
      RevertNone(d, db, budget);
    } else if db.applied == [] || budget == 0 {
      NothingReverted(d, db, steps, budget);
    } else {
      TopInvertsFewer(d, db.applied, |db.applied|);
      RevertKeepsBuilt(d, content, db);
      RevertFirst(d, db, steps, budget);
      hide Built, RunDown;
      DownKeepsBuilt(d, content, Revert(d, db, db.applied[|db.applied| - 1]).value, steps - 1, budget - 1);
    }
  }

  lemma NothingReverted(d: Directory, db: Database, steps: nat, budget: nat)
    requires db.applied == [] || budget == 0
    ensures RunDown(d, db, steps, budget).0 == db
  {
  }

  /** When every down file inverts its up file, any commands with any failures leave the composition of the prefix. */
  lemma {:induction false} DatabaseIsTheComposition(d: Directory, content: Content, commands: seq<Command>)
    requires Distinct(d.files) && forall name | name in Order(d) :: Inverts(d, name)
    ensures Built(d, content, Run(d, Database([], content), commands))
  {
    if commands != [] {
      var n := |commands| - 1;
      DatabaseIsTheComposition(d, content, commands[..n]);
      var db := Run(d, Database([], content), commands[..n]);
      match commands[n]
      case Up(budget) =>
        PendingIsSuffix(d, db.applied);
        UpLoopKeepsBuilt(d, content, db, budget);
      case Down(steps, budget) => DownKeepsBuilt(d, content, db, steps, budget);
    }
  }

  // ---- up undoes down ----

  /** Reverting k leaves the prefix before them, and applying again is applying from `db` with k transactions fewer. */
  predicate Restores(d: Directory, content: Content, db: Database, k: nat, budget: nat, again: nat)
    requires Distinct(d.files) && IsPrefix(db.applied, Order(d)) && k <= |db.applied| && k <= again
  {
    var (down, ok) := RunDown(d, db, k, budget);
    && ok && down.applied == db.applied[..|db.applied| - k] && Built(d, content, down)
    && UpLoop(d, down, Order(d)[|down.applied|..], again) == UpLoop(d, db, Order(d)[|db.applied|..], again - k)
  }

  /** Reverting k from the top and applying again comes back to where it started, from any built state. */
  lemma {:induction false} DownThenUp(d: Directory, content: Content, db: Database, k: nat, budget: nat, again: nat)
    requires Distinct(d.files) && Built(d, content, db) && TopInverts(d, db.applied, k)
    requires k <= |db.applied| && budget >= k && again >= k
    ensures Restores(d, content, db, k, budget, again)
    decreases k
  {
    hide Compose, Order, Inverts, UpLoop, DownLoop, Revert, Distinct, TopInverts, Newest;
    if k == 0 {
      RevertNone(d, db, budget);
    } else {
      TopInvertsFewer(d, db.applied, k);
      RevertKeepsBuilt(d, content, db);
      var next := Revert(d, db, db.applied[|db.applied| - 1]).value;
      DownThenUp(d, content, next, k - 1, budget - 1, again);
      RevertFirst(d, db, k, budget);
      ApplyAgain(d, content, next, db, again - k);
      hide RunDown, Built;
      assert next.applied[..|db.applied| - k] == db.applied[..|db.applied| - k];
    }
  }

  lemma RevertNone(d: Directory, db: Database, budget: nat)
    ensures RunDown(d, db, 0, budget) == (db, true) && db.applied[..|db.applied|] == db.applied
  {
  }

  lemma ApplyAgain(d: Directory, content: Content, next: Database, db: Database, budget: nat)
    requires Distinct(d.files) && IsPrefix(db.applied, Order(d)) && db.applied != []
    requires var n := |db.applied| - 1;
             next.applied == db.applied[..n] && d.upSql(db.applied[n], next.content) == Some(db.content)
    ensures UpLoop(d, next, Order(d)[|next.applied|..], budget + 1) == UpLoop(d, db, Order(d)[|db.applied|..], budget)
  {
    var n := |db.applied| - 1;
    OrderNames(d);
    hide Order;
    var pending := Order(d)[n..];
    assert pending[0] == db.applied[n] && pending[1..] == Order(d)[n + 1..];
    assert db.applied == next.applied + [db.applied[n]];
    assert Apply(d, next, pending[0]) == Some(db);
  }

  /** From a fully migrated database `up` after `down(k)` restores it, when the k newest down files invert. */
  lemma UpUndoesDown(d: Directory, content: Content, db: Database, k: nat, budget: nat, again: nat)
    requires Distinct(d.files) && Built(d, content, db) && db.applied == Order(d)
    requires TopInverts(d, db.applied, k)
    requires budget >= k && again >= k
    ensures var (down, ok) := RunDown(d, db, k, budget);
            ok && |down.applied| == Max(|db.applied| - k, 0) && RunUp(d, down, again) == (db, true)
  {
    var m := if k <= |db.applied| then k else |db.applied|;
    DownThenUp(d, content, db, m, budget, again);
    NewestIsLimited(db.applied, k);
    var down := RunDown(d, db, k, budget).0;
    PendingIsSuffix(d, down.applied);
  }

  lemma {:induction false} NewestIsLimited(applied: seq<string>, steps: nat)
    ensures steps >= |applied| ==> Newest(applied, steps) == Newest(applied, |applied|)
  {
    if applied != [] && steps > 0 {
      NewestIsLimited(applied[..|applied| - 1], steps - 1);
    }
  }

  // ---- the runner ----

  class Migrator {
    const dir: Directory
    var applied: seq<string>
    var content: Content

    constructor (dir: Directory, content: Content)
      ensures this.dir == dir && Stored() == Database([], content)
    {
      this.dir, this.applied, this.content := dir, [], content;
    }

    function Stored(): Database
      reads this
    {
      Database(applied, content)
    }

    /** BEGIN, the SQL, the tracking statement, COMMIT; any failure rolls both back. */
    method RunInTransaction(sql: Option<Content>, tracking: Option<seq<string>>, survives: bool) returns (ok: bool)
      modifies this
      ensures ok == (sql.Some? && tracking.Some? && survives)
      ensures Stored() == if ok then Database(tracking.value, sql.value) else old(Stored())
    {
      var beginApplied, beginContent := applied, content;
      ok := sql.Some?;
      if ok {
        content := sql.value;
        ok := tracking.Some?;
      }
      if ok {
        applied := tracking.value;
        ok := survives;
      }
      if !ok {
        applied, content := beginApplied, beginContent;
      }
    }

    method Up(budget: nat) returns (ok: bool)
      requires Distinct(dir.files)
      modifies this
      ensures (Stored(), ok) == RunUp(dir, old(Stored()), budget)
    {
      hide Order, Distinct, Omit;
      var pending := PendingUpFiles(dir, applied);
      var i := 0;
      while i < |pending|
        invariant 0 <= i <= |pending| && i <= budget
        invariant UpLoop(dir, Stored(), pending[i..], budget - i) == UpLoop(dir, old(Stored()), pending, budget)
      {
        var name := pending[i];
        assert pending[i..][1..] == pending[i + 1..];
        var tracking := if name in applied then None else Some(applied + [name]);
        ok := RunInTransaction(dir.upSql(name, content), tracking, i < budget);
        if !ok {
          return;
        }
        i := i + 1;
      }
      ok := true;
    }

    /** A missing down file stops the run before its transaction. */
    method Down(steps: nat, budget: nat) returns (ok: bool)
      modifies this
      ensures (Stored(), ok) == RunDown(dir, old(Stored()), steps, budget)
    {
      hide Newest, Omit;
      var names := Newest(applied, steps);
      var i := 0;
      while i < |names|
        invariant 0 <= i <= |names| && i <= budget
        invariant DownLoop(dir, Stored(), names[i..], budget - i) == DownLoop(dir, old(Stored()), names, budget)
      {
        var name := names[i];
        assert names[i..][1..] == names[i + 1..];
        if !dir.hasDown(name) {
          return false;
        }
        ok := RunInTransaction(dir.downSql(name, content), Some(Omit(applied, [name])), i < budget);
        if !ok {
          return;
        }
        i := i + 1;
      }
      ok := true;
    }
  }
}
