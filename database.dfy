/** The cleaning steps of the database import: column-name normalisation, suffixing of duplicate
    column names, removal of the rows that lack a key (the transaction summary rows), the two
    money-string conversions and the import counters. */
module Database {
  import opened Common
  import PayPerUse

  // ---------------------------------------------------------------- column names

  /** `.str.strip().str.lower().str.replace(' ', '_').str.replace('/', '_')`. */
  function NormalizeColumn(s: string): string
  {
    ReplaceAll(ReplaceAll(Lower(Strip(s)), " ", "_"), "/", "_")
  }

  /** The check-in import also maps '-' to '_'. */
  function CheckinColumn(s: string): string
  {
    ReplaceAll(NormalizeColumn(s), "-", "_")
  }

  /** The transactions import also deletes '.'. */
  function TransactionColumn(s: string): string
  {
    ReplaceAll(NormalizeColumn(s), ".", "")
  }

  /** The three header treatments of the import. */
  datatype HeaderStyle = Plain | Checkins | Transactions

  function CleanColumn(style: HeaderStyle, s: string): string
  {
    match style
    case Plain => NormalizeColumn(s)
    case Checkins => CheckinColumn(s)
    case Transactions => TransactionColumn(s)
  }

  /** `df.columns = df.columns.str...`: the header, name by name. */
  function CleanColumns(style: HeaderStyle, cols: seq<string>): (r: seq<string>)
    ensures |r| == |cols|
    ensures forall k :: 0 <= k < |cols| ==> r[k] == CleanColumn(style, cols[k])
  {
    seq(|cols|, k requires 0 <= k < |cols| => CleanColumn(style, cols[k]))
  }

  /** A normalised name is the stripped name lower-cased, with ' ' and '/' turned into '_'. */
  lemma NormalizeColumnChars(s: string)
    ensures |NormalizeColumn(s)| == |Strip(s)|
    ensures forall i :: 0 <= i < |Strip(s)| ==>
      NormalizeColumn(s)[i] == (var c := LowerChar(Strip(s)[i]); if c == ' ' || c == '/' then '_' else c)
  {
    var low := Lower(Strip(s));
    ReplaceChar(low, ' ', '_');
    ReplaceChar(ReplaceAll(low, " ", "_"), '/', '_');
  }

  /** A normalised name has no space, no '/', no upper-case letter, and no whitespace at either end. */
  lemma NormalizedIsClean(s: string)
    ensures ' ' !in NormalizeColumn(s) && '/' !in NormalizeColumn(s)
    ensures NoUpper(NormalizeColumn(s))
    ensures Strip(NormalizeColumn(s)) == NormalizeColumn(s)
  {
    var r := NormalizeColumn(s);
    var t := Strip(s);
    NormalizeColumnChars(s);
    forall i | 0 <= i < |r| ensures r[i] != ' ' && r[i] != '/' && !IsUpper(r[i]) {
      LowerCharClean(t[i]);
    }
    if |r| > 0 {
      LowerCharClean(t[0]);
      LowerCharClean(t[|t| - 1]);
    }
    StripNoop(r);
  }

  /** What the normalisation makes of one character: not upper-case, and whitespace only if the
      character was. */
  lemma LowerCharClean(ch: char)
    ensures var c := LowerChar(ch); var n := if c == ' ' || c == '/' then '_' else c;
      n != ' ' && n != '/' && !IsUpper(n) && (IsSpace(n) ==> IsSpace(ch))
  {
  }

  /** Replacing a character that does not occur changes nothing. */
  lemma ReplaceAbsent(s: string, a: char, b: char)
    requires a !in s
    ensures ReplaceAll(s, [a], [b]) == s
  {
    ReplaceChar(s, a, b);
  }

  /** Lower-casing a string without upper-case letters changes nothing. */
  lemma LowerNoUpper(s: string)
    requires NoUpper(s)
    ensures Lower(s) == s
  {
  }

  /** A name that is already clean is its own normal form. */
  lemma CleanNameFixed(r: string)
    requires ' ' !in r && '/' !in r && NoUpper(r) && Strip(r) == r
    ensures NormalizeColumn(r) == r
  {
    LowerNoUpper(r);
    ReplaceAbsent(r, ' ', '_');
    ReplaceAbsent(r, '/', '_');
  }

  /** Normalising a normalised name changes nothing. */
  lemma NormalizeIdempotent(s: string)
    ensures NormalizeColumn(NormalizeColumn(s)) == NormalizeColumn(s)
  {
    NormalizedIsClean(s);
    CleanNameFixed(NormalizeColumn(s));
  }

  /** A check-in column name is clean and has no '-' either. */
  lemma CheckinColumnIsClean(s: string)
    ensures var r := CheckinColumn(s);
      ' ' !in r && '/' !in r && '-' !in r && NoUpper(r)
  {
    var n := NormalizeColumn(s);
    NormalizedIsClean(s);
    ReplaceChar(n, '-', '_');
    var r := CheckinColumn(s);
    forall i | 0 <= i < |r| ensures r[i] != ' ' && r[i] != '/' && r[i] != '-' && !IsUpper(r[i]) {
      assert n[i] in n;
    }
  }

  /** Check-in normalisation is also idempotent. */
  lemma CheckinColumnIdempotent(s: string)
    ensures CheckinColumn(CheckinColumn(s)) == CheckinColumn(s)
  {
    var r := CheckinColumn(s);
    CheckinColumnIsClean(s);
    CheckinStripped(s);
    CleanNameFixed(r);
    ReplaceAbsent(r, '-', '_');
  }

  /** A check-in column name has no whitespace at either end. */
  lemma CheckinStripped(s: string)
    ensures Strip(CheckinColumn(s)) == CheckinColumn(s)
  {
    var r := CheckinColumn(s);
    var n := NormalizeColumn(s);
    NormalizedIsClean(s);
    ReplaceChar(n, '-', '_');
    if |r| > 0 {
      assert Strip(n) == n;
      assert !IsSpace(r[0]) && !IsSpace(r[|r| - 1]);
    }
    StripNoop(r);
  }

  /** A transaction column name is clean and has no '.'. */
  lemma TransactionColumnIsClean(s: string)
    ensures var r := TransactionColumn(s);
      ' ' !in r && '/' !in r && '.' !in r && NoUpper(r)
  {
    var n := NormalizeColumn(s);
    NormalizedIsClean(s);
    DeleteChar(n, '.');
    var r := TransactionColumn(s);
    forall i | 0 <= i < |r| ensures r[i] != ' ' && r[i] != '/' && !IsUpper(r[i]) {
      assert r[i] in r;
      if r[i] != '.' {
        assert r[i] in n;
      }
    }
  }

  // ---------------------------------------------------------------- duplicate column names

  /** `str(n)`. */
  function NatText(n: nat): (r: string)
    ensures |r| > 0 && AllDigits(r) && DigitsValue(r) == n
  {
    if n < 10 then [('0' as int + n) as char]
    else
      var r := NatText(n / 10) + [('0' as int + n % 10) as char];
      assert r[..|r| - 1] == NatText(n / 10);
      r
  }

  /** The name given to occurrence `r` (from 0) of a duplicated name: the first keeps it. */
  function Suffixed(dup: string, r: nat): (s: string)
    ensures dup <= s
  {
    if r == 0 then dup else dup + "_" + NatText(r)
  }

  // The renaming is written over any element type and any naming rule; the header uses
  // strings and `Suffixed`.

  /** The number of times `x` occurs. */
  function Occurrences<T(==)>(s: seq<T>, x: T): (r: nat)
    ensures r <= |s|
    ensures r > 0 <==> x in s
  {
    if s == [] then 0
    else
      assert s == s[..|s| - 1] + [s[|s| - 1]];
      Occurrences(s[..|s| - 1], x) + (if s[|s| - 1] == x then 1 else 0)
  }

  /** One pass of the loop: the cells equal to `dup` become name(dup, 0), name(dup, 1), ... by
      position. */
  function RenameGroup<T(==)>(cols: seq<T>, dup: T, name: (T, nat) -> T): (r: seq<T>)
    ensures |r| == |cols|
  {
    seq(|cols|, k requires 0 <= k < |cols| => RenamedAt(cols, dup, name, k))
  }

  /** The name position `k` gets in that pass. */
  function RenamedAt<T(==)>(cols: seq<T>, dup: T, name: (T, nat) -> T, k: nat): T
    requires k < |cols|
  {
    if cols[k] == dup then name(dup, Occurrences(cols[..k], dup)) else cols[k]
  }

  /** `cols[cols.duplicated()].unique()`: each name that occurs more than once, in the order of its
      second occurrence. */
  function DuplicatedNames<T(==,!new)>(cols: seq<T>): (r: seq<T>)
    ensures forall i, j :: 0 <= i < j < |r| ==> r[i] != r[j]
    ensures forall x :: x in r <==> Occurrences(cols, x) >= 2
  {
    if cols == [] then []
    else
      var init := cols[..|cols| - 1];
      var last := cols[|cols| - 1];
      var d := DuplicatedNames(init);
      if last in init && last !in d then d + [last] else d
  }

  /** The groups renamed one after the other, each on the names the previous ones left. */
  function RenameAll<T(==)>(cols: seq<T>, dups: seq<T>, name: (T, nat) -> T): (r: seq<T>)
    ensures |r| == |cols|
  {
    if dups == [] then cols
    else RenameGroup(RenameAll(cols, dups[..|dups| - 1], name), dups[|dups| - 1], name)
  }

  /** The header after the duplicate handling of the instructors import. */
  function Deduplicated(cols: seq<string>): (r: seq<string>)
    ensures |r| == |cols|
  {
    RenameAll(cols, DuplicatedNames(cols), Suffixed)
  }

  /** `cols[cols == dup] = [...]`, on the array in place. */
  method RenameInPlace<T(==)>(cols: array<T>, dup: T, name: (T, nat) -> T)
    modifies cols
    ensures cols[..] == RenameGroup(old(cols[..]), dup, name)
  {
    ghost var cur := cols[..];
    var count := 0;
    var j := 0;
    while j < cols.Length
      invariant 0 <= j <= cols.Length
      invariant count == Occurrences(cur[..j], dup)
      invariant forall k :: 0 <= k < j ==> cols[k] == RenamedAt(cur, dup, name, k)
      invariant forall k :: j <= k < cols.Length ==> cols[k] == cur[k]
    {
      assert cur[..j + 1][..j] == cur[..j];
      if cols[j] == dup {
        assert RenamedAt(cur, dup, name, j) == name(dup, count);
        cols[j] := name(dup, count);
        count := count + 1;
      }
      j := j + 1;
    }
    ghost var g := RenameGroup(cur, dup, name);
    assert forall k :: 0 <= k < cols.Length ==> g[k] == RenamedAt(cur, dup, name, k);
    assert cols[..] == g;
  }

  /** The loop over the duplicated names, each group renamed in place in turn. */
  method RenameDuplicates<T(==,!new)>(cols: array<T>, name: (T, nat) -> T)
    modifies cols
    ensures cols[..] == RenameAll(old(cols[..]), DuplicatedNames(old(cols[..])), name)
  {
    ghost var orig := cols[..];
    var dups := DuplicatedNames(cols[..]);
    var d := 0;
    while d < |dups|
      invariant 0 <= d <= |dups|
      invariant cols[..] == RenameAll(orig, dups[..d], name)
    {
      RenameInPlace(cols, dups[d], name);
      assert dups[..d + 1][..d] == dups[..d];
      d := d + 1;
    }
    assert dups[..d] == dups;
  }

  /** The duplicate-handling loop of the instructors import over its header. */
  method SuffixDuplicates(cols: array<string>)
    modifies cols
    ensures cols[..] == Deduplicated(old(cols[..]))
  {
    RenameDuplicates(cols, Suffixed);
  }

  /** A position whose name is not among the renamed ones keeps it. */
  lemma {:induction false} RenameAllKeeps<T>(cols: seq<T>, dups: seq<T>, name: (T, nat) -> T, k: nat)
    requires k < |cols| && cols[k] !in dups
    ensures RenameAll(cols, dups, name)[k] == cols[k]
  {
    if dups != [] {
      var init := dups[..|dups| - 1];
      assert cols[k] !in init;
      RenameAllKeeps(cols, init, name, k);
    }
  }

  /** A name that occurs only once is left alone. */
  lemma UniqueNameKept(cols: seq<string>, k: nat)
    requires k < |cols| && Occurrences(cols, cols[k]) < 2
    ensures Deduplicated(cols)[k] == cols[k]
  {
    RenameAllKeeps(cols, DuplicatedNames(cols), Suffixed, k);
  }

  /** Every new name starts with the name it replaces. */
  lemma {:induction false} RenameAllExtends(cols: seq<string>, dups: seq<string>, k: nat)
    requires k < |cols|
    ensures cols[k] <= RenameAll(cols, dups, Suffixed)[k]
  {
    if dups != [] {
      var init := dups[..|dups| - 1];
      RenameAllExtends(cols, init, k);
      var cur := RenameAll(cols, init, Suffixed);
      var next := RenameGroup(cur, dups[|dups| - 1], Suffixed);
      assert cur[k] <= next[k];
      assert cols[k] == cur[k][..|cols[k]|];
      assert cur[k] == next[k][..|cur[k]|];
    }
  }

  /** Positions whose names agree on equality with `x` hold `x` equally often. */
  lemma {:induction false} OccurrencesAgree<T>(a: seq<T>, b: seq<T>, x: T)
    requires |a| == |b|
    requires forall j :: 0 <= j < |a| ==> (a[j] == x <==> b[j] == x)
    ensures Occurrences(a, x) == Occurrences(b, x)
  {
    if a != [] {
      OccurrencesAgree(a[..|a| - 1], b[..|b| - 1], x);
    }
  }

  /** No renamed name is itself one of the duplicated names: `a_1` is not already a header
      while `a` is duplicated. */
  ghost predicate NoClash(dups: seq<string>)
  {
    forall d, e, r: nat :: d in dups && e in dups && r > 0 ==> Suffixed(d, r) != e
  }

  /** The name a position ends with when the groups do not interact. */
  function Expected(cols: seq<string>, dups: seq<string>, j: nat): string
    requires j < |cols|
  {
    if cols[j] in dups then Suffixed(cols[j], Occurrences(cols[..j], cols[j])) else cols[j]
  }

  /** Without clashes the groups do not interact: every occurrence of a duplicated name gets its
      positional suffix, counted on the original header. */
  lemma {:induction false} RenameAllNoClash(cols: seq<string>, dups: seq<string>, j: nat)
    requires j < |cols| && NoClash(dups)
    requires forall a, b :: 0 <= a < b < |dups| ==> dups[a] != dups[b]
    ensures RenameAll(cols, dups, Suffixed)[j] == Expected(cols, dups, j)
    decreases |dups|
  {
    if dups != [] {
      var init := dups[..|dups| - 1];
      var e := dups[|dups| - 1];
      assert dups == init + [e];
      assert forall x :: x in dups <==> x in init || x == e;
      assert NoClash(init);
      var cur := RenameAll(cols, init, Suffixed);
      forall m | 0 <= m <= j ensures cur[m] == e <==> cols[m] == e {
        RenameAllNoClash(cols, init, m);
        NewNameDiffers(cols, init, e, m);
      }
      OccurrencesAgree(cur[..j], cols[..j], e);
      RenameAllNoClash(cols, init, j);
    }
  }

  /** The name the earlier groups give a position is `e`, a later duplicated name, only where `e`
      already stood. */
  lemma NewNameDiffers(cols: seq<string>, init: seq<string>, e: string, m: nat)
    requires m < |cols| && e !in init && NoClash(init + [e])
    ensures Expected(cols, init, m) == e <==> cols[m] == e
  {
    if cols[m] in init {
      var r := Occurrences(cols[..m], cols[m]);
      assert cols[m] in init + [e] && e in init + [e];
      assert r > 0 ==> Suffixed(cols[m], r) != e;
    }
  }

  /** The intended reading: when no renamed name clashes with a duplicated one, the first
      occurrence of each duplicated name keeps it, the r-th later one becomes name_r, and every
      other name is unchanged. */
  lemma DeduplicatedNoClash(cols: seq<string>, k: nat)
    requires k < |cols| && NoClash(DuplicatedNames(cols))
    ensures Occurrences(cols, cols[k]) < 2 ==> Deduplicated(cols)[k] == cols[k]
    ensures Occurrences(cols, cols[k]) >= 2 ==>
      Deduplicated(cols)[k] == Suffixed(cols[k], Occurrences(cols[..k], cols[k]))
  {
    RenameAllNoClash(cols, DuplicatedNames(cols), k);
  }

  /** A header without repeats has nothing to rename. */
  lemma DistinctUnchanged(cols: seq<string>)
    requires forall i, j :: 0 <= i < j < |cols| ==> cols[i] != cols[j]
    ensures Deduplicated(cols) == cols
  {
    forall k | 0 <= k < |cols| ensures Deduplicated(cols)[k] == cols[k] {
      DistinctOnce(cols, k);
      UniqueNameKept(cols, k);
    }
  }

  lemma {:induction false} DistinctOnce(cols: seq<string>, k: nat)
    requires forall i, j :: 0 <= i < j < |cols| ==> cols[i] != cols[j]
    requires k < |cols|
    ensures Occurrences(cols, cols[k]) == 1
  {
    var init := cols[..|cols| - 1];
    if k == |cols| - 1 {
      assert cols[k] !in init;
    } else {
      assert forall i, j :: 0 <= i < j < |init| ==> init[i] != init[j];
      assert init[k] == cols[k];
      DistinctOnce(init, k);
    }
  }

  /** A clash: with `a, a, a_1` the second `a` becomes `a_1` and the header still repeats a name. */
  lemma SuffixClash(cols: seq<string>)
    requires cols == ["a", "a", "a_1"]
    ensures Deduplicated(cols) == ["a", "a_1", "a_1"]
  {
    assert NatText(1) == "1";
    assert Suffixed("a", 1) == "a_1";
    ClashPattern("a", "a_1", Suffixed);
  }

  /** `x, x, y` where the second `x` is renamed to `y`: both later positions end up as `y`. */
  lemma ClashPattern<T(!new)>(x: T, y: T, name: (T, nat) -> T)
    requires x != y && name(x, 0) == x && name(x, 1) == y
    ensures RenameAll([x, x, y], DuplicatedNames([x, x, y]), name) == [x, y, y]
  {
    PatternDuplicates(x, y);
    assert [x][..0] == [];
    PatternGroup(x, y, name);
  }

  /** Renaming the group of `x` in `x, x, y`. */
  lemma PatternGroup<T>(x: T, y: T, name: (T, nat) -> T)
    requires x != y && name(x, 0) == x && name(x, 1) == y
    ensures RenameGroup([x, x, y], x, name) == [x, y, y]
  {
    var cols := [x, x, y];
    assert cols[..1] == [x] && cols[..1][..0] == [] && cols[..0] == [];
    assert Occurrences(cols[..1], x) == 1;
    var r := RenameGroup(cols, x, name);
    assert r[0] == RenamedAt(cols, x, name, 0) == x;
    assert r[1] == RenamedAt(cols, x, name, 1) == y;
    assert r[2] == RenamedAt(cols, x, name, 2) == y;
  }

  /** In `x, x, y` only `x` is duplicated. */
  lemma PatternDuplicates<T(!new)>(x: T, y: T)
    requires x != y
    ensures DuplicatedNames([x, x, y]) == [x]
  {
    var cols := [x, x, y];
    assert cols[..1] == [x] && cols[..2] == [x, x] && cols[..2][..1] == cols[..1];
    assert cols[..1][..0] == [];
    assert DuplicatedNames(cols[..1]) == [];
    assert DuplicatedNames(cols[..2]) == [x];
  }

  // ---------------------------------------------------------------- row filtering

  /** A table as read from a CSV file: its header and its rows of cells by position. */
  datatype Table = Table(columns: seq<string>, rows: seq<seq<Cell>>)

  /** The position of the first column with the given name. */
  function ColumnIndex(cols: seq<string>, name: string): (r: Option<nat>)
    ensures r.Some? ==> r.value < |cols| && cols[r.value] == name
    ensures r.None? <==> name !in cols
  {
    if cols == [] then None
    else if cols[0] == name then Some(0)
    else match ColumnIndex(cols[1..], name)
      case None => None
      case Some(i) => Some(i + 1)
  }

  /** A row shorter than the header reads NaN in the missing cells. */
  function CellAt(row: seq<Cell>, i: nat): Cell
  {
    if i < |row| then row[i] else Missing
  }

  /** `df[col].notna()` for the column at position `i`. */
  function PresentAt(i: nat): seq<Cell> -> bool
  {
    row => CellAt(row, i) != Missing
  }

  /** `df[df[col].notna()]`; None when the table has no such column (pandas raises KeyError). */
  function RowsWith(t: Table, col: string): (r: Option<Table>)
    ensures r.None? <==> col !in t.columns
    ensures r.Some? ==> r.value.columns == t.columns
  {
    match ColumnIndex(t.columns, col)
    case None => None
    case Some(i) => Some(Table(t.columns, Filter(t.rows, PresentAt(i))))
  }

  /** The summary-row removal of each transactions file: only when the file has the column. */
  function DropSummaryRows(t: Table): (r: Table)
    ensures r.columns == t.columns
  {
    match RowsWith(t, "transaction_id")
    case None => t
    case Some(kept) => kept
  }

  /** The sales summary drops the rows without an item; its import stops when there is no such column. */
  function SalesItems(t: Table): Option<Table>
  {
    RowsWith(t, "item")
  }

  /** A mask keeps the parts of a concatenation in order. */
  lemma {:induction false} FilterAppend<T>(a: seq<T>, b: seq<T>, p: T -> bool)
    ensures Filter(a + b, p) == Filter(a, p) + Filter(b, p)
    decreases |b|
  {
    if b == [] {
      assert a + b == a;
    } else {
      var ab := a + b;
      assert ab[..|ab| - 1] == a + b[..|b| - 1];
      assert ab[|ab| - 1] == b[|b| - 1];
      FilterAppend(a, b[..|b| - 1], p);
    }
  }

  /** Exactly the rows with a null transaction id go: the kept rows all have one, every row that
      has one is kept, the two counts make up the file, and splitting the file anywhere the kept
      rows of the first part come before those of the second. */
  lemma SummaryRowsDropped(t: Table, i: nat, front: seq<seq<Cell>>, back: seq<seq<Cell>>)
    requires ColumnIndex(t.columns, "transaction_id") == Some(i)
    requires t.rows == front + back
    ensures forall r :: r in DropSummaryRows(t).rows ==> r in t.rows && CellAt(r, i) != Missing
    ensures forall r :: r in t.rows && CellAt(r, i) != Missing ==> r in DropSummaryRows(t).rows
    ensures |DropSummaryRows(t).rows| + CountIf(t.rows, r => CellAt(r, i) == Missing) == |t.rows|
    ensures DropSummaryRows(t).rows ==
      Filter(front, PresentAt(i)) + Filter(back, PresentAt(i))
  {
    var kept := DropSummaryRows(t).rows;
    assert kept == Filter(t.rows, PresentAt(i));
    forall r | r in kept ensures r in t.rows && CellAt(r, i) != Missing {
      var k :| 0 <= k < |kept| && kept[k] == r;
    }
    forall r | r in t.rows && CellAt(r, i) != Missing ensures r in kept {
      var k :| 0 <= k < |t.rows| && t.rows[k] == r;
    }
    var isNull := (r: seq<Cell>) => CellAt(r, i) == Missing;
    CountIfDisjoint(t.rows, PresentAt(i), isNull);
    FilterAppend(front, back, PresentAt(i));
  }

  /** A transactions file without the column is kept whole. */
  lemma NoIdColumnKept(t: Table)
    requires "transaction_id" !in t.columns
    ensures DropSummaryRows(t) == t
  {
  }

  /** One transactions file after its header cleaning and its summary-row removal. */
  function CleanTransactions(f: Table): Table
  {
    DropSummaryRows(Table(CleanColumns(Transactions, f.columns), f.rows))
  }

  function RowCount(ts: seq<Table>): nat
  {
    if ts == [] then 0 else RowCount(ts[..|ts| - 1]) + |ts[|ts| - 1].rows|
  }

  /** One more table adds its rows. */
  lemma RowCountAppend(ts: seq<Table>, t: Table)
    ensures RowCount(ts + [t]) == RowCount(ts) + |t.rows|
  {
    assert (ts + [t])[..|ts|] == ts;
  }

  /** The loop over the transactions files: the `dfs` list and the length of their concatenation. */
  method ImportTransactions(files: seq<Table>) returns (dfs: seq<Table>, records: nat)
    ensures |dfs| == |files|
    ensures forall k :: 0 <= k < |files| ==> dfs[k] == CleanTransactions(files[k])
    ensures records == RowCount(dfs)
  {
    dfs, records := CleanEach(files, CleanTransactions);
  }

  /** Each file read and cleaned in turn, its rows counted as it is added. */
  method CleanEach(files: seq<Table>, clean: Table -> Table) returns (dfs: seq<Table>, records: nat)
    ensures |dfs| == |files|
    ensures forall k :: 0 <= k < |files| ==> dfs[k] == clean(files[k])
    ensures records == RowCount(dfs)
  {
    dfs := [];
    records := 0;
    var k := 0;
    while k < |files|
      invariant 0 <= k <= |files| && |dfs| == k
      invariant forall j :: 0 <= j < k ==> dfs[j] == clean(files[j])
      invariant records == RowCount(dfs)
    {
      var df := clean(files[k]);
      RowCountAppend(dfs, df);
      dfs := dfs + [df];
      records := records + |df.rows|;
      k := k + 1;
    }
  }

  /** No transactions file grows: the combined table has at most the rows read. */
  lemma {:induction false} ImportNeverGrows(files: seq<Table>, dfs: seq<Table>)
    requires |dfs| == |files|
    requires forall k :: 0 <= k < |files| ==> dfs[k] == CleanTransactions(files[k])
    ensures RowCount(dfs) <= RowCount(files)
  {
    if files != [] {
      var n := |files| - 1;
      ImportNeverGrows(files[..n], dfs[..n]);
      var f := files[n];
      var t := Table(CleanColumns(Transactions, f.columns), f.rows);
      match ColumnIndex(t.columns, "transaction_id")
      case None =>
      case Some(i) =>
        assert |Filter(t.rows, PresentAt(i))| <= |t.rows|;
    }
  }

  // ---------------------------------------------------------------- money strings

  /** A '$' directly followed by a digit starts a match of `\$(\d+\.?\d*)`. */
  predicate DollarDigit(s: string, k: int)
  {
    0 <= k && k + 1 < |s| && s[k] == '$' && IsDigit(s[k + 1])
  }

  /** The number a match reads from the digits after its '$': `\d+`, an optional '.', then `\d*`. */
  function AmountOf(t: string): real
  {
    var ip := DigitRun(t);
    var after := t[|ip|..];
    if |after| > 0 && after[0] == '.' then DecimalValue(ip, DigitRun(after[1..]))
    else DigitsValue(ip) as real
  }

  /** Where the leftmost match at or after `i` starts. */
  function DollarFrom(s: string, i: nat): (r: Option<nat>)
    requires i <= |s|
    ensures r.None? <==> forall k :: i <= k ==> !DollarDigit(s, k)
    ensures r.Some? ==> i <= r.value && DollarDigit(s, r.value)
    ensures r.Some? ==> forall k :: i <= k < r.value ==> !DollarDigit(s, k)
    decreases |s| - i
  {
    if i + 1 >= |s| then None
    else if DollarDigit(s, i) then Some(i)
    else DollarFrom(s, i + 1)
  }

  /** `str.extract(r'\$(\d+\.?\d*)')[0].astype(float)`: NaN where the cell is not text or nothing matches. */
  function PriceAmount(c: Cell): (r: Option<real>)
    ensures r.None? <==> !c.Text? || forall k :: !DollarDigit(c.s, k)
  {
    if !c.Text? then None
    else
      match DollarFrom(c.s, 0)
      case None => None
      case Some(m) => Some(AmountOf(c.s[m + 1..]))
  }

  /** No '$'-digit pair in `pre`; the '$' right after `pre` then starts the leftmost match. */
  predicate NoDollarDigit(pre: string)
  {
    forall k :: 0 <= k < |pre| ==> !DollarDigit(pre, k)
  }

  /** Scanning passes over a prefix without a '$'-digit pair. */
  lemma AmountSkipsPrefix(pre: string, rest: string)
    requires NoDollarDigit(pre) && |rest| >= 2 && rest[0] == '$' && IsDigit(rest[1])
    ensures PriceAmount(Text(pre + rest)) == Some(AmountOf(rest[1..]))
  {
    var s := pre + rest;
    forall k | 0 <= k < |pre| ensures !DollarDigit(s, k) {
      if k + 1 < |pre| {
        assert s[k] == pre[k] && s[k + 1] == pre[k + 1];
        assert !DollarDigit(pre, k);
      } else {
        assert s[k + 1] == rest[0];
      }
    }
    assert DollarDigit(s, |pre|);
    FirstDollar(s, |pre|);
    assert s[|pre| + 1..] == rest[1..];
  }

  /** The leftmost match is the first '$'-digit pair. */
  lemma FirstDollar(s: string, m: nat)
    requires DollarDigit(s, m)
    requires forall k :: 0 <= k < m ==> !DollarDigit(s, k)
    ensures DollarFrom(s, 0) == Some(m)
  {
  }

  /** Digits, a point and digits, then no digit: the decimal. */
  lemma AmountOfDecimalText(ip: string, fp: string, post: string)
    requires IsDigits(ip) && AllDigits(fp)
    requires post == [] || !IsDigit(post[0])
    ensures AmountOf(ip + "." + fp + post) == DecimalValue(ip, fp)
  {
    var t := ip + "." + fp + post;
    assert t == ip + ("." + fp + post);
    DigitRunOfDigits(ip, "." + fp + post);
    assert t[|ip|..] == "." + fp + post;
    assert ("." + fp + post)[1..] == fp + post;
    DigitRunOfDigits(fp, post);
  }

  /** "$16.00" and the like: digits, a point and digits, followed by anything but a digit. */
  lemma AmountOfDecimal(pre: string, ip: string, fp: string, post: string)
    requires NoDollarDigit(pre) && IsDigits(ip) && AllDigits(fp)
    requires post == [] || !IsDigit(post[0])
    ensures PriceAmount(Text(pre + "$" + ip + "." + fp + post)) == Some(DecimalValue(ip, fp))
  {
    var rest := "$" + (ip + "." + fp + post);
    assert pre + "$" + ip + "." + fp + post == pre + rest;
    assert rest[1] == ip[0];
    AmountSkipsPrefix(pre, rest);
    assert rest[1..] == ip + "." + fp + post;
    AmountOfDecimalText(ip, fp, post);
  }

  /** "$16" and the like: digits followed by anything but a digit or a point. */
  lemma AmountOfWhole(pre: string, ip: string, post: string)
    requires NoDollarDigit(pre) && IsDigits(ip)
    requires post == [] || (!IsDigit(post[0]) && post[0] != '.')
    ensures PriceAmount(Text(pre + "$" + ip + post)) == Some(DigitsValue(ip) as real)
  {
    var rest := "$" + (ip + post);
    assert pre + "$" + ip + post == pre + rest;
    assert rest[1] == ip[0];
    AmountSkipsPrefix(pre, rest);
    assert rest[1..] == ip + post;
    DigitRunOfDigits(ip, post);
    assert (ip + post)[|ip|..] == post;
  }

  /** On the drop-in form "(Drop-in)  $16.00" the import's `price_amount` and the segment
      analysis's `parse_price` read the same amount. */
  lemma PriceReadersAgree(tag: string, ip: string, fp: string)
    requires '$' !in tag && IsDigits(ip) && AllDigits(fp)
    ensures PriceAmount(Text(tag + "$" + ip + "." + fp)) == Some(PayPerUse.ParsePrice(Text(tag + "$" + ip + "." + fp)))
  {
    forall k ensures !DollarDigit(tag, k) {
      if 0 <= k < |tag| {
        assert tag[k] in tag;
      }
    }
    AmountOfDecimal(tag, ip, fp, "");
    assert tag + "$" + ip + "." + fp + "" == tag + "$" + ip + "." + fp;
    PayPerUse.DropInPrice(tag, ip, fp);
  }

  /** `total.astype(str).str.replace('$', '').str.replace(',', '')`. */
  function CleanTotal(s: string): string
  {
    ReplaceAll(ReplaceAll(s, "$", ""), ",", "")
  }

  /** `pd.to_numeric(..., errors='coerce')` of the cleaned total; NaN (and the text "nan") stays NaN. */
  function TotalNumeric(c: Cell): Option<real>
  {
    match c
    case Missing => None
    case Num(x) => Some(x)
    case Text(s) => ParseReal(CleanTotal(s))
  }

  /** The cleaned total has no '$' and no ',', and cleaning it again changes nothing. */
  lemma CleanTotalIdempotent(s: string)
    ensures '$' !in CleanTotal(s) && ',' !in CleanTotal(s)
    ensures CleanTotal(CleanTotal(s)) == CleanTotal(s)
  {
    var a := ReplaceAll(s, "$", "");
    DeleteChar(s, '$');
    DeleteChar(a, ',');
    var c := CleanTotal(s);
    DeleteAbsent(c, '$');
    DeleteAbsent(c, ',');
  }

  /** Deleting a leading '$' of a text with no other. */
  lemma DeleteLeadingDollar(tail: string)
    requires '$' !in tail
    ensures ReplaceAll("$" + tail, "$", "") == tail
  {
    DeleteOne(tail, '$');
  }

  /** Deleting the one ',' between two comma-free texts. */
  lemma DeleteOneComma(a: string, b: string)
    requires ',' !in a && ',' !in b
    ensures ReplaceAll(a + "," + b, ",", "") == a + b
  {
    DeleteBetween(a, b, ',');
  }

  /** A decimal text `b.fp` has digits and one point only. */
  lemma DecimalChars(b: string, fp: string)
    requires AllDigits(b) && AllDigits(fp)
    ensures forall i :: 0 <= i < |b + "." + fp| ==> IsDigit((b + "." + fp)[i]) || (b + "." + fp)[i] == '.'
  {
    var t := b + "." + fp;
    forall i | 0 <= i < |t| ensures IsDigit(t[i]) || t[i] == '.' {
      if i < |b| {
        assert t[i] == b[i];
      } else if i > |b| {
        assert t[i] == fp[i - |b| - 1];
      }
    }
  }

  /** "$1,234.56" reads as 1234.56. */
  lemma TotalOfDollars(a: string, b: string, fp: string)
    requires IsDigits(a) && IsDigits(b) && AllDigits(fp)
    ensures TotalNumeric(Text("$" + a + "," + b + "." + fp)) == Some(DecimalValue(a + b, fp))
  {
    var bf := b + "." + fp;
    DecimalChars(b, fp);
    assert forall i :: 0 <= i < |bf| ==> bf[i] != '$' && bf[i] != ',';
    assert forall i :: 0 <= i < |a| ==> a[i] != '$' && a[i] != ',';
    var tail := a + "," + bf;
    assert forall i :: 0 <= i < |tail| ==> tail[i] != '$' by {
      forall i | 0 <= i < |tail| ensures tail[i] != '$' {
        if i < |a| {
          assert tail[i] == a[i];
        } else if i > |a| {
          assert tail[i] == bf[i - |a| - 1];
        }
      }
    }
    assert "$" + a + "," + b + "." + fp == "$" + tail;
    DeleteLeadingDollar(tail);
    DeleteOneComma(a, bf);
    assert a + bf == (a + b) + "." + fp;
    assert IsDigits(a + b) by {
      forall i | 0 <= i < |a + b| ensures IsDigit((a + b)[i]) {
        if i >= |a| {
          assert (a + b)[i] == b[i - |a|];
        }
      }
    }
    ParseRealDecimal(a + b, fp);
  }

  /** No character is a digit. */
  predicate NoDigits(s: string)
  {
    forall i :: 0 <= i < |s| ==> !IsDigit(s[i])
  }

  /** Without a digit an unsigned decimal does not parse. */
  lemma NoDigitUnsigned(v: string)
    requires NoDigits(v)
    ensures ParseUnsigned(v) == None
  {
    match IndexOf(v, ".")
    case None =>
      assert !IsDigits(v) by {
        if |v| > 0 {
          assert !IsDigit(v[0]);
        }
      }
    case Some(k) =>
      var ip, fp := v[..k], v[k + 1..];
      assert |ip| > 0 ==> !IsDigit(ip[0]);
      assert |fp| > 0 ==> fp[0] == v[k + 1];
  }

  /** Stripping only removes characters. */
  lemma StripNoDigits(t: string)
    requires NoDigits(t)
    ensures NoDigits(Strip(t))
  {
    var sl := StripLeft(t);
    var u := Strip(t);
    assert NoDigits(sl) by {
      forall x | 0 <= x < |sl| ensures !IsDigit(sl[x]) {
        assert sl[x] == t[|t| - |sl| + x];
      }
    }
    forall x | 0 <= x < |u| ensures !IsDigit(u[x]) {
      assert u[x] == sl[x];
    }
  }

  /** Without a digit nothing parses as a number. */
  lemma NoDigitNoParse(t: string)
    requires NoDigits(t)
    ensures ParseReal(t) == None
  {
    var u := Strip(t);
    StripNoDigits(t);
    if |u| > 0 && (u[0] == '+' || u[0] == '-') {
      assert NoDigits(u[1..]) by {
        forall x | 0 <= x < |u| - 1 ensures !IsDigit(u[1..][x]) {
          assert u[1..][x] == u[x + 1];
        }
      }
      NoDigitUnsigned(u[1..]);
    } else {
      NoDigitUnsigned(u);
    }
  }

  /** A total with no digit at all becomes NaN. */
  lemma TotalWithoutDigits(s: string)
    requires NoDigits(s)
    ensures TotalNumeric(Text(s)) == None
  {
    var a := ReplaceAll(s, "$", "");
    DeleteChar(s, '$');
    DeleteChar(a, ',');
    var c := CleanTotal(s);
    forall i | 0 <= i < |c| ensures !IsDigit(c[i]) {
      assert c[i] in c;
      assert c[i] in a;
      assert c[i] in s;
    }
    NoDigitNoParse(c);
  }

  // ---------------------------------------------------------------- import counters

  /** The running totals `tables_created` and `total_records`. */
  class ImportLog {
    var tablesCreated: nat
    var totalRecords: nat

    constructor ()
      ensures tablesCreated == 0 && totalRecords == 0
    {
      tablesCreated := 0;
      totalRecords := 0;
    }

    /** One table written with `n` records. */
    method Imported(n: nat)
      modifies this
      ensures tablesCreated == old(tablesCreated) + 1
      ensures totalRecords == old(totalRecords) + n
    {
      tablesCreated := tablesCreated + 1;
      totalRecords := totalRecords + n;
    }
  }

  /** The tables found: a source is None when its CSV file was not found. */
  function FoundCount(sources: seq<Option<nat>>): (r: nat)
    ensures r <= |sources|
  {
    if sources == [] then 0
    else FoundCount(sources[..|sources| - 1]) + (if sources[|sources| - 1].Some? then 1 else 0)
  }

  /** The records of the tables found. */
  function RecordSum(sources: seq<Option<nat>>): nat
  {
    if sources == [] then 0
    else
      var last := sources[|sources| - 1];
      RecordSum(sources[..|sources| - 1]) + (if last.Some? then last.value else 0)
  }

  /** Every table counts when every file is found, and a missing table adds no records. */
  lemma {:induction false} CountsOfSources(sources: seq<Option<nat>>)
    ensures FoundCount(sources) == |sources| <==> forall k :: 0 <= k < |sources| ==> sources[k].Some?
    ensures FoundCount(sources) == 0 ==> RecordSum(sources) == 0
  {
    if sources != [] {
      var init := sources[..|sources| - 1];
      CountsOfSources(init);
      assert forall k :: 0 <= k < |init| ==> init[k] == sources[k];
    }
  }

  /** The import sequence: each found table is written and counted, each missing one skipped. */
  method CountImports(sources: seq<Option<nat>>) returns (log: ImportLog)
    ensures log.tablesCreated == FoundCount(sources)
    ensures log.totalRecords == RecordSum(sources)
  {
    log := new ImportLog();
    var k := 0;
    while k < |sources|
      invariant 0 <= k <= |sources|
      invariant log.tablesCreated == FoundCount(sources[..k])
      invariant log.totalRecords == RecordSum(sources[..k])
    {
      assert sources[..k + 1][..k] == sources[..k];
      if sources[k].Some? {
        log.Imported(sources[k].value);
      }
      k := k + 1;
    }
    assert sources[..k] == sources;
  }
}
