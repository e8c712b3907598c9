/**
 * Column sorting of the client's result tables (public/js/app.js): a click
 * on a sortable header flips it between ascending and descending (every
 * other header loses its mark), the rows are sorted in place by the text
 * of that column with `$`, `,` and `%` removed, numerically when both keys
 * start with a number and by collation otherwise, and then re-appended to
 * the table body in their new order.
 */
module TableSort {
  import opened Common
  import opened Text

  // ---- the header marks ----

  /** The `sort-asc` / `sort-desc` class of a header. */
  datatype Mark = Unmarked | Ascending | Descending

  /** The marks after a click on header `c`: it flips to descending only from ascending. */
  function AfterClick(marks: seq<Mark>, c: nat): (r: seq<Mark>)
    requires c < |marks|
    ensures |r| == |marks|
    ensures r[c] == (if marks[c] == Ascending then Descending else Ascending)
    ensures forall j :: 0 <= j < |r| && j != c ==> r[j] == Unmarked
  {
    seq(|marks|, j requires 0 <= j < |marks| =>
      if j != c then Unmarked else if marks[c] == Ascending then Descending else Ascending)
  }

  /** Successive clicks on one header alternate the direction, starting with ascending. */
  lemma ClicksAlternate(marks: seq<Mark>, c: nat)
    requires c < |marks|
    ensures AfterClick(AfterClick(marks, c), c)[c] != AfterClick(marks, c)[c]
    ensures marks[c] != Ascending ==> AfterClick(marks, c)[c] == Ascending
    ensures AfterClick(AfterClick(AfterClick(marks, c), c), c)[c] == AfterClick(marks, c)[c]
  {
  }

  /**
   * `isAsc`, then `classList.remove('sort-asc', 'sort-desc')` on every
   * header and `add` on the clicked one; the answer is the sort direction.
   */
  method ClickHeader(marks: array<Mark>, c: nat) returns (descending: bool)
    requires c < marks.Length
    modifies marks
    ensures descending <==> old(marks[c]) == Ascending
    ensures marks[..] == AfterClick(old(marks[..]), c)
  {
    descending := marks[c] == Ascending;
    ghost var before := marks[..];
    for j := 0 to marks.Length
      invariant forall k :: 0 <= k < j ==> marks[k] == Unmarked
      invariant forall k :: j <= k < marks.Length ==> marks[k] == before[k]
    {
      marks[j] := Unmarked;
    }
    marks[c] := if descending then Descending else Ascending;
  }

  // ---- the sort key ----

  predicate IsSymbol(c: char) {
    c == '$' || c == ',' || c == '%'
  }

  /** `.replace(/[$,%]/g, '')`. */
  function RemoveSymbols(s: string): (r: string)
    ensures |r| <= |s|
    ensures forall i :: 0 <= i < |r| ==> !IsSymbol(r[i])
    ensures (forall i :: 0 <= i < |s| ==> !IsSymbol(s[i])) ==> r == s
  {
    if s == [] then []
    else (if IsSymbol(s[0]) then [] else [s[0]]) + RemoveSymbols(s[1..])
  }

  /** The cell text with the symbols removed and trimmed; a missing cell gives ''. */
  function SortKey(cell: Option<string>): string {
    match cell
    case None => ""
    case Some(text) => Strip(RemoveSymbols(text))
  }

  /** The number of leading decimal digits. */
  function LeadingDigits(s: string): (n: nat)
    ensures n <= |s|
    ensures forall i :: 0 <= i < n ==> IsDigit(s[i])
    ensures n < |s| ==> !IsDigit(s[n])
  {
    if s == [] || !IsDigit(s[0]) then 0 else 1 + LeadingDigits(s[1..])
  }

  /** The digits after a leading '.', if it has any. */
  function Fraction(rest: string): (f: string)
    ensures AllDigits(f)
  {
    if |rest| > 0 && rest[0] == '.' then rest[1..][..LeadingDigits(rest[1..])] else ""
  }

  /** The number at the head of an unsigned string: digits, then an optional '.' and digits. */
  function PrefixValue(body: string): (r: Option<real>)
    ensures r.Some? ==> r.value >= 0.0
  {
    var n := LeadingDigits(body);
    var fraction := Fraction(body[n..]);
    if n == 0 && fraction == "" then None
    else Some(DigitsValue(body[..n]) as real + Shift(DigitsValue(fraction) as real, |fraction|))
  }

  /**
   * `parseFloat` on a string without exponent: leading whitespace, an
   * optional sign, then the longest prefix of digits with at most one '.';
   * NaN (None) when that prefix has no digit. Whatever follows is ignored.
   */
  function ParseFloat(s: string): (r: Option<real>)
    ensures |s| > 0 && !IsSpace(s[0]) && !IsDigit(s[0]) && s[0] != '+' && s[0] != '-' && s[0] != '.' ==> r.None?
  {
    var t := TrimStart(s);
    if |t| > 0 && t[0] == '-' then
      match PrefixValue(t[1..])
      case None => None
      case Some(v) => Some(-v)
    else if |t| > 0 && t[0] == '+' then PrefixValue(t[1..])
    else PrefixValue(t)
  }

  lemma {:induction false} LeadingDigitsOf(digits: string, unit: string)
    requires AllDigits(digits)
    requires unit == [] || !IsDigit(unit[0])
    ensures LeadingDigits(digits + unit) == |digits|
  {
    if digits != [] {
      assert (digits + unit)[1..] == digits[1..] + unit;
      LeadingDigitsOf(digits[1..], unit);
    } else {
      assert digits + unit == unit;
    }
  }

  lemma FractionOf(rest: string, fraction: string, unit: string)
    requires rest == "." + fraction + unit
    requires AllDigits(fraction)
    requires unit == [] || !IsDigit(unit[0])
    ensures Fraction(rest) == fraction
  {
    assert rest[1..] == fraction + unit;
    LeadingDigitsOf(fraction, unit);
    assert (fraction + unit)[..|fraction|] == fraction;
  }

  /** Digits, then a '.' and digits, then anything else: the decimal number they spell. */
  lemma PrefixValueOfDecimal(t: string, whole: string, fraction: string, unit: string)
    requires t == whole + ("." + fraction + unit)
    requires AllDigits(whole) && AllDigits(fraction) && whole != []
    requires unit == [] || !IsDigit(unit[0])
    ensures PrefixValue(t) == Some(DigitsValue(whole) as real + Shift(DigitsValue(fraction) as real, |fraction|))
  {
    var rest := "." + fraction + unit;
    var n := LeadingDigits(t);
    assert n == |whole| by {
      LeadingDigitsOf(whole, rest);
    }
    assert t[..n] == whole;
    assert t[n..] == rest;
    FractionOf(rest, fraction, unit);
    PrefixValueParts(t, n, whole, fraction);
  }

  /** PrefixValue, once the digit run and the fraction are known. */
  lemma PrefixValueParts(t: string, n: nat, whole: string, fraction: string)
    requires n == LeadingDigits(t) && n > 0
    requires t[..n] == whole && AllDigits(whole)
    requires Fraction(t[n..]) == fraction
    ensures PrefixValue(t) == Some(DigitsValue(whole) as real + Shift(DigitsValue(fraction) as real, |fraction|))
  {
  }

  /** Digits, then anything but a digit or a '.': the whole number they spell. */
  lemma PrefixValueOfWhole(t: string, whole: string, unit: string)
    requires t == whole + unit
    requires AllDigits(whole) && whole != []
    requires unit == [] || (!IsDigit(unit[0]) && unit[0] != '.')
    ensures PrefixValue(t) == Some(DigitsValue(whole) as real)
  {
    LeadingDigitsOf(whole, unit);
    assert t[..|whole|] == whole;
    assert t[|whole|..] == unit;
  }

  /** A whole number followed by anything but a digit or a '.' reads as that number. */
  lemma ParseFloatOfWhole(n: nat, unit: string)
    requires unit == [] || (!IsDigit(unit[0]) && unit[0] != '.')
    ensures ParseFloat(ShowNat(n) + unit) == Some(n as real)
  {
    var s := ShowNat(n) + unit;
    ShowNatDigits(n);
    assert s[0] == ShowNat(n)[0];
    TrimStartNoSpace(s);
    PrefixValueOfWhole(s, ShowNat(n), unit);
  }

  /** A volume shown with a magnitude suffix sorts by its mantissa: "1.5K" reads as 1.5. */
  lemma SuffixIsIgnored()
    ensures ParseFloat("1.5K") == Some(1.5)
  {
    var s := "1.5K";
    TrimStartNoSpace(s);
    assert s == "1" + ("." + "5" + "K");
    PrefixValueOfDecimal(s, "1", "5", "K");
    assert DigitsValue("1") == 1 by {
      assert "1"[..0] == "";
    }
    assert DigitsValue("5") == 5 by {
      assert "5"[..0] == "";
    }
  }

  /** ...so it sorts below a plain "900". */
  lemma PlainVolumeReads()
    ensures ParseFloat("900") == Some(900.0)
  {
    var t := "900";
    TrimStartNoSpace(t);
    assert t == t + "";
    PrefixValueOfWhole(t, t, "");
    assert DigitsValue(t) == 900 by {
      assert t[..2] == "90" && t[..2][..1] == "9" && t[..2][..1][..0] == "";
    }
  }

  // ---- the comparator ----

  /** How the rows are compared: the clicked column, the direction, and `localeCompare`. */
  datatype SortSpec = SortSpec(column: nat, descending: bool, collate: (string, string) -> int)

  /** `a.children[idx]?.textContent`. */
  function CellOf(row: seq<string>, column: nat): Option<string> {
    if column < |row| then Some(row[column]) else None
  }

  /**
   * The comparator passed to `rows.sort`: the difference of the two numbers
   * when both keys start with one, else the collation of the keys, both
   * reversed for a descending sort. Negative puts `a` first.
   */
  function Compare(spec: SortSpec, a: seq<string>, b: seq<string>): (r: real)
    ensures var ka, kb := ParseFloat(SortKey(CellOf(a, spec.column))), ParseFloat(SortKey(CellOf(b, spec.column)));
      && (ka.Some? && kb.Some? && !spec.descending ==> (r < 0.0 <==> ka.value < kb.value))
      && (ka.Some? && kb.Some? && spec.descending ==> (r < 0.0 <==> kb.value < ka.value))
      && (ka.None? || kb.None? ==> r == (if spec.descending
          then spec.collate(SortKey(CellOf(b, spec.column)), SortKey(CellOf(a, spec.column)))
          else spec.collate(SortKey(CellOf(a, spec.column)), SortKey(CellOf(b, spec.column)))) as real)
  {
    var aText, bText := SortKey(CellOf(a, spec.column)), SortKey(CellOf(b, spec.column));
    var aNum, bNum := ParseFloat(aText), ParseFloat(bText);
    if aNum.Some? && bNum.Some? then
      if spec.descending then bNum.value - aNum.value else aNum.value - bNum.value
    else if spec.descending then spec.collate(bText, aText) as real
    else spec.collate(aText, bText) as real
  }

  /** A collation that never puts both of two strings first, as `localeCompare` does. */
  ghost predicate CollationAntisymmetric(collate: (string, string) -> int) {
    forall x, y :: collate(x, y) > 0 ==> collate(y, x) < 0
  }

  /** With such a collation, the comparator never orders a pair both ways. */
  lemma CompareAntisymmetric(spec: SortSpec, a: seq<string>, b: seq<string>)
    requires CollationAntisymmetric(spec.collate)
    ensures Compare(spec, a, b) > 0.0 ==> Compare(spec, b, a) < 0.0
  {
  }

  // ---- sorting the rows in place ----

  /** The row a table-body child stands for; the rows are the cells' texts. */
  function RowOf(table: seq<seq<string>>, id: nat): seq<string> {
    if id < |table| then table[id] else []
  }

  /** The comparator on table-body children, negative when the first goes first. */
  function RowComparator(spec: SortSpec, table: seq<seq<string>>): (nat, nat) -> real {
    (x: nat, y: nat) => Compare(spec, RowOf(table, x), RowOf(table, y))
  }

  ghost predicate NeverBothWays(cmp: (nat, nat) -> real) {
    forall x, y :: cmp(x, y) > 0.0 ==> cmp(y, x) < 0.0
  }

  lemma RowComparatorAntisymmetric(spec: SortSpec, table: seq<seq<string>>)
    requires CollationAntisymmetric(spec.collate)
    ensures NeverBothWays(RowComparator(spec, table))
  {
    forall x: nat, y: nat
      ensures RowComparator(spec, table)(x, y) > 0.0 ==> RowComparator(spec, table)(y, x) < 0.0
    {
      CompareAntisymmetric(spec, RowOf(table, x), RowOf(table, y));
    }
  }

  /** Each row is placed no later than the next one. */
  ghost predicate AdjacentInOrder(cmp: (nat, nat) -> real, ids: seq<nat>) {
    forall k :: 0 < k < |ids| ==> cmp(ids[k - 1], ids[k]) <= 0.0
  }

  /**
   * While row `i` moves down and sits at `j`: every neighbour pair up to `i`
   * is in order except the one ending at `j`, and the rows around `j` are.
   */
  ghost predicate Settling(cmp: (nat, nat) -> real, s: seq<nat>, i: nat, j: nat)
    requires j <= i < |s|
  {
    && (forall k :: 0 < k <= i && k != j ==> cmp(s[k - 1], s[k]) <= 0.0)
    && (0 < j < i ==> cmp(s[j - 1], s[j + 1]) <= 0.0)
  }

  /** Swapping the moving row with a predecessor that must follow it keeps it settling. */
  lemma SwapKeepsSettling(cmp: (nat, nat) -> real, s: seq<nat>, t: seq<nat>, i: nat, j: nat)
    requires 0 < j <= i < |s| && NeverBothWays(cmp)
    requires Settling(cmp, s, i, j) && cmp(s[j - 1], s[j]) > 0.0
    requires t == s[j - 1 := s[j]][j := s[j - 1]]
    ensures Settling(cmp, t, i, j - 1)
  {
    assert cmp(t[j - 1], t[j]) < 0.0;
  }

  /** A row about to move is settling in a prefix that was in order. */
  lemma StartSettling(cmp: (nat, nat) -> real, s: seq<nat>, i: nat)
    requires i < |s| && AdjacentInOrder(cmp, s[..i])
    ensures Settling(cmp, s, i, i)
  {
    forall k | 0 < k < i
      ensures cmp(s[k - 1], s[k]) <= 0.0
    {
      assert s[..i][k - 1] == s[k - 1] && s[..i][k] == s[k];
    }
  }

  /** Once the moving row stops, the prefix through `i` is in order. */
  lemma StopSettling(cmp: (nat, nat) -> real, s: seq<nat>, i: nat, j: nat)
    requires j <= i < |s| && Settling(cmp, s, i, j)
    requires j == 0 || cmp(s[j - 1], s[j]) <= 0.0
    ensures AdjacentInOrder(cmp, s[..i + 1])
  {
    var p := s[..i + 1];
    forall k | 0 < k < |p|
      ensures cmp(p[k - 1], p[k]) <= 0.0
    {
      assert p[k - 1] == s[k - 1] && p[k] == s[k];
    }
  }

  /** `ids[j - 1]` and `ids[j]` trade places. */
  method Swap(ids: array<nat>, j: nat)
    requires 0 < j < ids.Length
    modifies ids
    ensures ids[..] == old(ids[..])[j - 1 := old(ids[j])][j := old(ids[j - 1])]
    ensures multiset(ids[..]) == multiset(old(ids[..]))
  {
    ids[j - 1], ids[j] := ids[j], ids[j - 1];
  }

  /** The inner loop of an insertion sort: row `i` moves down past every row that must follow it. */
  method InsertRow(cmp: (nat, nat) -> real, ids: array<nat>, i: nat)
    requires i < ids.Length
    modifies ids
    ensures multiset(ids[..]) == multiset(old(ids[..]))
    ensures NeverBothWays(cmp) && AdjacentInOrder(cmp, old(ids[..i])) ==> AdjacentInOrder(cmp, ids[..i + 1])
    ensures ids[i + 1..] == old(ids[i + 1..])
  {
    ghost var sorted := NeverBothWays(cmp) && AdjacentInOrder(cmp, ids[..i]);
    if sorted {
      StartSettling(cmp, ids[..], i);
    }
    var j := i;
    while j > 0 && cmp(ids[j - 1], ids[j]) > 0.0
      invariant 0 <= j <= i
      invariant multiset(ids[..]) == multiset(old(ids[..]))
      invariant ids[i + 1..] == old(ids[i + 1..])
      invariant sorted ==> Settling(cmp, ids[..], i, j)
    {
      ghost var s := ids[..];
      Swap(ids, j);
      assert ids[i + 1..] == s[i + 1..];
      if sorted {
        SwapKeepsSettling(cmp, s, ids[..], i, j);
      }
      j := j - 1;
    }
    if sorted {
      StopSettling(cmp, ids[..], i, j);
    }
  }

  /**
   * `rows.sort(comparator)` as an insertion sort: the rows are always a
   * permutation of the ones given, and with a comparator that never orders
   * a pair both ways each row is placed no later than the next.
   */
  method SortRows(cmp: (nat, nat) -> real, ids: array<nat>)
    modifies ids
    ensures multiset(ids[..]) == multiset(old(ids[..]))
    ensures NeverBothWays(cmp) ==> AdjacentInOrder(cmp, ids[..])
  {
    for i := 0 to ids.Length
      invariant multiset(ids[..]) == multiset(old(ids[..]))
      invariant NeverBothWays(cmp) ==> AdjacentInOrder(cmp, ids[..i])
    {
      InsertRow(cmp, ids, i);
    }
    assert ids[..ids.Length] == ids[..];
  }

  /** The number a row's key reads as, when it reads as one. */
  function NumericKey(spec: SortSpec, table: seq<seq<string>>, id: nat): Option<real> {
    ParseFloat(SortKey(CellOf(RowOf(table, id), spec.column)))
  }

  /** Numbers that never decrease from one to the next never decrease at all. */
  lemma {:induction false} StepwiseMonotone(v: seq<real>)
    requires forall k :: 0 < k < |v| ==> v[k - 1] <= v[k]
    ensures forall i, j :: 0 <= i < j < |v| ==> v[i] <= v[j]
  {
    if |v| > 1 {
      var front := v[..|v| - 1];
      StepwiseMonotone(front);
      forall i, j | 0 <= i < j < |v|
        ensures v[i] <= v[j]
      {
        if j < |v| - 1 {
          assert v[i] == front[i] && v[j] == front[j];
        } else if i < j - 1 {
          assert v[i] == front[i] && v[j - 1] == front[j - 1];
        }
      }
    }
  }

  /** Two numeric keys the comparator puts in order are in numeric order. */
  lemma NumericPair(spec: SortSpec, table: seq<seq<string>>, x: nat, y: nat)
    requires NumericKey(spec, table, x).Some? && NumericKey(spec, table, y).Some?
    requires RowComparator(spec, table)(x, y) <= 0.0
    ensures !spec.descending ==> NumericKey(spec, table, x).value <= NumericKey(spec, table, y).value
    ensures spec.descending ==> NumericKey(spec, table, x).value >= NumericKey(spec, table, y).value
  {
    assert Compare(spec, RowOf(table, x), RowOf(table, y)) <= 0.0;
  }

  /** Adjacent order under a comparator that respects a key orders the whole sequence by that key. */
  lemma AdjacentOrderSorts(cmp: (nat, nat) -> real, key: nat -> real, ids: seq<nat>)
    requires AdjacentInOrder(cmp, ids)
    requires forall k :: 0 < k < |ids| && cmp(ids[k - 1], ids[k]) <= 0.0 ==> key(ids[k - 1]) <= key(ids[k])
    ensures forall i, j :: 0 <= i < j < |ids| ==> key(ids[i]) <= key(ids[j])
  {
    var v := seq(|ids|, k requires 0 <= k < |ids| => key(ids[k]));
    StepwiseMonotone(v);
    forall i, j | 0 <= i < j < |ids|
      ensures key(ids[i]) <= key(ids[j])
    {
      assert v[i] <= v[j];
    }
  }

  /**
   * In a column of numbers adjacent order is the whole order: ascending
   * (descending) sorts leave the numbers non-decreasing (non-increasing).
   */
  lemma NumericColumnSorted(spec: SortSpec, table: seq<seq<string>>, ids: seq<nat>)
    requires AdjacentInOrder(RowComparator(spec, table), ids)
    requires forall k :: 0 <= k < |ids| ==> NumericKey(spec, table, ids[k]).Some?
    ensures forall i, j :: 0 <= i < j < |ids| && !spec.descending ==>
      NumericKey(spec, table, ids[i]).value <= NumericKey(spec, table, ids[j]).value
    ensures forall i, j :: 0 <= i < j < |ids| && spec.descending ==>
      NumericKey(spec, table, ids[i]).value >= NumericKey(spec, table, ids[j]).value
  {
    var cmp := RowComparator(spec, table);
    var key := (x: nat) => var n := NumericKey(spec, table, x);
      if n.None? then 0.0 else if spec.descending then -n.value else n.value;
    forall k | 0 < k < |ids| && cmp(ids[k - 1], ids[k]) <= 0.0
      ensures key(ids[k - 1]) <= key(ids[k])
    {
      NumericPair(spec, table, ids[k - 1], ids[k]);
    }
    AdjacentOrderSorts(cmp, key, ids);
  }

  // ---- re-appending the rows ----

  /** `s` without `x`. */
  function Without(s: seq<nat>, x: nat): (r: seq<nat>)
    ensures x !in s ==> r == s
  {
    if s == [] then []
    else (if s[0] == x then [] else [s[0]]) + Without(s[1..], x)
  }

  /** `s` without the elements of `gone`. */
  function Outside(s: seq<nat>, gone: set<nat>): (r: seq<nat>)
    ensures forall y :: y in r ==> y in s && y !in gone
  {
    if s == [] then []
    else (if s[0] in gone then [] else [s[0]]) + Outside(s[1..], gone)
  }

  lemma {:induction false} WithoutConcat(a: seq<nat>, b: seq<nat>, x: nat)
    ensures Without(a + b, x) == Without(a, x) + Without(b, x)
  {
    if a == [] {
      assert a + b == b;
    } else {
      assert (a + b)[1..] == a[1..] + b;
      WithoutConcat(a[1..], b, x);
    }
  }

  lemma {:induction false} WithoutOutside(s: seq<nat>, gone: set<nat>, x: nat)
    ensures Without(Outside(s, gone), x) == Outside(s, gone + {x})
  {
    if s != [] {
      WithoutOutside(s[1..], gone, x);
      WithoutConcat(if s[0] in gone then [] else [s[0]], Outside(s[1..], gone), x);
    }
  }

  lemma {:induction false} OutsideNone(s: seq<nat>, gone: set<nat>)
    requires forall y :: y in s ==> y !in gone
    ensures Outside(s, gone) == s
  {
    if s != [] {
      OutsideNone(s[1..], gone);
      assert s == [s[0]] + s[1..];
    }
  }

  lemma {:induction false} OutsideAll(s: seq<nat>, gone: set<nat>)
    requires forall y :: y in s ==> y in gone
    ensures Outside(s, gone) == []
  {
    if s != [] {
      OutsideAll(s[1..], gone);
    }
  }

  function Elements(s: seq<nat>): set<nat> {
    set r | r in s
  }

  predicate Distinct(s: seq<nat>) {
    forall i, j :: 0 <= i < j < |s| ==> s[i] != s[j]
  }

  /** The table body: its row children, each a distinct node. */
  class TableBody {
    var children: seq<nat>

    constructor (children: seq<nat>)
      ensures this.children == children
    {
      this.children := children;
    }

    /** `tbody.appendChild(row)`: the row moves to the end. */
    method AppendChild(row: nat)
      modifies this
      ensures children == Without(old(children), row) + [row]
    {
      children := Without(children, row) + [row];
    }
  }

  /**
   * `rows.forEach(row => tbody.appendChild(row))`: the rows end up last, in
   * the given order, after the children that were not among them.
   */
  method Reappend(body: TableBody, rows: seq<nat>)
    requires Distinct(rows)
    modifies body
    ensures body.children == Outside(old(body.children), Elements(rows)) + rows
  {
    ghost var before := body.children;
    OutsideNone(before, Elements(rows[..0]));
    assert body.children == Outside(before, Elements(rows[..0])) + rows[..0];
    for i := 0 to |rows|
      invariant body.children == Outside(before, Elements(rows[..i])) + rows[..i]
    {
      ReappendStep(before, rows, i);
      body.AppendChild(rows[i]);
    }
    assert rows[..|rows|] == rows;
  }

  /** Moving the next row to the end extends the re-appended prefix by that row. */
  lemma ReappendStep(before: seq<nat>, rows: seq<nat>, i: nat)
    requires Distinct(rows) && i < |rows|
    ensures Without(Outside(before, Elements(rows[..i])) + rows[..i], rows[i]) + [rows[i]]
      == Outside(before, Elements(rows[..i + 1])) + rows[..i + 1]
  {
    var row := rows[i];
    assert row !in rows[..i];
    WithoutConcat(Outside(before, Elements(rows[..i])), rows[..i], row);
    WithoutOutside(before, Elements(rows[..i]), row);
    assert rows[..i + 1] == rows[..i] + [row];
    assert Elements(rows[..i + 1]) == Elements(rows[..i]) + {row};
  }

  /** Re-appending a permutation of the body's rows leaves exactly that order. */
  lemma ReappendPermutation(children: seq<nat>, rows: seq<nat>)
    requires multiset(rows) == multiset(children)
    ensures Outside(children, Elements(rows)) + rows == rows
  {
    forall y | y in children
      ensures y in Elements(rows)
    {
      assert y in multiset(children);
    }
    OutsideAll(children, Elements(rows));
  }

  /** A distinct sequence stays distinct under any permutation. */
  lemma {:induction false} PermutationDistinct(a: seq<nat>, b: seq<nat>)
    requires multiset(a) == multiset(b) && Distinct(a)
    ensures Distinct(b)
  {
    forall i, j | 0 <= i < j < |b|
      ensures b[i] != b[j]
    {
      if b[i] == b[j] {
        assert b == b[..i] + [b[i]] + b[i + 1..j] + [b[j]] + b[j + 1..];
        assert multiset(b)[b[i]] >= 2;
        DistinctCount(a, b[i]);
      }
    }
  }

  lemma {:induction false} DistinctCount(a: seq<nat>, x: nat)
    requires Distinct(a)
    ensures multiset(a)[x] <= 1
  {
    if a != [] {
      assert a == [a[0]] + a[1..];
      DistinctCount(a[1..], x);
      if a[0] == x {
        assert x !in a[1..];
      }
    }
  }

  /**
   * The click handler: the header marks flip, the body's rows are sorted
   * and re-appended, so the body holds a permutation of its rows, in
   * order when the collation is antisymmetric.
   */
  method OnHeaderClick(marks: array<Mark>, c: nat, body: TableBody, table: seq<seq<string>>,
                       collate: (string, string) -> int)
    requires c < marks.Length
    requires Distinct(body.children)
    modifies marks, body
    ensures marks[..] == AfterClick(old(marks[..]), c)
    ensures multiset(body.children) == multiset(old(body.children))
    ensures CollationAntisymmetric(collate) ==>
      AdjacentInOrder(RowComparator(SortSpec(c, old(marks[c]) == Ascending, collate), table), body.children)
  {
    var descending := ClickHeader(marks, c);
    var ids := new nat[|body.children|](i requires 0 <= i < |body.children| reads body => body.children[i]);
    assert ids[..] == body.children;
    var spec := SortSpec(c, descending, collate);
    if CollationAntisymmetric(collate) {
      RowComparatorAntisymmetric(spec, table);
    }
    SortRows(RowComparator(spec, table), ids);
    var rows := ids[..];
    PermutationDistinct(body.children, rows);
    ReappendPermutation(body.children, rows);
    Reappend(body, rows);
  }
}
