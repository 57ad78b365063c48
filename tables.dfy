/**
 * Tables as the pipeline sees them: a column sequence and a sequence of rows,
 * each row a map from column name to cell value. The relational operations
 * the joining engine applies to them (inner and left merge on a key list,
 * column rename, constant column assignment, text cast of a column) and the
 * statistics it reports are defined here.
 */
module Tables {
  import opened Wrappers

  datatype Value = Null | Bool(b: bool) | Int(i: int) | Text(s: string)

  type Row = map<string, Value>

  datatype Table = Table(columns: seq<string>, rows: seq<Row>)

  /** Every key of the list is a column of the table. */
  predicate HasColumns(t: Table, keys: seq<string>) {
    forall k :: k in keys ==> k in t.columns
  }

  /** Two rows agree on every key of the list (and both carry all of them). */
  predicate MatchOn(keys: seq<string>, r1: Row, r2: Row) {
    forall k :: k in keys ==> k in r1 && k in r2 && r1[k] == r2[k]
  }

  /** `small` is contained in `big`: same value on every column of `small`. */
  predicate SubRow(small: Row, big: Row) {
    forall c :: c in small ==> c in big && big[c] == small[c]
  }

  /** A merged row: the right row's columns, with the left row's values winning on a shared column. */
  function MergeRow(left: Row, right: Row): (r: Row)
    ensures SubRow(left, r)
    ensures forall c :: c in right && c !in left ==> c in r && r[c] == right[c]
    ensures r.Keys == left.Keys + right.Keys
  {
    right + left
  }

  /** The columns of `right` that `left` does not already have, in order. */
  function NewColumns(left: seq<string>, right: seq<string>): (r: seq<string>)
    ensures forall c :: c in r <==> c in right && c !in left
  {
    if right == [] then []
    else (if right[0] in left then [] else [right[0]]) + NewColumns(left, right[1..])
  }

  /** The rows of `right` whose key values equal those of `l`, in their order. */
  function Matches(keys: seq<string>, l: Row, right: seq<Row>): seq<Row>
  {
    if right == [] then []
    else (if MatchOn(keys, l, right[0]) then [right[0]] else []) + Matches(keys, l, right[1..])
  }

  lemma {:induction false} MatchesSound(keys: seq<string>, l: Row, right: seq<Row>)
    ensures forall m :: m in Matches(keys, l, right) ==> m in right && MatchOn(keys, l, m)
    ensures forall m :: m in right && MatchOn(keys, l, m) ==> m in Matches(keys, l, right)
  {
    if right != [] {
      MatchesSound(keys, l, right[1..]);
      assert right == [right[0]] + right[1..];
    }
  }

  /** Position in `right` of the k-th match. */
  lemma {:induction false} MatchOrigin(keys: seq<string>, l: Row, right: seq<Row>, k: nat) returns (j: nat)
    requires k < |Matches(keys, l, right)|
    ensures j < |right| && Matches(keys, l, right)[k] == right[j] && MatchOn(keys, l, right[j])
  {
    var first := if MatchOn(keys, l, right[0]) then [right[0]] else [];
    assert Matches(keys, l, right) == first + Matches(keys, l, right[1..]);
    if k < |first| {
      j := 0;
    } else {
      var j' := MatchOrigin(keys, l, right[1..], k - |first|);
      j := j' + 1;
    }
  }

  function MergeAll(l: Row, ms: seq<Row>): (r: seq<Row>)
    ensures |r| == |ms|
    ensures forall n :: 0 <= n < |ms| ==> r[n] == MergeRow(l, ms[n])
  {
    if ms == [] then [] else [MergeRow(l, ms[0])] + MergeAll(l, ms[1..])
  }

  /** Rows of an inner merge: for each left row in order, one merged row per matching right row. */
  function InnerRows(keys: seq<string>, left: seq<Row>, right: seq<Row>): seq<Row>
  {
    if left == [] then []
    else MergeAll(left[0], Matches(keys, left[0], right)) + InnerRows(keys, left[1..], right)
  }

  /** A right-side row of nulls, used to pad a left row that found no match. */
  function NullRow(cols: seq<string>): (r: Row)
    ensures forall c :: c in r <==> c in cols
  {
    map c | c in cols :: Null
  }

  /** Rows of a left merge: like the inner merge, but a left row with no match is kept, padded with nulls. */
  function LeftRows(keys: seq<string>, left: seq<Row>, right: seq<Row>, pad: Row): seq<Row>
  {
    if left == [] then []
    else
      var ms := Matches(keys, left[0], right);
      (if ms == [] then [MergeRow(left[0], pad)] else MergeAll(left[0], ms))
      + LeftRows(keys, left[1..], right, pad)
  }

  /**
   * `pd.merge(left, right, on=keys, how='inner')`. Key columns appear once,
   * then the right table's other columns. The caller checks that the keys exist.
   * Keys are compared cell by cell: pandas' refusal to merge a numeric or
   * datetime key column with a text one has no counterpart here.
   */
  function InnerJoin(left: Table, right: Table, keys: seq<string>): Table
  {
    Table(left.columns + NewColumns(left.columns, right.columns), InnerRows(keys, left.rows, right.rows))
  }

  /** `pd.merge(left, right, on=keys, how='left')`. */
  function LeftJoin(left: Table, right: Table, keys: seq<string>): Table
  {
    var extra := NewColumns(left.columns, right.columns);
    Table(left.columns + extra, LeftRows(keys, left.rows, right.rows, NullRow(extra)))
  }

  /** Every inner-merge row comes from one left and one right row that agree on the keys. */
  lemma {:induction false} InnerRowOrigin(keys: seq<string>, left: seq<Row>, right: seq<Row>, n: nat)
    returns (i: nat, j: nat)
    requires n < |InnerRows(keys, left, right)|
    ensures i < |left| && j < |right| && MatchOn(keys, left[i], right[j])
    ensures InnerRows(keys, left, right)[n] == MergeRow(left[i], right[j])
  {
    assert left != [];
    var head := MergeAll(left[0], Matches(keys, left[0], right));
    if n < |head| {
      i := 0;
      j := MatchOrigin(keys, left[0], right, n);
    } else {
      var i';
      i', j := InnerRowOrigin(keys, left[1..], right, n - |head|);
      i := i' + 1;
      assert left[1..][i'] == left[i];
    }
    InnerRowsAt(keys, left, right, n);
  }

  /** The n-th inner-merge row is the n-th row of the first left row's merges, or a row of the rest. */
  lemma InnerRowsAt(keys: seq<string>, left: seq<Row>, right: seq<Row>, n: nat)
    requires left != [] && n < |InnerRows(keys, left, right)|
    ensures var head := MergeAll(left[0], Matches(keys, left[0], right));
      InnerRows(keys, left, right)[n] ==
        if n < |head| then head[n] else InnerRows(keys, left[1..], right)[n - |head|]
  {
  }

  /** Every pair of rows that agree on the keys yields a row of the inner merge. */
  lemma {:induction false} InnerRowsComplete(keys: seq<string>, left: seq<Row>, right: seq<Row>, i: nat, j: nat)
    requires i < |left| && j < |right| && MatchOn(keys, left[i], right[j])
    ensures MergeRow(left[i], right[j]) in InnerRows(keys, left, right)
  {
    MatchesSound(keys, left[i], right);
    assert right[j] in right;
    if i == 0 {
      var ms := Matches(keys, left[0], right);
      var k :| 0 <= k < |ms| && ms[k] == right[j];
      assert MergeAll(left[0], ms)[k] == MergeRow(left[0], right[j]);
    } else {
      InnerRowsComplete(keys, left[1..], right, i - 1, j);
    }
  }

  /** `row` is the merge of a left and a right row that agree on the keys. */
  ghost predicate FromMatchingPair(keys: seq<string>, left: seq<Row>, right: seq<Row>, row: Row) {
    exists i, j :: 0 <= i < |left| && 0 <= j < |right| && MatchOn(keys, left[i], right[j]) && row == MergeRow(left[i], right[j])
  }

  /** The inner merge keeps exactly the matching pairs: both directions of the relational definition. */
  lemma InnerJoinCharacterised(left: Table, right: Table, keys: seq<string>)
    ensures forall n :: 0 <= n < |InnerJoin(left, right, keys).rows| ==>
      FromMatchingPair(keys, left.rows, right.rows, InnerJoin(left, right, keys).rows[n])
    ensures forall i, j :: 0 <= i < |left.rows| && 0 <= j < |right.rows| && MatchOn(keys, left.rows[i], right.rows[j]) ==>
      MergeRow(left.rows[i], right.rows[j]) in InnerJoin(left, right, keys).rows
  {
    forall n | 0 <= n < |InnerJoin(left, right, keys).rows|
      ensures FromMatchingPair(keys, left.rows, right.rows, InnerJoin(left, right, keys).rows[n])
    {
      var i, j := InnerRowOrigin(keys, left.rows, right.rows, n);
    }
    forall i, j | 0 <= i < |left.rows| && 0 <= j < |right.rows| && MatchOn(keys, left.rows[i], right.rows[j])
      ensures MergeRow(left.rows[i], right.rows[j]) in InnerJoin(left, right, keys).rows
    {
      InnerRowsComplete(keys, left.rows, right.rows, i, j);
    }
  }

  /** The key values of every inner-merge row occur in a row of each input. */
  lemma InnerJoinKeysFromBoth(left: Table, right: Table, keys: seq<string>, n: nat)
    requires n < |InnerJoin(left, right, keys).rows|
    ensures exists i :: 0 <= i < |left.rows| && MatchOn(keys, InnerJoin(left, right, keys).rows[n], left.rows[i])
    ensures exists j :: 0 <= j < |right.rows| && MatchOn(keys, InnerJoin(left, right, keys).rows[n], right.rows[j])
  {
    var i, j := InnerRowOrigin(keys, left.rows, right.rows, n);
    var r := InnerJoin(left, right, keys).rows[n];
    assert MatchOn(keys, r, left.rows[i]);
    assert MatchOn(keys, r, right.rows[j]);
  }

  /** Some row of `rows` extends `row`. */
  predicate Covered(row: Row, rows: seq<Row>) {
    exists n :: 0 <= n < |rows| && SubRow(row, rows[n])
  }

  lemma CoveredAppend(row: Row, head: seq<Row>, tail: seq<Row>)
    requires Covered(row, tail)
    ensures Covered(row, head + tail)
  {
    var n :| 0 <= n < |tail| && SubRow(row, tail[n]);
    assert (head + tail)[|head| + n] == tail[n];
  }

  /** Every left row survives a left merge, extended by the right side's columns. */
  lemma {:induction false} LeftRowsKeepBase(keys: seq<string>, left: seq<Row>, right: seq<Row>, pad: Row)
    ensures |LeftRows(keys, left, right, pad)| >= |left|
    ensures forall i :: 0 <= i < |left| ==> Covered(left[i], LeftRows(keys, left, right, pad))
  {
    if left != [] {
      var ms := Matches(keys, left[0], right);
      var head := if ms == [] then [MergeRow(left[0], pad)] else MergeAll(left[0], ms);
      var tail := LeftRows(keys, left[1..], right, pad);
      LeftRowsKeepBase(keys, left[1..], right, pad);
      assert LeftRows(keys, left, right, pad) == head + tail;
      assert SubRow(left[0], (head + tail)[0]);
      forall i | 1 <= i < |left|
        ensures Covered(left[i], head + tail)
      {
        assert left[1..][i - 1] == left[i];
        CoveredAppend(left[i], head, tail);
      }
    }
  }

  /** Right rows are unique on the keys: no two distinct positions agree on all of them. */
  predicate UniqueKeys(keys: seq<string>, rows: seq<Row>) {
    forall a, b :: 0 <= a < b < |rows| ==> !MatchOn(keys, rows[a], rows[b])
  }

  lemma {:induction false} NoMatchesWhenNoneAgree(keys: seq<string>, l: Row, right: seq<Row>)
    requires forall j :: 0 <= j < |right| ==> !MatchOn(keys, l, right[j])
    ensures Matches(keys, l, right) == []
  {
    if right != [] {
      NoMatchesWhenNoneAgree(keys, l, right[1..]);
    }
  }

  lemma {:induction false} AtMostOneMatch(keys: seq<string>, l: Row, right: seq<Row>)
    requires UniqueKeys(keys, right)
    ensures |Matches(keys, l, right)| <= 1
  {
    if right != [] {
      if MatchOn(keys, l, right[0]) {
        forall j | 0 <= j < |right[1..]|
          ensures !MatchOn(keys, l, right[1..][j])
        {
          assert !MatchOn(keys, right[0], right[j + 1]);
        }
        NoMatchesWhenNoneAgree(keys, l, right[1..]);
      } else {
        AtMostOneMatch(keys, l, right[1..]);
      }
    }
  }

  lemma {:induction false} LeftRowsCountWhenUnique(keys: seq<string>, left: seq<Row>, right: seq<Row>, pad: Row)
    requires UniqueKeys(keys, right)
    ensures |LeftRows(keys, left, right, pad)| == |left|
    ensures forall i :: 0 <= i < |left| ==> SubRow(left[i], LeftRows(keys, left, right, pad)[i])
  {
    if left != [] {
      var head := LeftHeadOne(keys, left[0], right, pad);
      LeftRowsCountWhenUnique(keys, left[1..], right, pad);
      ExtendedPairwise(left, head, LeftRows(keys, left[1..], right, pad));
    }
  }

  /** A row extending the first base row, followed by rows extending the rest pairwise, extends all of them pairwise. */
  lemma ExtendedPairwise(base: seq<Row>, head: seq<Row>, tail: seq<Row>)
    requires base != [] && |head| == 1 && SubRow(base[0], head[0])
    requires |tail| == |base| - 1 && forall i :: 0 <= i < |tail| ==> SubRow(base[1..][i], tail[i])
    ensures |head + tail| == |base| && forall i :: 0 <= i < |base| ==> SubRow(base[i], (head + tail)[i])
  {
    forall i | 1 <= i < |base|
      ensures SubRow(base[i], (head + tail)[i])
    {
      assert base[1..][i - 1] == base[i];
    }
  }

  /** With unique right keys, a left row contributes exactly one row, which extends it. */
  lemma LeftHeadOne(keys: seq<string>, l: Row, right: seq<Row>, pad: Row) returns (head: seq<Row>)
    requires UniqueKeys(keys, right)
    ensures var ms := Matches(keys, l, right);
      head == (if ms == [] then [MergeRow(l, pad)] else MergeAll(l, ms))
    ensures |head| == 1 && SubRow(l, head[0])
  {
    AtMostOneMatch(keys, l, right);
    var ms := Matches(keys, l, right);
    head := if ms == [] then [MergeRow(l, pad)] else MergeAll(l, ms);
  }

  /**
   * A left merge keeps every base row: the result has at least as many rows,
   * each base row is contained in some result row, and when the right side is
   * unique on the keys the counts are equal.
   */
  lemma LeftJoinKeepsBase(left: Table, right: Table, keys: seq<string>)
    ensures |LeftJoin(left, right, keys).rows| >= |left.rows|
    ensures forall i :: 0 <= i < |left.rows| ==>
      exists n :: 0 <= n < |LeftJoin(left, right, keys).rows| && SubRow(left.rows[i], LeftJoin(left, right, keys).rows[n])
    ensures UniqueKeys(keys, right.rows) ==> |LeftJoin(left, right, keys).rows| == |left.rows|
    ensures UniqueKeys(keys, right.rows) ==>
      forall i :: 0 <= i < |left.rows| ==> SubRow(left.rows[i], LeftJoin(left, right, keys).rows[i])
    ensures LeftJoin(left, right, keys).columns[..|left.columns|] == left.columns
  {
    var pad := NullRow(NewColumns(left.columns, right.columns));
    LeftRowsKeepBase(keys, left.rows, right.rows, pad);
    if UniqueKeys(keys, right.rows) {
      LeftRowsCountWhenUnique(keys, left.rows, right.rows, pad);
    }
  }

  /** How many columns of the list are called `c`. */
  function Occurrences(cols: seq<string>, c: string): (n: nat)
    ensures n == 0 <==> c !in cols
    ensures n <= |cols|
  {
    if cols == [] then 0 else (if cols[0] == c then 1 else 0) + Occurrences(cols[1..], c)
  }

  /** Every key of the list names exactly one column of the table. */
  predicate KeysOnce(t: Table, keys: seq<string>) {
    forall k :: k in keys ==> Occurrences(t.columns, k) == 1
  }

  /** pandas' message for a merge key that names several columns. */
  function NotUniqueMessage(k: string): string {
    "The column label '" + k + "' is not unique."
  }

  /** Looking a merge key up in one table: an absent label raises KeyError, one naming several columns ValueError. */
  function LabelError(t: Table, k: string): (e: Option<Error>)
    ensures e.None? <==> Occurrences(t.columns, k) == 1
    ensures e.Some? ==> (e == Some(KeyError(k)) && k !in t.columns) || (e == Some(ValueError(NotUniqueMessage(k))) && Occurrences(t.columns, k) > 1)
  {
    if k !in t.columns then Some(KeyError(k))
    else if Occurrences(t.columns, k) > 1 then Some(ValueError(NotUniqueMessage(k)))
    else None
  }

  /**
   * The key lookups of `pd.merge(left, right, on=keys)`: one key at a time,
   * each in the right table first; the first failing lookup raises.
   */
  function MergeKeysError(left: Table, right: Table, keys: seq<string>): (e: Option<Error>)
    ensures e.None? <==> KeysOnce(left, keys) && KeysOnce(right, keys)
    ensures e.Some? ==> exists k :: k in keys && (e == LabelError(right, k) || e == LabelError(left, k))
  {
    if keys == [] then None
    else if LabelError(right, keys[0]).Some? then LabelError(right, keys[0])
    else if LabelError(left, keys[0]).Some? then LabelError(left, keys[0])
    else MergeKeysError(left, right, keys[1..])
  }

  /** Once every key before `k` is found once on both sides, the lookups fail exactly as the lookup of `k` alone does. */
  lemma {:induction false} MergeKeysErrorLast(left: Table, right: Table, keys: seq<string>, k: string)
    requires KeysOnce(left, keys) && KeysOnce(right, keys)
    ensures MergeKeysError(left, right, keys + [k]) == MergeKeysError(left, right, [k])
  {
    if keys != [] {
      assert (keys + [k])[1..] == keys[1..] + [k];
      MergeKeysErrorLast(left, right, keys[1..], k);
    }
  }

  /**
   * `df.rename(columns={from: to})`: renames every column called `from`,
   * leaves the rest in place. A `to` already present stays, so the table then
   * has several columns called `to`.
   */
  function RenameColumn(t: Table, from: string, to: string): (r: Table)
    ensures |r.columns| == |t.columns| && |r.rows| == |t.rows|
    ensures forall i :: 0 <= i < |t.columns| ==>
      r.columns[i] == (if t.columns[i] == from then to else t.columns[i])
  {
    Table(RenameIn(t.columns, from, to), RenameRows(t.rows, from, to))
  }

  function RenameIn(cols: seq<string>, from: string, to: string): (r: seq<string>)
    ensures |r| == |cols|
    ensures forall i :: 0 <= i < |cols| ==> r[i] == (if cols[i] == from then to else cols[i])
  {
    if cols == [] then []
    else [if cols[0] == from then to else cols[0]] + RenameIn(cols[1..], from, to)
  }

  /** Renaming onto a name adds the renamed columns to those already called so. */
  lemma {:induction false} RenameOccurrences(cols: seq<string>, from: string, to: string)
    requires from != to
    ensures Occurrences(RenameIn(cols, from, to), to) == Occurrences(cols, to) + Occurrences(cols, from)
    ensures Occurrences(RenameIn(cols, from, to), from) == 0
  {
    if cols != [] {
      RenameOccurrences(cols[1..], from, to);
      assert RenameIn(cols, from, to)[1..] == RenameIn(cols[1..], from, to);
    }
  }

  /**
   * A row is a map, so it cannot hold two cells of one name: where the table
   * gets a second `to` column, the row keeps the renamed value only.
   */
  function RenameRow(row: Row, from: string, to: string): (r: Row)
    ensures from in row ==> to in r && r[to] == row[from]
    ensures from != to ==> from !in r
    ensures forall c :: c in row && c != from && c != to ==> c in r && r[c] == row[c]
    ensures forall c :: c in r ==> c in row || c == to
  {
    if from in row then (row - {from})[to := row[from]] else row
  }

  function RenameRows(rows: seq<Row>, from: string, to: string): (r: seq<Row>)
    ensures |r| == |rows|
    ensures forall i :: 0 <= i < |rows| ==> r[i] == RenameRow(rows[i], from, to)
  {
    if rows == [] then [] else [RenameRow(rows[0], from, to)] + RenameRows(rows[1..], from, to)
  }

  /** `df[col] = v`: an existing column keeps its place, a new one is appended; every row gets `v`. */
  function AssignColumn(t: Table, col: string, v: Value): (r: Table)
    ensures r.columns == if col in t.columns then t.columns else t.columns + [col]
    ensures |r.rows| == |t.rows|
    ensures forall i :: 0 <= i < |t.rows| ==> r.rows[i] == t.rows[i][col := v]
  {
    Table(if col in t.columns then t.columns else t.columns + [col], SetInRows(t.rows, col, v))
  }

  function SetInRows(rows: seq<Row>, col: string, v: Value): (r: seq<Row>)
    ensures |r| == |rows|
    ensures forall i :: 0 <= i < |rows| ==> r[i] == rows[i][col := v]
  {
    if rows == [] then [] else [rows[0][col := v]] + SetInRows(rows[1..], col, v)
  }

  /** Decimal text of a natural number, as Python's `str` writes it. */
  function NatToText(n: nat): (s: string)
    ensures |s| >= 1
    ensures forall i :: 0 <= i < |s| ==> '0' <= s[i] <= '9'
    decreases n
  {
    if n < 10 then [(n as char + '0' as char) as char]
    else NatToText(n / 10) + [((n % 10) as char + '0' as char) as char]
  }

  /** `astype(str)` of one cell. A missing value becomes the text "nan". */
  function ValueToText(v: Value): (r: Value)
    ensures r.Text?
    ensures v.Text? ==> r == v
  {
    match v
    case Null => Text("nan")
    case Bool(b) => Text(if b then "True" else "False")
    case Int(i) => Text(if i < 0 then "-" + NatToText(-i) else NatToText(i))
    case Text(s) => v
  }

  /** `df[col] = df[col].astype(str)`. */
  function CastColumnToText(t: Table, col: string): (r: Table)
    ensures r.columns == t.columns && |r.rows| == |t.rows|
    ensures forall i :: 0 <= i < |t.rows| ==> r.rows[i].Keys == t.rows[i].Keys
    ensures forall i :: 0 <= i < |t.rows| && col in t.rows[i] ==> r.rows[i][col] == ValueToText(t.rows[i][col])
    ensures forall i, c :: 0 <= i < |t.rows| && c in t.rows[i] && c != col ==> r.rows[i][c] == t.rows[i][c]
  {
    Table(t.columns, CastRows(t.rows, col))
  }

  function CastRows(rows: seq<Row>, col: string): (r: seq<Row>)
    ensures |r| == |rows|
    ensures forall i :: 0 <= i < |rows| ==>
      r[i] == if col in rows[i] then rows[i][col := ValueToText(rows[i][col])] else rows[i]
  {
    if rows == [] then []
    else [if col in rows[0] then rows[0][col := ValueToText(rows[0][col])] else rows[0]] + CastRows(rows[1..], col)
  }

  /** Casting a column that already holds text changes nothing, so the cast may be repeated. */
  lemma CastIdempotent(t: Table, col: string)
    ensures CastColumnToText(CastColumnToText(t, col), col) == CastColumnToText(t, col)
  {
    var r1 := CastColumnToText(t, col);
    var r2 := CastColumnToText(r1, col);
    forall i | 0 <= i < |r1.rows|
      ensures r2.rows[i] == r1.rows[i]
    {
      if col in r1.rows[i] {
        assert r1.rows[i][col].Text?;
        assert r1.rows[i][col := r1.rows[i][col]] == r1.rows[i];
      }
    }
  }

  /** The distinct non-missing values of a column (what `nunique` counts). */
  function DistinctValues(rows: seq<Row>, col: string): set<Value>
  {
    if rows == [] then {}
    else (if col in rows[0] && rows[0][col] != Null then {rows[0][col]} else {}) + DistinctValues(rows[1..], col)
  }

  /** `v` is the non-null value of `col` in some row. */
  predicate OccursIn(v: Value, rows: seq<Row>, col: string) {
    v != Null && exists i :: 0 <= i < |rows| && col in rows[i] && rows[i][col] == v
  }

  /** `df[col].nunique()`: never more than the number of rows, and the set is exactly the column's non-null values. */
  lemma DistinctValuesBound(rows: seq<Row>, col: string)
    ensures |DistinctValues(rows, col)| <= |rows|
    ensures forall v :: v in DistinctValues(rows, col) <==>
      exists i :: 0 <= i < |rows| && col in rows[i] && rows[i][col] == v && v != Null
  {
    DistinctValuesSize(rows, col);
    DistinctValuesMembers(rows, col);
  }

  lemma {:induction false} DistinctValuesSize(rows: seq<Row>, col: string)
    ensures |DistinctValues(rows, col)| <= |rows|
  {
    if rows != [] {
      DistinctValuesSize(rows[1..], col);
    }
  }

  lemma {:induction false} DistinctValuesMembers(rows: seq<Row>, col: string)
    ensures forall v :: v in DistinctValues(rows, col) <==> OccursIn(v, rows, col)
  {
    if rows != [] {
      DistinctValuesMembers(rows[1..], col);
      forall v | v in DistinctValues(rows, col)
        ensures OccursIn(v, rows, col)
      {
        if !(col in rows[0] && rows[0][col] == v && v != Null) {
          assert v in DistinctValues(rows[1..], col);
          assert OccursIn(v, rows[1..], col);
          var i :| 0 <= i < |rows[1..]| && col in rows[1..][i] && rows[1..][i][col] == v;
          assert rows[1..][i] == rows[i + 1];
          assert 0 <= i + 1 < |rows| && col in rows[i + 1] && rows[i + 1][col] == v;
        }
      }
      forall v | OccursIn(v, rows, col)
        ensures v in DistinctValues(rows, col)
      {
        var i :| 0 <= i < |rows| && col in rows[i] && rows[i][col] == v;
        if i > 0 {
          assert rows[1..][i - 1] == rows[i];
        }
      }
    }
  }

  /**
   * Whether some combination of the group-by values occurs in more than one
   * row (`(df.groupby(cols).size() > 1).any()`), computed row by row.
   */
  function HasDuplicateKey(rows: seq<Row>, cols: seq<string>): bool
  {
    if rows == [] then false
    else (exists j :: 1 <= j < |rows| && MatchOn(cols, rows[0], rows[j])) || HasDuplicateKey(rows[1..], cols)
  }

  /** The row-by-row test agrees with the definition: two distinct rows with the same key values. */
  lemma {:induction false} HasDuplicateKeyIff(rows: seq<Row>, cols: seq<string>)
    ensures HasDuplicateKey(rows, cols) <==> !UniqueKeys(cols, rows)
  {
    if rows != [] {
      HasDuplicateKeyIff(rows[1..], cols);
      if !UniqueKeys(cols, rows[1..]) {
        var a, b :| 0 <= a < b < |rows[1..]| && MatchOn(cols, rows[1..][a], rows[1..][b]);
        assert MatchOn(cols, rows[a + 1], rows[b + 1]);
      }
      if !UniqueKeys(cols, rows) {
        var a, b :| 0 <= a < b < |rows| && MatchOn(cols, rows[a], rows[b]);
        if a > 0 {
          assert MatchOn(cols, rows[1..][a - 1], rows[1..][b - 1]);
        }
      }
    }
  }
}
