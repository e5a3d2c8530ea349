/** Outcome rows and the range matcher shared by every table engine. The function
    `isInRange` is the same in `_site/assets/js/lootBoxEngine.js`,
    `_site/assets/js/lastingInjuriesEngine.js`, `_site/assets/js/xpTablesEngine.js` and
    `assets/js/lastingInjuriesEngine.js`, and so are their first-match loops; both are
    defined once here. A roll is a number or `null` (`None`). */
module RangeMatch {
  import opened Common
  import opened JsText

  /** One entry of an outcome's `values` list: a JSON number or a JSON string. */
  datatype MatchValue = Num(n: int) | Str(s: string)

  /** The income sub-rule a loot-box outcome may carry: `{schema, sides, multiplier}`,
      with 0 for an absent number. */
  datatype RowIncome = RowIncome(schema: string, sides: nat, multiplier: int)

  /** One row of a rule table, with the fields the engines read. `id` is the row's own
      `id` field when it has one; "" stands for an absent or empty text field. */
  datatype Row = Row(id: Option<string>, name: string, values: seq<MatchValue>,
                     fixedEffect: string, randomEffect: string, colour: string,
                     income: Option<RowIncome>)

  /** `{ id, ...data }` for the entry `[id, data]` of `Object.entries(results)`: the key
      becomes the id unless the row has an `id` of its own, which the spread copies over it. */
  function Tag(key: string, row: Row): (r: Row)
    ensures r.id.Some?
    ensures row.id.None? ==> r.id == Some(key)
    ensures row.id.Some? ==> r == row
    ensures r.(id := row.id) == row
  {
    if row.id.Some? then row else row.(id := Some(key))
  }

  /** `Object.entries(results).map(([id, data]) => ({ id, ...data }))` */
  function TagAll(entries: seq<(string, Row)>): (r: seq<Row>)
    ensures |r| == |entries|
    ensures forall i :: 0 <= i < |r| ==> r[i] == Tag(entries[i].0, entries[i].1)
  {
    seq(|entries|, i requires 0 <= i < |entries| => Tag(entries[i].0, entries[i].1))
  }

  /** Whether one entry of a `values` list contains the roll. A number must equal it; a
      string with a hyphen is split on `-` and the first two pieces, read by `Number`, are
      the inclusive bounds; any other string must read as the roll. A `null` roll equals
      nothing but compares as 0 against range bounds. */
  predicate EntryMatches(roll: Option<int>, v: MatchValue) {
    match v
    case Num(n) => roll == Some(n)
    case Str(s) =>
      if '-' in s then
        var parts := Split(s, '-');
        var lo := ToNumber(parts[0]);
        var hi := ToNumber(parts[1]);
        var x := roll.GetOr(0);
        lo.Some? && hi.Some? && lo.value <= x <= hi.value
      else roll.Some? && ToNumber(s) == roll
  }

  /** `isInRange(roll, values)`: the loop returns true at the first entry containing the
      roll and false when none does. */
  function InRange(roll: Option<int>, values: seq<MatchValue>): (r: bool)
    ensures r <==> exists i :: 0 <= i < |values| && EntryMatches(roll, values[i])
  {
    if values == [] then false
    else if EntryMatches(roll, values[0]) then true
    else
      var r := InRange(roll, values[1..]);
      assert r ==> exists i :: 0 <= i < |values| - 1 && EntryMatches(roll, values[1..][i]);
      assert (exists i :: 0 <= i < |values| && EntryMatches(roll, values[i])) ==>
        exists i :: 0 <= i < |values| - 1 && EntryMatches(roll, values[1..][i]);
      r
  }

  /** The first-match loop: the first row, in declared order, whose values contain the
      roll, or `None` when no row does. */
  function FirstMatch(roll: Option<int>, rows: seq<Row>): (r: Option<Row>)
    ensures r.None? <==> forall i :: 0 <= i < |rows| ==> !InRange(roll, rows[i].values)
    ensures r.Some? ==> (exists i :: 0 <= i < |rows| && rows[i] == r.value &&
                           InRange(roll, rows[i].values) &&
                           forall j :: 0 <= j < i ==> !InRange(roll, rows[j].values))
  {
    if rows == [] then None
    else if InRange(roll, rows[0].values) then Some(rows[0])
    else
      var r := FirstMatch(roll, rows[1..]);
      assert forall i :: 1 <= i < |rows| ==> rows[i] == rows[1..][i - 1];
      if r.Some? then
        var k :| 0 <= k < |rows| - 1 && rows[1..][k] == r.value && InRange(roll, rows[1..][k].values)
          && forall j :: 0 <= j < k ==> !InRange(roll, rows[1..][j].values);
        assert rows[k + 1] == r.value;
        r
      else r
  }

  /** The converse: the row at the first index whose values contain the roll is the
      match, so of two rows that both contain a roll the earlier one wins. */
  lemma {:induction false} FirstMatchAt(roll: Option<int>, rows: seq<Row>, i: nat)
    requires i < |rows| && InRange(roll, rows[i].values)
    requires forall j :: 0 <= j < i ==> !InRange(roll, rows[j].values)
    ensures FirstMatch(roll, rows) == Some(rows[i])
  {
    if i > 0 {
      assert !InRange(roll, rows[0].values);
      var tail := rows[1..];
      assert FirstMatch(roll, rows) == FirstMatch(roll, tail);
      assert tail[i - 1] == rows[i];
      forall j | 0 <= j < i - 1
        ensures !InRange(roll, tail[j].values)
      {
        assert tail[j] == rows[j + 1];
      }
      FirstMatchAt(roll, tail, i - 1);
    }
  }

  /** `findResult(tableName, roll)` once the table is found: tag the entries, then take the
      first match. */
  function FindInEntries(roll: Option<int>, entries: seq<(string, Row)>): (r: Option<Row>)
    ensures r.None? <==> forall i :: 0 <= i < |entries| ==> !InRange(roll, entries[i].1.values)
    ensures r.Some? ==> r.value.id.Some?
    ensures r.Some? ==> (exists i :: 0 <= i < |entries| &&
                           r.value == Tag(entries[i].0, entries[i].1) &&
                           InRange(roll, entries[i].1.values) &&
                           forall j :: 0 <= j < i ==> !InRange(roll, entries[j].1.values))
  {
    var rows := TagAll(entries);
    assert forall i :: 0 <= i < |entries| ==> rows[i].values == entries[i].1.values;
    FirstMatch(roll, rows)
  }

  /** Splitting `a-b` on `-` gives back `a` and `b` when neither contains a hyphen. */
  lemma {:induction false} SplitAroundSeparator(a: string, b: string, sep: char)
    requires sep !in a && sep !in b
    ensures Split(a + [sep] + b, sep) == [a, b]
  {
    var s := a + [sep] + b;
    if a == [] {
      assert s[0] == sep && s[1..] == b;
      SplitWithoutSeparator(b, sep);
      assert Split(s, sep) == [""] + [b];
    } else {
      assert s[0] == a[0] && s[0] != sep;
      assert s[1..] == a[1..] + [sep] + b;
      SplitAroundSeparator(a[1..], b, sep);
      var rest := Split(s[1..], sep);
      assert rest == [a[1..], b];
      assert Split(s, sep) == [[a[0]] + rest[0]] + rest[1..];
      assert [a[0]] + a[1..] == a;
    }
  }

  /** A string without the separator splits into itself alone. */
  lemma {:induction false} SplitWithoutSeparator(s: string, sep: char)
    requires sep !in s
    ensures Split(s, sep) == [s]
  {
    if s != [] {
      assert s[0] != sep && sep !in s[1..];
      SplitWithoutSeparator(s[1..], sep);
      assert Split(s, sep) == [[s[0]] + s[1..]];
      assert [s[0]] + s[1..] == s;
    }
  }

  /** Boundary behaviour of a range entry written `"lo-hi"`: every roll from `lo` to `hi`
      matches, and nothing outside, in particular not `lo - 1` or `hi + 1`. */
  lemma RangeEntryBounds(lo: nat, hi: nat, roll: int)
    ensures EntryMatches(Some(roll), Str(NatToString(lo) + "-" + NatToString(hi))) <==> lo <= roll <= hi
  {
    var a, b := NatToString(lo), NatToString(hi);
    var s := a + "-" + b;
    assert '-' !in a && '-' !in b by {
      assert forall i :: 0 <= i < |a| ==> IsDigit(a[i]);
      assert forall i :: 0 <= i < |b| ==> IsDigit(b[i]);
    }
    assert s == a + ['-'] + b;
    SplitAroundSeparator(a, b, '-');
    assert s[|a|] == '-';
    NumberOfNatToString(lo);
    NumberOfNatToString(hi);
    var parts := Split(s, '-');
    assert parts[0] == a && parts[1] == b;
    assert EntryMatches(Some(roll), Str(s)) == (lo <= roll <= hi);
  }

  /** A numeric string entry `String(n)` matches exactly the roll `n`. */
  lemma NumericStringEntry(n: nat, roll: int)
    ensures EntryMatches(Some(roll), Str(NatToString(n))) <==> roll == n
  {
    var s := NatToString(n);
    assert '-' !in s by {
      assert forall i :: 0 <= i < |s| ==> IsDigit(s[i]);
    }
    NumberOfNatToString(n);
  }
}
