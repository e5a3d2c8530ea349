/** The XP tables resolver (`_site/assets/js/xpTablesEngine.js`): advancement and skill
    tables rolled with a d66, a single die or a sum of dice, the first-match lookup,
    roll tests with a given value, and the list of skill tables with display names. */
module XpTablesEngine {
  import opened Common
  import opened JsText
  import opened Dice
  import opened RangeMatch

  /** A table's `sides`: the string `"d66"`, a number, or any other string (read with
      `parseInt`; an absent `sides` is the empty string, which reads as NaN). The string
      `"d66"` is always `D66Sides`, since `sides === 'd66'` is tested first; a table
      holding `TextSides("d66")` stands for no loaded table. */
  datatype XpSides = D66Sides | NumSides(n: int) | TextSides(s: string)

  /** One XP table; a `count` of 0 stands for an absent or zero count, which `count || 1`
      turns into 1. */
  datatype XpTable = XpTable(sides: XpSides, count: int, results: seq<(string, Row)>)

  /** A JavaScript number as the engine can produce it: an integer or NaN. */
  datatype Number = Finite(n: int) | NaN

  /** What a roll or a test returns: an error alone, a roll with no result, or the roll
      and its result (with the table name for skill tables). */
  datatype XpOutcome =
    | Failed(error: string)
    | NoResult(roll: Number, message: string)
    | Found(tableName: Option<string>, foundRoll: Number, result: Row)

  /** One entry of `getSkillTables()`. */
  datatype SkillTable = SkillTable(id: string, name: string)

  const AdvancementsTable := "advancements_random"
  const SkillPrefix := "skill_"

  /** `${roll}` for an integer or NaN. */
  function NumberText(x: Number): string {
    match x
    case NaN => "NaN"
    case Finite(n) => IntToString(n)
  }

  /** The number of faces `rollDiceForTable` uses for a non-d66 table: a number as it is,
      a string through `parseInt` (`None` is NaN). */
  function SidesNumber(sides: XpSides): (r: Option<int>)
    requires !sides.D66Sides?
    ensures sides.NumSides? ==> r == Some(sides.n)
    ensures sides.TextSides? ==> r == ParseInt(sides.s)
  {
    match sides
    case NumSides(n) => Some(n)
    case TextSides(s) => ParseInt(s)
  }

  /** `count || 1` */
  function DiceCount(table: XpTable): (c: int)
    ensures c != 0
    ensures table.count != 0 ==> c == table.count
  {
    if table.count == 0 then 1 else table.count
  }

  /** The roll of a table that is found: a d66 for `"d66"`; otherwise one die when the
      count is 1 and the sum of `count` dice otherwise (0 for a negative count, whose
      loop rolls nothing); NaN faces give NaN. */
  function TableRoll(table: XpTable, tape: Tape, pos: nat): (r: Rolled<Number>)
    ensures table.sides.D66Sides? ==> r == Rolled(Finite(D66(tape, pos)), pos + 2)
    ensures !table.sides.D66Sides? && DiceCount(table) == 1 ==>
      r.next == pos + 1 &&
      r.value == (if SidesNumber(table.sides).None? then NaN else Finite(D(tape, pos, SidesNumber(table.sides).value)))
    ensures !table.sides.D66Sides? && DiceCount(table) != 1 ==>
      var count := DiceCount(table);
      r.next == pos + (if count > 0 then count else 0) &&
      r.value == (if count > 0 && SidesNumber(table.sides).None? then NaN
                  else Finite(Sum(RollsFrom(tape, pos, count, NoFunc, SidesNumber(table.sides).GetOr(0)))))
  {
    var count := DiceCount(table);
    if table.sides.D66Sides? then Rolled(Finite(D66(tape, pos)), pos + 2)
    else
      var n := SidesNumber(table.sides);
      if count == 1 then
        Rolled(if n.None? then NaN else Finite(D(tape, pos, n.value)), pos + 1)
      else if count <= 0 then Rolled(Finite(Sum(RollsFrom(tape, pos, count, NoFunc, n.GetOr(0)))), pos)
      else if n.None? then Rolled(NaN, pos + count)
      else Rolled(Finite(Sum(RollsFrom(tape, pos, count, NoFunc, n.value))), pos + count)
  }

  /** With `count >= 1` dice of `n >= 1` faces, the roll lies in `[count, count * n]`; a
      d66 table gives 11..66. */
  lemma TableRollBounds(table: XpTable, n: int, tape: Tape, pos: nat)
    requires !table.sides.D66Sides? && SidesNumber(table.sides) == Some(n) && n >= 1
    requires DiceCount(table) >= 1
    ensures var count := DiceCount(table);
      TableRoll(table, tape, pos).value.Finite? &&
      count <= TableRoll(table, tape, pos).value.n <= count * n
  {
    var count := DiceCount(table);
    if count != 1 {
      var rolls := RollsFrom(tape, pos, count, NoFunc, n);
      RollsInRange(tape, pos, count, NoFunc, n);
      SumBounds(rolls, n);
    }
  }

  /** A d66 table rolls a two-digit value with both digits 1..6. */
  lemma D66TableRoll(table: XpTable, tape: Tape, pos: nat)
    requires table.sides.D66Sides?
    ensures var v := TableRoll(table, tape, pos).value;
      v.Finite? && 11 <= v.n <= 66 && 1 <= v.n / 10 <= 6 && 1 <= v.n % 10 <= 6
  {
  }

  /** `word.charAt(0).toUpperCase() + word.slice(1)` */
  function Capitalize(word: string): (r: string)
    ensures |r| == |word|
    ensures |word| > 0 ==> r[0] == ToUpperChar(word[0]) && r[1..] == word[1..]
  {
    if word == [] then [] else [ToUpperChar(word[0])] + word[1..]
  }

  function CapitalizeAll(words: seq<string>): (r: seq<string>)
    ensures |r| == |words|
    ensures forall i :: 0 <= i < |r| ==> r[i] == Capitalize(words[i])
  {
    seq(|words|, i requires 0 <= i < |words| => Capitalize(words[i]))
  }

  /** `s.split(' ').map(capitalize).join(' ')` */
  function CapitalizeWords(s: string): string {
    Join(CapitalizeAll(Split(s, ' ')), ' ')
  }

  /** Whether position `i` of `s` starts a word: it is first or follows a space. */
  predicate WordStart(s: string, i: nat)
    requires i < |s|
  {
    i == 0 || s[i - 1] == ' '
  }

  /** Capitalising each piece of a list without spaces and joining with spaces upper-cases
      exactly the characters that start a word of the joined text. */
  lemma {:induction false} CapitalizeJoined(pieces: seq<string>)
    requires |pieces| >= 1 && forall k :: 0 <= k < |pieces| ==> ' ' !in pieces[k]
    ensures var s, r := Join(pieces, ' '), Join(CapitalizeAll(pieces), ' ');
      |r| == |s| && forall i :: 0 <= i < |s| ==> r[i] == (if WordStart(s, i) then ToUpperChar(s[i]) else s[i])
  {
    var s, r := Join(pieces, ' '), Join(CapitalizeAll(pieces), ' ');
    var p0 := pieces[0];
    if |pieces| == 1 {
      assert s == p0 && r == Capitalize(p0);
      assert forall j :: 0 <= j < |p0| ==> p0[j] != ' ';
    } else {
      var rest := pieces[1..];
      CapitalizeJoined(rest);
      assert CapitalizeAll(pieces)[1..] == CapitalizeAll(rest);
      var s', r' := Join(rest, ' '), Join(CapitalizeAll(rest), ' ');
      assert s == p0 + [' '] + s';
      assert r == Capitalize(p0) + [' '] + r';
      forall i | 0 <= i < |s|
        ensures r[i] == (if WordStart(s, i) then ToUpperChar(s[i]) else s[i])
      {
        if i < |p0| {
          assert 1 <= i ==> s[i - 1] == p0[i - 1];
          assert 1 <= i ==> s[i - 1] in p0;
        } else if i > |p0| {
          var j := i - |p0| - 1;
          assert s[i] == s'[j] && r[i] == r'[j];
          assert WordStart(s, i) <==> WordStart(s', j);
        }
      }
    }
  }

  /** `capitalizeWords` upper-cases the first letter of every word and changes nothing
      else. */
  lemma CapitalizeWordsSpec(s: string)
    ensures |CapitalizeWords(s)| == |s|
    ensures forall i :: 0 <= i < |s| ==>
      CapitalizeWords(s)[i] == (if WordStart(s, i) then ToUpperChar(s[i]) else s[i])
  {
    CapitalizeJoined(Split(s, ' '));
  }

  /** The position of the first `c` in `s`, or `|s|` when there is none. */
  function FirstIndex(s: string, c: char): (k: nat)
    ensures k <= |s|
    ensures forall j :: 0 <= j < k ==> s[j] != c
    ensures k < |s| ==> s[k] == c
  {
    if s == [] then 0 else if s[0] == c then 0 else 1 + FirstIndex(s[1..], c)
  }

  /** `s.replace(a, b)` for one-character strings: only the first occurrence changes. */
  function ReplaceFirst(s: string, a: char, b: char): (r: string)
    ensures |r| == |s|
    ensures forall i :: 0 <= i < |s| ==> r[i] == (if i == FirstIndex(s, a) then b else s[i])
  {
    var k := FirstIndex(s, a);
    if k < |s| then s[..k] + [b] + s[k + 1..] else s
  }

  /** The display name of a skill table key: the key without `skill_`, its first `_`
      turned into a space, each word capitalised. */
  function SkillName(key: string): string
    requires StartsWith(key, SkillPrefix)
  {
    CapitalizeWords(ReplaceFirst(key[|SkillPrefix|..], '_', ' '))
  }

  /** A skill table's name is as long as its key without the prefix; the first `_` of
      that suffix is a space, a word-initial letter is upper-cased, and every other
      character is kept. */
  lemma SkillNameSpec(key: string)
    requires StartsWith(key, SkillPrefix)
    ensures var suffix := key[|SkillPrefix|..]; var spaced := ReplaceFirst(suffix, '_', ' ');
      |SkillName(key)| == |suffix| &&
      (forall i :: 0 <= i < |suffix| ==> spaced[i] == (if i == FirstIndex(suffix, '_') then ' ' else suffix[i])) &&
      (forall i :: 0 <= i < |spaced| ==>
        SkillName(key)[i] == (if WordStart(spaced, i) then ToUpperChar(spaced[i]) else spaced[i]))
  {
    CapitalizeWordsSpec(ReplaceFirst(key[|SkillPrefix|..], '_', ' '));
  }

  /** `Object.keys(xpData).filter(key => key.startsWith('skill_')).map(...)`: the keys with
      the prefix, in key order, each with its display name. */
  function SkillTablesOf(entries: seq<(string, XpTable)>): (r: seq<SkillTable>)
    ensures |r| <= |entries|
    ensures forall k :: 0 <= k < |r| ==> StartsWith(r[k].id, SkillPrefix) && r[k].name == SkillName(r[k].id)
  {
    if entries == [] then []
    else
      var last := |entries| - 1;
      var key := entries[last].0;
      var r := SkillTablesOf(entries[..last]);
      if StartsWith(key, SkillPrefix) then
        var t := SkillTable(key, SkillName(key));
        var r' := r + [t];
        assert forall k :: 0 <= k < |r| ==> r'[k] == r[k];
        assert r'[|r|] == t;
        r'
      else r
  }

  /** Every listed table is named after a key of the data: nothing is invented. */
  lemma {:induction false} SkillTablesFromKeys(entries: seq<(string, XpTable)>, k: nat)
    requires k < |SkillTablesOf(entries)|
    ensures exists i :: 0 <= i < |entries| && entries[i].0 == SkillTablesOf(entries)[k].id
  {
    var last := |entries| - 1;
    var init := entries[..last];
    SkillTablesOfLast(entries);
    if k < |SkillTablesOf(init)| {
      SkillTablesFromKeys(init, k);
      var i :| 0 <= i < |init| && init[i].0 == SkillTablesOf(init)[k].id;
      assert entries[i] == init[i];
      assert SkillTablesOf(entries)[k] == SkillTablesOf(init)[k];
    } else {
      assert SkillTablesOf(entries)[k].id == entries[last].0;
    }
  }

  /** Every key with the prefix gets its table: no skill table is dropped. */
  lemma {:induction false} SkillTablesOfComplete(entries: seq<(string, XpTable)>, i: nat)
    requires i < |entries| && StartsWith(entries[i].0, SkillPrefix)
    ensures SkillTable(entries[i].0, SkillName(entries[i].0)) in SkillTablesOf(entries)
  {
    var last := |entries| - 1;
    SkillTablesOfLast(entries);
    if i < last {
      assert entries[..last][i] == entries[i];
      SkillTablesOfComplete(entries[..last], i);
    } else {
      assert i == last;
    }
  }

  /** The last key adds its table after those of the keys before it, when it has the
      prefix. */
  lemma SkillTablesOfLast(entries: seq<(string, XpTable)>)
    requires entries != []
    ensures var key := entries[|entries| - 1].0;
      var init := SkillTablesOf(entries[..|entries| - 1]);
      SkillTablesOf(entries) == init + (if StartsWith(key, SkillPrefix) then [SkillTable(key, SkillName(key))] else []) &&
      (forall t :: t in init ==> t in SkillTablesOf(entries)) &&
      (StartsWith(key, SkillPrefix) ==> SkillTable(key, SkillName(key)) in SkillTablesOf(entries))
  {
  }

  /** The filter keeps key order: the tables of two runs of keys are those of the first
      run followed by those of the second. */
  lemma {:induction false} SkillTablesOfAppend(a: seq<(string, XpTable)>, b: seq<(string, XpTable)>)
    ensures SkillTablesOf(a + b) == SkillTablesOf(a) + SkillTablesOf(b)
    decreases |b|
  {
    if b != [] {
      var b' := b[..|b| - 1];
      assert (a + b)[..|a + b| - 1] == a + b';
      SkillTablesOfAppend(a, b');
    } else {
      assert a + b == a;
    }
  }

  class XpTables {
    /** The loaded tables by name; `None` before any data is loaded. */
    var xpData: Option<seq<(string, XpTable)>>

    constructor()
      ensures xpData.None?
    {
      xpData := None;
    }

    /** `loadXPData(data)` */
    method LoadXPData(data: seq<(string, XpTable)>)
      modifies this
      ensures xpData == Some(data)
    {
      xpData := Some(data);
    }

    /** `getTable(tableName)`: `None` without data or without that table. */
    function GetTable(name: string): (r: Option<XpTable>)
      reads this
      ensures xpData.None? ==> r.None?
      ensures xpData.Some? && r.None? ==> name !in Keys(xpData.value)
      ensures r.Some? ==> (xpData.Some? && exists i :: 0 <= i < |xpData.value| && xpData.value[i] == (name, r.value))
    {
      if xpData.None? then None
      else
        var r := Lookup(xpData.value, name);
        assert r.None? ==> forall i :: 0 <= i < |xpData.value| ==> Keys(xpData.value)[i] != name;
        r
    }

    /** `rollDiceForTable(tableName)`: `None` (null) for a missing table, no die rolled. */
    function RollDiceForTable(name: string, tape: Tape, pos: nat): (r: Rolled<Option<Number>>)
      reads this
      ensures GetTable(name).None? ==> r == Rolled(None, pos)
      ensures GetTable(name).Some? ==> (r.value.Some? &&
        Rolled(r.value.value, r.next) == TableRoll(GetTable(name).value, tape, pos))
    {
      match GetTable(name)
      case None => Rolled(None, pos)
      case Some(table) =>
        var rolled := TableRoll(table, tape, pos);
        Rolled(Some(rolled.value), rolled.next)
    }

    /** `findResult(tableName, roll)`: the first declared result containing the roll,
        tagged with its id; `None` for a missing table and for NaN. */
    function FindResult(name: string, roll: Number): (r: Option<Row>)
      reads this
      ensures GetTable(name).None? || roll.NaN? ==> r.None?
      ensures GetTable(name).Some? && roll.Finite? ==>
        r == FindInEntries(Some(roll.n), GetTable(name).value.results)
    {
      match GetTable(name)
      case None => None
      case Some(table) => if roll.NaN? then None else FindInEntries(Some(roll.n), table.results)
    }

    /** `rollAdvancement()`: an error without the advancement table, a no-result report
        for a roll no entry contains, otherwise the roll and its result. */
    function RollAdvancement(tape: Tape, pos: nat): (r: Rolled<XpOutcome>)
      reads this
      ensures r.value.Failed? <==> GetTable(AdvancementsTable).None?
      ensures r.value.Failed? ==> r == Rolled(Failed("Failed to roll. Data not loaded."), pos)
      ensures !r.value.Failed? ==>
        var rolled := RollDiceForTable(AdvancementsTable, tape, pos);
        r.next == rolled.next &&
        r.value == LookupOutcome(None, AdvancementsTable, rolled.value.value, "No result found for this roll.")
    {
      var rolled := RollDiceForTable(AdvancementsTable, tape, pos);
      match rolled.value
      case None => Rolled(Failed("Failed to roll. Data not loaded."), pos)
      case Some(roll) =>
        Rolled(LookupOutcome(None, AdvancementsTable, roll, "No result found for this roll."), rolled.next)
    }

    /** The lookup that ends every roll and test: the roll with its result, or the roll
        with the no-result message. */
    function LookupOutcome(shownName: Option<string>, name: string, roll: Number, missing: string): (r: XpOutcome)
      reads this
      ensures r.NoResult? <==> FindResult(name, roll).None?
      ensures r.NoResult? ==> r == NoResult(roll, missing)
      ensures r.Found? ==> r == Found(shownName, roll, FindResult(name, roll).value)
    {
      match FindResult(name, roll)
      case None => NoResult(roll, missing)
      case Some(result) => Found(shownName, roll, result)
    }

    /** The no-result message of a skill table. */
    static function SkillMissing(name: string, roll: Number): string {
      "No result found for roll " + NumberText(roll) + " in table " + name + "."
    }

    /** `rollSkillTable(name)`: like `rollAdvancement` on the named table, with the table
        name in the error texts and in the result. */
    function RollSkillTable(name: string, tape: Tape, pos: nat): (r: Rolled<XpOutcome>)
      reads this
      ensures r.value.Failed? <==> GetTable(name).None?
      ensures r.value.Failed? ==> r == Rolled(Failed("Failed to roll " + name + ". Data not loaded."), pos)
      ensures !r.value.Failed? ==>
        var rolled := RollDiceForTable(name, tape, pos);
        r.next == rolled.next &&
        r.value == LookupOutcome(Some(name), name, rolled.value.value, SkillMissing(name, rolled.value.value))
    {
      var rolled := RollDiceForTable(name, tape, pos);
      match rolled.value
      case None => Rolled(Failed("Failed to roll " + name + ". Data not loaded."), pos)
      case Some(roll) => Rolled(LookupOutcome(Some(name), name, roll, SkillMissing(name, roll)), rolled.next)
    }

    /** `testRoll(rollValue)`: `None` when the value does not parse; otherwise the
        advancement lookup of that roll, with no die rolled. */
    function TestRoll(rollValue: string): (r: Option<XpOutcome>)
      reads this
      ensures r.None? <==> ParseInt(rollValue).None?
      ensures r.Some? ==> !r.value.Failed? && r.value == LookupOutcome(None, AdvancementsTable,
        Finite(ParseInt(rollValue).value), "No result found for this roll.")
    {
      match ParseInt(rollValue)
      case None => None
      case Some(roll) => Some(LookupOutcome(None, AdvancementsTable, Finite(roll), "No result found for this roll."))
    }

    /** `testSkillTable(name, rollValue)`: an error for a missing table; with a value,
        `None` when it does not parse and otherwise the lookup of that roll with no die
        rolled; without a value, `rollSkillTable(name)`. */
    function TestSkillTable(name: string, rollValue: Option<string>, tape: Tape, pos: nat): (r: Option<Rolled<XpOutcome>>)
      reads this
      ensures GetTable(name).None? ==> r == Some(Rolled(Failed("Table not found: " + name), pos))
      ensures GetTable(name).Some? && rollValue.Some? ==>
        (r.None? <==> ParseInt(rollValue.value).None?) &&
        (r.Some? ==> var roll := Finite(ParseInt(rollValue.value).value);
          r.value == Rolled(LookupOutcome(Some(name), name, roll, SkillMissing(name, roll)), pos) &&
          !r.value.value.Failed?)
      ensures GetTable(name).Some? && rollValue.None? ==> r == Some(RollSkillTable(name, tape, pos))
    {
      if GetTable(name).None? then Some(Rolled(Failed("Table not found: " + name), pos))
      else if rollValue.Some? then
        match ParseInt(rollValue.value)
        case None => None
        case Some(roll) =>
          Some(Rolled(LookupOutcome(Some(name), name, Finite(roll), SkillMissing(name, Finite(roll))), pos))
      else Some(RollSkillTable(name, tape, pos))
    }

    /** `getSkillTables()`: no tables without data. */
    function GetSkillTables(): (r: seq<SkillTable>)
      reads this
      ensures xpData.None? ==> r == []
      ensures xpData.Some? ==> r == SkillTablesOf(xpData.value)
    {
      if xpData.None? then [] else SkillTablesOf(xpData.value)
    }
  }
}
