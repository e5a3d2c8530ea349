/** The loot-box resolver (`_site/assets/js/lootBoxEngine.js`): roll a table's die, find
    the first outcome containing the roll, then classify its random effect as a reroll,
    a pending nested table or an unknown value. Nested tables reroll until an outcome
    without a reroll effect comes up, at most 100 times. */
module LootBoxEngine {
  import opened Common
  import opened JsText
  import opened Dice
  import opened RangeMatch

  /** A loot table: its die (`sides`, 0 when absent) and its outcomes keyed by id. An
      absent `results` object has no entries. */
  datatype LootTable = LootTable(sides: int, results: seq<(string, Row)>)

  /** What `processRandomEffect` makes of an effect, plus the `nested_table` record
      `testRoll` puts in place of a pending roll it resolves. */
  datatype Effect =
    | Reroll
    | PendingRoll(tableName: string, tableData: LootTable)
    | Unknown(value: string)
    | NestedTable(nestedTable: Option<string>, nestedRoll: Option<int>, nestedResult: Option<Row>,
                  nestedEffect: Option<Effect>)

  /** The result of `processIncome`. */
  datatype IncomeOutcome = IncomeOutcome(schema: string, roll: int, sides: nat, multiplier: int, amount: int)

  /** One rerolled outcome in a nested table's history. */
  datatype RerollEntry = RerollEntry(roll: int, name: string)

  /** What rolling one table returns: a roll that failed, a roll without an outcome, too
      many rerolls, a missing table (only `testNestedTable` reports it) or the outcome. */
  datatype TableOutcome =
    | RollFailed(tableName: string)
    | NoResultFor(roll: int)
    | TooManyRerolls
    | TableNotFound(tableName: string)
    | TableRoll(tableName: string, roll: int, result: Row, randomEffect: Option<Effect>,
                rerollHistory: Option<seq<RerollEntry>>)

  /** One pass of the nested-table loop: it stops with an error, records a reroll, or
      lands on an outcome. */
  datatype Step =
    | Stop(outcome: TableOutcome)
    | Again(entry: RerollEntry)
    | Land(roll: int, row: Row, effect: Option<Effect>)

  /** What opening the loot box (or testing a roll on it) returns. */
  datatype LootOutcome =
    | OpenFailed
    | NoLoot(roll: int)
    | Loot(roll: int, result: Row, incomeResult: Option<IncomeOutcome>, randomEffect: Option<Effect>)

  /** The most rerolls a nested table may take. */
  const MaxRerolls := 100

  /** `processIncome(incomeRule)` reading the tape at `pos`: no record for a missing rule,
      a roll of 0 (and no die) without `sides`, and `amount = roll * (multiplier || 1)`. */
  function ProcessIncome(rule: Option<RowIncome>, tape: Tape, pos: nat): (r: Rolled<Option<IncomeOutcome>>)
    ensures rule.None? <==> r.value.None?
    ensures rule.Some? ==> var o := r.value.value;
      o.schema == rule.value.schema && o.sides == rule.value.sides &&
      o.multiplier == rule.value.multiplier &&
      (rule.value.sides == 0 ==> o.roll == 0 && r.next == pos) &&
      (rule.value.sides > 0 ==> 1 <= o.roll <= rule.value.sides && r.next == pos + 1) &&
      o.amount == o.roll * (if rule.value.multiplier != 0 then rule.value.multiplier else 1)
    ensures rule.None? ==> r.next == pos
  {
    match rule
    case None => Rolled(None, pos)
    case Some(inc) =>
      var roll := if inc.sides != 0 then D(tape, pos, inc.sides) else 0;
      var amount := roll * (if inc.multiplier != 0 then inc.multiplier else 1);
      Rolled(Some(IncomeOutcome(inc.schema, roll, inc.sides, inc.multiplier, amount)),
             if inc.sides != 0 then pos + 1 else pos)
  }

  class LootBox {
    /** The loaded tables, keyed by name; `None` before any data is loaded. */
    var lootData: Option<seq<(string, LootTable)>>

    constructor()
      ensures lootData == None
    {
      lootData := None;
    }

    /** `loadLootData(data)` */
    method LoadLootData(data: seq<(string, LootTable)>)
      modifies this
      ensures lootData == Some(data)
    {
      lootData := Some(data);
    }

    /** `getTable(tableName)`: the named table, or `None` when no data is loaded or the
        table is missing. */
    function GetTable(name: string): (r: Option<LootTable>)
      reads this
      ensures lootData.None? ==> r.None?
      ensures lootData.Some? ==> r == Lookup(lootData.value, name)
    {
      if lootData.None? then None else Lookup(lootData.value, name)
    }

    /** Tape positions one roll of the named table reads. */
    function TableWidth(name: string): nat
      reads this
    {
      if GetTable(name).Some? && GetTable(name).value.sides == 66 then 2 else 1
    }

    /** `rollDiceForTable(tableName)`: a d66 for 66 sides, a d6 for 6, a d3 for 3, and no
        roll (and no die) for a missing table or any other number of sides. */
    function RollDiceForTable(name: string, tape: Tape, pos: nat): (r: Rolled<Option<int>>)
      reads this
      ensures r.value.None? <==> GetTable(name).None? || GetTable(name).value.sides !in {66, 6, 3}
      ensures r.value.None? ==> r.next == pos
      ensures r.value.Some? ==> r.next == pos + TableWidth(name)
      ensures r.value.Some? && GetTable(name).value.sides == 66 ==>
                11 <= r.value.value <= 66 && 1 <= r.value.value / 10 <= 6 && 1 <= r.value.value % 10 <= 6
      ensures r.value.Some? && GetTable(name).value.sides == 6 ==> 1 <= r.value.value <= 6
      ensures r.value.Some? && GetTable(name).value.sides == 3 ==> 1 <= r.value.value <= 3
    {
      match GetTable(name)
      case None => Rolled(None, pos)
      case Some(table) =>
        if table.sides == 66 then Rolled(Some(D66(tape, pos)), pos + 2)
        else if table.sides == 6 then Rolled(Some(D6(tape, pos)), pos + 1)
        else if table.sides == 3 then Rolled(Some(D(tape, pos, 3)), pos + 1)
        else Rolled(None, pos)
    }

    /** `findResult(tableName, roll)`: the first declared outcome containing the roll,
        tagged with its id, or `None` when the table is missing or nothing matches. */
    function FindResult(name: string, roll: int): (r: Option<Row>)
      reads this
      ensures GetTable(name).None? ==> r.None?
      ensures GetTable(name).Some? ==> r == FindInEntries(Some(roll), GetTable(name).value.results)
    {
      match GetTable(name)
      case None => None
      case Some(table) => FindInEntries(Some(roll), table.results)
    }

    /** `processRandomEffect(randomeffect)`: nothing for an empty effect, a reroll for
        `reroll` (even when a table has that name), a pending roll for the name of a loaded
        table, and `unknown` for anything else. Looking a table up needs loaded data. */
    function ProcessRandomEffect(effect: string): (r: Option<Effect>)
      reads this
      requires effect == "" || effect == "reroll" || lootData.Some?
      ensures r.None? <==> effect == ""
      ensures r == Some(Reroll) <==> effect == "reroll"
      ensures effect != "" && effect != "reroll" && GetTable(effect).Some? ==>
                r == Some(PendingRoll(effect, GetTable(effect).value))
      ensures effect != "" && effect != "reroll" && GetTable(effect).None? ==> r == Some(Unknown(effect))
    {
      if effect == "" then None
      else if effect == "reroll" then Some(Reroll)
      else match Lookup(lootData.value, effect)
        case Some(table) => Some(PendingRoll(effect, table))
        case None => Some(Unknown(effect))
    }

    /** One pass of the do-while loop of `rollNestedTable(tableName)` reading the tape at
        `pos`: a roll that failed or found nothing stops the loop, an outcome whose effect
        is a reroll is recorded and rolled again, any other outcome lands. */
    function NestedStep(name: string, tape: Tape, pos: nat): (r: Rolled<Step>)
      reads this
      ensures r.value.Stop? ==> r.value.outcome.RollFailed? || r.value.outcome.NoResultFor?
      ensures r.value.Again? ==> r.next == pos + TableWidth(name)
      ensures r.value.Land? ==> r.value.effect != Some(Reroll)
    {
      var rolled := RollDiceForTable(name, tape, pos);
      match rolled.value
      case None => Rolled(Stop(RollFailed(name)), rolled.next)
      case Some(roll) =>
        match FindResult(name, roll)
        case None => Rolled(Stop(NoResultFor(roll)), rolled.next)
        case Some(row) =>
          var effect := ProcessRandomEffect(row.randomEffect);
          if effect == Some(Reroll) then Rolled(Again(RerollEntry(roll, row.name)), rolled.next)
          else Rolled(Land(roll, row, effect), rolled.next)
    }

    /** What a pass read: a reroll records the roll and the outcome's name, a landing
        keeps the roll, the outcome found for it and that outcome's effect. */
    lemma NestedStepReads(name: string, tape: Tape, pos: nat)
      ensures var r := NestedStep(name, tape, pos);
        r.value.Again? ==>
          var rolled := RollDiceForTable(name, tape, pos);
          rolled.value == Some(r.value.entry.roll) && r.next == rolled.next &&
          FindResult(name, r.value.entry.roll).Some? &&
          FindResult(name, r.value.entry.roll).value.name == r.value.entry.name &&
          FindResult(name, r.value.entry.roll).value.randomEffect == "reroll"
      ensures var r := NestedStep(name, tape, pos);
        r.value.Land? ==>
          RollDiceForTable(name, tape, pos).value == Some(r.value.roll) &&
          FindResult(name, r.value.roll) == Some(r.value.row) &&
          r.value.effect == ProcessRandomEffect(r.value.row.randomEffect)
    {
    }

    /** The rest of the loop once `attempts` rerolls, recorded in `history`, have been made
        and the next roll reads `pos`. */
    function NestedFrom(name: string, tape: Tape, pos: nat, attempts: nat, history: seq<RerollEntry>)
      : Rolled<TableOutcome>
      reads this
      requires attempts < MaxRerolls
      decreases MaxRerolls - attempts
    {
      var step := NestedStep(name, tape, pos);
      match step.value
      case Stop(outcome) => Rolled(outcome, step.next)
      case Again(entry) =>
        if attempts + 1 >= MaxRerolls then Rolled(TooManyRerolls, step.next)
        else NestedFrom(name, tape, step.next, attempts + 1, history + [entry])
      case Land(roll, row, effect) =>
        Rolled(TableRoll(name, roll, row, effect, if |history| > 0 then Some(history) else None), step.next)
    }

    /** `rollNestedTable(tableName)`: roll, look up, and roll again while the outcome's
        effect is a reroll, giving up after `MaxRerolls` rerolls. */
    method RollNestedTable(name: string, tape: Tape, pos: nat) returns (r: TableOutcome, next: nat)
      ensures Rolled(r, next) == NestedFrom(name, tape, pos, 0, [])
    {
      var attempts := 0;
      var history: seq<RerollEntry> := [];
      next := pos;
      while true
        invariant attempts < MaxRerolls
        invariant NestedFrom(name, tape, next, attempts, history) == NestedFrom(name, tape, pos, 0, [])
        decreases MaxRerolls - attempts
      {
        var rolled := RollDiceForTable(name, tape, next);
        if rolled.value.None? {
          return RollFailed(name), rolled.next;
        }
        var roll := rolled.value.value;
        var result := FindResult(name, roll);
        if result.None? {
          return NoResultFor(roll), rolled.next;
        }
        var effect := ProcessRandomEffect(result.value.randomEffect);
        if effect == Some(Reroll) {
          history := history + [RerollEntry(roll, result.value.name)];
          attempts := attempts + 1;
          if attempts >= MaxRerolls {
            return TooManyRerolls, rolled.next;
          }
          next := rolled.next;
        } else {
          return TableRoll(name, roll, result.value, effect, if |history| > 0 then Some(history) else None),
                 rolled.next;
        }
      }
    }

    /** A nested roll that succeeds never ends on a reroll effect, and its history is
        `None` rather than empty and holds fewer than `MaxRerolls` entries. */
    lemma {:induction false} NestedNeverEndsOnReroll(name: string, tape: Tape, pos: nat, attempts: nat,
                                                     history: seq<RerollEntry>)
      requires attempts < MaxRerolls && |history| == attempts
      ensures var o := NestedFrom(name, tape, pos, attempts, history).value;
        o.TableRoll? ==> (o.randomEffect != Some(Reroll) &&
                          (o.rerollHistory.None? || 0 < |o.rerollHistory.value| < MaxRerolls) &&
                          (o.rerollHistory.None? ==> |history| == 0))
      decreases MaxRerolls - attempts
    {
      var step := NestedStep(name, tape, pos);
      match step.value
      case Stop(outcome) =>
        assert NestedFrom(name, tape, pos, attempts, history).value == outcome;
      case Land(roll, row, effect) =>
        assert NestedFrom(name, tape, pos, attempts, history).value ==
               TableRoll(name, roll, row, effect, if |history| > 0 then Some(history) else None);
      case Again(entry) =>
        if attempts + 1 < MaxRerolls {
          assert NestedFrom(name, tape, pos, attempts, history) ==
                 NestedFrom(name, tape, step.next, attempts + 1, history + [entry]);
          NestedNeverEndsOnReroll(name, tape, step.next, attempts + 1, history + [entry]);
        }
    }

    /** The tape position roll number `k` of the named table reads, counting from `base`:
        `base + k * TableWidth(name)`, one roll's width per roll. */
    function RollPos(name: string, base: nat, k: nat): nat
      reads this
      decreases k
    {
      if k == 0 then base else RollPos(name, base, k - 1) + TableWidth(name)
    }

    /** Every loop pass that rolls reads exactly one roll's worth of the tape. */
    lemma StepWidth(name: string, tape: Tape, base: nat, k: nat)
      ensures NestedStep(name, tape, RollPos(name, base, k)).value.Again? ==>
                NestedStep(name, tape, RollPos(name, base, k)).next == RollPos(name, base, k + 1)
    {
    }

    /** `rerollHistory` lists every rerolled roll and outcome name in roll order: entry `k`
        is what the `k`-th pass of the loop rolled and found. */
    lemma {:induction false} RerollHistoryInOrder(name: string, tape: Tape, base: nat, attempts: nat,
                                                  history: seq<RerollEntry>)
      requires attempts < MaxRerolls && |history| == attempts
      requires forall k :: 0 <= k < |history| ==>
                 NestedStep(name, tape, RollPos(name, base, k)).value == Again(history[k])
      ensures var o := NestedFrom(name, tape, RollPos(name, base, attempts), attempts, history).value;
        o.TableRoll? && o.rerollHistory.Some? ==>
          forall k :: 0 <= k < |o.rerollHistory.value| ==>
            NestedStep(name, tape, RollPos(name, base, k)).value == Again(o.rerollHistory.value[k])
      decreases MaxRerolls - attempts
    {
      var pos := RollPos(name, base, attempts);
      var step := NestedStep(name, tape, pos);
      match step.value
      case Stop(outcome) =>
        assert NestedFrom(name, tape, pos, attempts, history).value == outcome;
      case Land(roll, row, effect) =>
        assert NestedFrom(name, tape, pos, attempts, history).value ==
               TableRoll(name, roll, row, effect, if |history| > 0 then Some(history) else None);
      case Again(entry) =>
        if attempts + 1 < MaxRerolls {
          var h := history + [entry];
          StepWidth(name, tape, base, attempts);
          HistoryGrows(name, tape, base, history, entry);
          assert NestedFrom(name, tape, pos, attempts, history) ==
                 NestedFrom(name, tape, RollPos(name, base, attempts + 1), attempts + 1, h);
          RerollHistoryInOrder(name, tape, base, attempts + 1, h);
        }
    }

    /** Recording the reroll read at roll number `|history|` keeps every entry matched to
        the pass that rolled it. */
    lemma HistoryGrows(name: string, tape: Tape, base: nat, history: seq<RerollEntry>, entry: RerollEntry)
      requires forall k :: 0 <= k < |history| ==>
                 NestedStep(name, tape, RollPos(name, base, k)).value == Again(history[k])
      requires NestedStep(name, tape, RollPos(name, base, |history|)).value == Again(entry)
      ensures forall k :: 0 <= k < |history + [entry]| ==>
                NestedStep(name, tape, RollPos(name, base, k)).value == Again((history + [entry])[k])
    {
      var h := history + [entry];
      forall k | 0 <= k < |h|
        ensures NestedStep(name, tape, RollPos(name, base, k)).value == Again(h[k])
      {
        if k < |history| {
          assert h[k] == history[k];
        } else {
          assert k == |history|;
          assert h[k] == entry;
        }
      }
    }

    /** A table on which every roll lands on a reroll outcome gives up with "too many
        rerolls" after exactly `MaxRerolls` rolls: the loop always ends. */
    lemma {:induction false} AllRerollsGiveUp(name: string, tape: Tape, base: nat, attempts: nat,
                                              history: seq<RerollEntry>)
      requires attempts < MaxRerolls
      requires forall k :: attempts <= k < MaxRerolls ==> NestedStep(name, tape, RollPos(name, base, k)).value.Again?
      ensures NestedFrom(name, tape, RollPos(name, base, attempts), attempts, history) ==
              Rolled(TooManyRerolls, RollPos(name, base, MaxRerolls))
      decreases MaxRerolls - attempts
    {
      var step := NestedStep(name, tape, RollPos(name, base, attempts));
      StepWidth(name, tape, base, attempts);
      if attempts + 1 < MaxRerolls {
        AllRerollsGiveUp(name, tape, base, attempts + 1, history + [step.value.entry]);
      }
    }

    /** `rollTable(tableName)`: one roll and lookup, no reroll loop and no history. */
    function RollTable(name: string, tape: Tape, pos: nat): (r: Rolled<TableOutcome>)
      reads this
      ensures r.value.RollFailed? <==> RollDiceForTable(name, tape, pos).value.None?
      ensures r.value.NoResultFor? || r.value.TableRoll? ==>
                var roll := RollDiceForTable(name, tape, pos).value;
                roll.Some? && r.value.roll == roll.value &&
                (r.value.TableRoll? <==> FindResult(name, roll.value).Some?)
      ensures r.value.TableRoll? ==> r.value.result == FindResult(name, r.value.roll).value
      ensures r.value.TableRoll? ==> r.value.rerollHistory.None?
      ensures r.value.TableRoll? ==> r.value.randomEffect == ProcessRandomEffect(r.value.result.randomEffect)
      ensures !r.value.TooManyRerolls? && !r.value.TableNotFound?
    {
      var rolled := RollDiceForTable(name, tape, pos);
      match rolled.value
      case None => Rolled(RollFailed(name), rolled.next)
      case Some(roll) =>
        match FindResult(name, roll)
        case None => Rolled(NoResultFor(roll), rolled.next)
        case Some(row) =>
          Rolled(TableRoll(name, roll, row, ProcessRandomEffect(row.randomEffect), None), rolled.next)
    }

    /** The outcome of a roll already made on `loot_box_roll`: no loot when nothing
        matches, otherwise the outcome with its income and effect processed. */
    function LootFor(roll: int, tape: Tape, pos: nat): (r: Rolled<LootOutcome>)
      reads this
      ensures r.value.NoLoot? <==> FindResult("loot_box_roll", roll).None?
      ensures !r.value.OpenFailed? && r.value.roll == roll
      ensures r.value.Loot? ==>
        r.value.result == FindResult("loot_box_roll", roll).value &&
        (r.value.incomeResult.Some? <==> r.value.result.income.Some?) &&
        r.value.randomEffect == ProcessRandomEffect(r.value.result.randomEffect)
      ensures r.value.Loot? ==> Rolled(r.value.incomeResult, r.next) == ProcessIncome(r.value.result.income, tape, pos)
      ensures r.value.NoLoot? ==> r.next == pos
    {
      match FindResult("loot_box_roll", roll)
      case None => Rolled(NoLoot(roll), pos)
      case Some(row) =>
        var income := ProcessIncome(row.income, tape, pos);
        Rolled(Loot(roll, row, income.value, ProcessRandomEffect(row.randomEffect)), income.next)
    }

    /** `openLootBox()`: roll the `loot_box_roll` table and resolve what it lands on. */
    function OpenLootBox(tape: Tape, pos: nat): (r: Rolled<LootOutcome>)
      reads this
      ensures r.value.OpenFailed? <==> RollDiceForTable("loot_box_roll", tape, pos).value.None?
      ensures !r.value.OpenFailed? ==>
        var rolled := RollDiceForTable("loot_box_roll", tape, pos);
        r == LootFor(rolled.value.value, tape, rolled.next)
    {
      var rolled := RollDiceForTable("loot_box_roll", tape, pos);
      match rolled.value
      case None => Rolled(OpenFailed, rolled.next)
      case Some(roll) => LootFor(roll, tape, rolled.next)
    }

    /** The `nested_table` record `testRoll` builds from what `rollNestedTable` returned;
        fields an error result lacks are absent. */
    static function AsNestedEffect(o: TableOutcome): (r: Effect)
      ensures r.NestedTable?
      ensures o.TableRoll? ==> r == NestedTable(Some(o.tableName), Some(o.roll), Some(o.result), o.randomEffect)
      ensures !o.TableRoll? ==> r.nestedTable.None? && r.nestedResult.None? && r.nestedEffect.None?
      ensures o.NoResultFor? ==> r.nestedRoll == Some(o.roll)
    {
      match o
      case TableRoll(name, roll, row, effect, _) => NestedTable(Some(name), Some(roll), Some(row), effect)
      case NoResultFor(roll) => NestedTable(None, Some(roll), None, None)
      case _ => NestedTable(None, None, None, None)
    }

    /** Whether `testRoll` resolves the outcome's effect as a nested table. */
    static predicate ResolvesNested(o: LootOutcome, autoResolve: bool) {
      autoResolve && o.Loot? && o.randomEffect.Some? && o.randomEffect.value.PendingRoll?
    }

    /** `testRoll(rollValue, autoResolveNested)`: `None` when the value does not parse;
        otherwise the loot for that roll with no die rolled for the lookup, and a pending
        nested table resolved on the spot when asked. */
    method TestRoll(rollValue: string, autoResolve: bool, tape: Tape, pos: nat)
      returns (r: Option<LootOutcome>, next: nat)
      ensures r.None? <==> ParseInt(rollValue).None?
      ensures r.None? ==> next == pos
      ensures r.Some? ==> !r.value.OpenFailed? && r.value.roll == ParseInt(rollValue).value
      ensures r.Some? && !ResolvesNested(LootFor(ParseInt(rollValue).value, tape, pos).value, autoResolve) ==>
                Rolled(r.value, next) == LootFor(ParseInt(rollValue).value, tape, pos)
      ensures r.Some? && ResolvesNested(LootFor(ParseInt(rollValue).value, tape, pos).value, autoResolve) ==>
                var lookup := LootFor(ParseInt(rollValue).value, tape, pos);
                var nested := NestedFrom(lookup.value.randomEffect.value.tableName, tape, lookup.next, 0, []);
                r.value == lookup.value.(randomEffect := Some(AsNestedEffect(nested.value))) &&
                next == nested.next
    {
      var parsed := ParseInt(rollValue);
      if parsed.None? {
        return None, pos;
      }
      var lookup := LootFor(parsed.value, tape, pos);
      next := lookup.next;
      var outcome := lookup.value;
      if ResolvesNested(outcome, autoResolve) {
        var nested, after := RollNestedTable(outcome.randomEffect.value.tableName, tape, next);
        outcome := outcome.(randomEffect := Some(AsNestedEffect(nested)));
        next := after;
      }
      r := Some(outcome);
    }

    /** `testNestedTable(tableName, rollValue)`: an error for a missing table; for a given
        value, `None` when it does not parse and otherwise one lookup with no die and no
        reroll; without a value, the full reroll loop. */
    method TestNestedTable(name: string, rollValue: Option<string>, tape: Tape, pos: nat)
      returns (r: Option<TableOutcome>, next: nat)
      ensures GetTable(name).None? ==> r == Some(TableNotFound(name)) && next == pos
      ensures GetTable(name).Some? && rollValue.Some? ==> next == pos
      ensures GetTable(name).Some? && rollValue.Some? ==>
        match ParseInt(rollValue.value)
        case None => r.None?
        case Some(roll) =>
          match FindResult(name, roll)
          case None => r == Some(NoResultFor(roll))
          case Some(row) => r == Some(TableRoll(name, roll, row, ProcessRandomEffect(row.randomEffect), None))
      ensures GetTable(name).Some? && rollValue.None? ==>
        r.Some? && Rolled(r.value, next) == NestedFrom(name, tape, pos, 0, [])
    {
      if GetTable(name).None? {
        return Some(TableNotFound(name)), pos;
      }
      if rollValue.Some? {
        var parsed := ParseInt(rollValue.value);
        if parsed.None? {
          return None, pos;
        }
        var result := FindResult(name, parsed.value);
        if result.None? {
          return Some(NoResultFor(parsed.value)), pos;
        }
        return Some(TableRoll(name, parsed.value, result.value, ProcessRandomEffect(result.value.randomEffect), None)), pos;
      }
      var outcome;
      outcome, next := RollNestedTable(name, tape, pos);
      r := Some(outcome);
    }
  }
}
