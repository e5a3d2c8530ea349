/** The lasting-injuries resolver (`_site/assets/js/lastingInjuriesEngine.js`). The engine
    holds the loaded tables and the current mode; an injury roll uses the current mode's
    table, a multiple-injuries effect rolls further injuries, and the rogue doc rolls a
    treatment outcome that may call for a stabilised injury from the standard table.
    The engine's queries are functions of a snapshot `Engine` of its two fields; the
    class `LastingInjuries` holds the fields and the methods that change them or loop. */
module LastingInjuriesEngine {
  import opened Common
  import opened JsText
  import opened Dice
  import opened RangeMatch

  /** The rogue doc's cost dice: `count` dice of `sides` sides, times `multiplier`, plus
      `addition`. */
  datatype CostConfig = CostConfig(count: int, sides: int, multiplier: int, addition: int)

  /** One mode's table: its die (`None` when `sides` is absent), its outcomes by id and,
      for the rogue doc, its cost dice. An absent `results` object is taken as no entries:
      `findInjury` guards it that way, while `findOutcome` would throw on it. */
  datatype ModeData = ModeData(sides: Option<int>, results: seq<(string, Row)>, cost: Option<CostConfig>)

  /** One extra injury of a multiple-injuries effect; the roll is `None` when no die
      could be rolled. */
  datatype MultiInjury = MultiInjury(roll: Option<int>, injury: Row)

  /** What `processRandomEffects` returns: the d3 it rolled, if any, and the extra
      injuries it resolved, if any. */
  datatype RandomEffects = RandomEffects(randomRoll: Option<int>, additionalInjuries: Option<seq<MultiInjury>>)

  /** A resolved injury; a roll of `None` is the `'Error'` roll of a failed die. */
  datatype InjuryReport = InjuryReport(roll: Option<int>, injury: Row, randomRoll: Option<int>,
                                       additionalInjuries: Option<seq<MultiInjury>>)

  /** What `resolveStabilisedInjury` returns when it finds an injury. */
  datatype Stabilised = Stabilised(roll: int, injury: Row)

  /** The rogue doc's treatment roll as reported: `'Error'` for an unknown mode, NaN when
      the mode has no `sides`, or the value rolled. */
  datatype RogueRoll = RollError | RollNaN | RollValue(n: int)

  /** What `resolveRogueDoc` returns. */
  datatype RogueDocReport = RogueDocReport(cost: Option<int>, roll: RogueRoll, outcome: Row,
                                           stabilisedInjury: Option<InjuryReport>)

  const StandardMode := "standard_lasting_injuries"
  const RogueDocMode := "trading_post_rogue_doc"
  const MaxAttempts := 100

  /** Ids a multiple-injuries effect never adds, and ids a stabilised injury never is. */
  const MultipleExcluded: seq<string> := ["captured", "multiple_injuries", "memorable_death", "critical_injury", "out_cold"]
  const StabilisedExcluded: seq<string> := ["captured", "critical_injury", "memorable_death"]

  /** The placeholder records for a failed die, an unmatched injury roll, an unknown
      rogue-doc mode and an unmatched treatment roll. */
  const ErrorInjury := Row(None, "Error", [], "Failed to roll dice. Data not loaded.", "", "", None)
  const UnknownInjury := Row(None, "Unknown", [], "No injury found for this roll.", "", "", None)
  const InvalidModeOutcome := Row(None, "Error", [], "Invalid rogue doc mode", "", "grey", None)
  const UnknownOutcome := Row(None, "Unknown", [], "No outcome found for this roll.", "", "grey", None)

  /** `excludedIds.includes(injury.id)` */
  predicate Excluded(injury: Row, ids: seq<string>) {
    injury.id.Some? && injury.id.value in ids
  }

  /** `findOutcome(roll, results)`: the first declared outcome containing the roll; a NaN
      roll matches nothing. */
  function FindOutcome(roll: RogueRoll, results: seq<(string, Row)>): (r: Option<Row>)
    ensures !roll.RollValue? ==> r.None?
    ensures roll.RollValue? ==> r == FindInEntries(Some(roll.n), results)
  {
    if roll.RollValue? then FindInEntries(Some(roll.n), results) else None
  }

  /** The sum of `count` dice of `sides` sides read from `pos`: the rogue doc's cost loop. */
  function CostDice(tape: Tape, pos: nat, count: int, sides: int): int {
    Sum(RollsFrom(tape, pos, count, NoFunc, sides))
  }

  /** The dice total of the cost lies between the number of dice and that number times
      the sides; with no dice (a count of zero or below) it is nothing. */
  lemma CostDiceBounds(tape: Tape, pos: nat, count: int, sides: int)
    requires sides >= 1
    ensures var n := if count > 0 then count else 0;
      n <= CostDice(tape, pos, count, sides) <= n * sides
    ensures count <= 0 ==> CostDice(tape, pos, count, sides) == 0
  {
    var rolls := RollsFrom(tape, pos, count, NoFunc, sides);
    RollsInRange(tape, pos, count, NoFunc, sides);
    assert forall i :: 0 <= i < |rolls| ==> 1 <= rolls[i] <= sides by {
      forall i | 0 <= i < |rolls| ensures 1 <= rolls[i] <= sides {
        assert rolls[i] in rolls;
      }
    }
    SumBounds(rolls, sides);
  }

  /** One more cost die adds its face to the sum. */
  lemma CostDiceStep(tape: Tape, pos: nat, i: nat, sides: int)
    ensures CostDice(tape, pos, i + 1, sides) == CostDice(tape, pos, i, sides) + D(tape, pos + i, sides)
  {
    var prev := RollsFrom(tape, pos, i, NoFunc, sides);
    var s := RollsFrom(tape, pos, i + 1, NoFunc, sides);
    assert s == prev + [Draw(tape, pos + Width(NoFunc) * i, NoFunc, sides)];
    assert s[..|s| - 1] == prev;
  }

  /** The loaded tables by mode; `None` before any data is loaded. */
  type Tables = Option<seq<(string, ModeData)>>

  /** The engine's state: the loaded tables and the current mode. */
  datatype Engine = Engine(injuriesData: Tables, currentMode: string)

  /** The table of a mode, or `None` when no data is loaded or the mode is missing. */
  function ModeIn(data: Tables, mode: string): (r: Option<ModeData>)
    ensures data.None? ==> r.None?
    ensures data.Some? && r.None? ==> forall i :: 0 <= i < |data.value| ==> data.value[i].0 != mode
    ensures r.Some? ==> (data.Some? && exists i :: 0 <= i < |data.value| && data.value[i] == (mode, r.value))
  {
    if data.None? then None else Lookup(data.value, mode)
  }

  /** `getCurrentModeData()` */
  function GetCurrentModeData(e: Engine): (r: Option<ModeData>)
    ensures r.Some? ==> (e.injuriesData.Some? &&
      exists i :: 0 <= i < |e.injuriesData.value| && e.injuriesData.value[i] == (e.currentMode, r.value))
    ensures r.None? ==> (e.injuriesData.None? ||
      forall i :: 0 <= i < |e.injuriesData.value| ==> e.injuriesData.value[i].0 != e.currentMode)
  {
    ModeIn(e.injuriesData, e.currentMode)
  }

  /** `rollDice()`: a d66 for a 66-sided table, a d6 for a 6-sided one, and no roll (and
      no die) otherwise. */
  function RollDice(e: Engine, tape: Tape, pos: nat): (r: Rolled<Option<int>>)
    ensures r.value.Some? <==> GetCurrentModeData(e).Some? && GetCurrentModeData(e).value.sides in {Some(66), Some(6)}
    ensures r.value.Some? && GetCurrentModeData(e).value.sides == Some(66) ==>
              r.value.value == D66(tape, pos) && r.next == pos + 2
    ensures r.value.Some? && GetCurrentModeData(e).value.sides == Some(6) ==>
              r.value.value == D6(tape, pos) && r.next == pos + 1
    ensures r.value.None? ==> r.next == pos
  {
    match GetCurrentModeData(e)
    case None => Rolled(None, pos)
    case Some(table) =>
      if table.sides == Some(66) then Rolled(Some(D66(tape, pos)), pos + 2)
      else if table.sides == Some(6) then Rolled(Some(D6(tape, pos)), pos + 1)
      else Rolled(None, pos)
  }

  /** `findInjury(roll)`: the first declared injury of the current mode's table containing
      the roll, tagged with its id; `None` without a table. */
  function FindInjury(e: Engine, roll: Option<int>): (r: Option<Row>)
    ensures GetCurrentModeData(e).None? ==> r.None?
    ensures GetCurrentModeData(e).Some? ==> r == FindInEntries(roll, GetCurrentModeData(e).value.results)
    ensures r.Some? ==> r.value.id.Some?
  {
    match GetCurrentModeData(e)
    case None => None
    case Some(table) => FindInEntries(roll, table.results)
  }

  /** One attempt of `resolveMultipleInjuries(count)`: roll the current table and keep
      the injury found unless its id is excluded. */
  function MultipleStep(e: Engine, tape: Tape, pos: nat, found: seq<MultiInjury>): (r: Rolled<seq<MultiInjury>>)
    ensures |found| <= |r.value| <= |found| + 1 && r.value[..|found|] == found
    ensures |r.value| == |found| + 1 ==>
      !Excluded(r.value[|found|].injury, MultipleExcluded) &&
      FindInjury(e, r.value[|found|].roll) == Some(r.value[|found|].injury)
    ensures pos <= r.next <= pos + 2
  {
    var rolled := RollDice(e, tape, pos);
    var injury := FindInjury(e, rolled.value);
    if injury.Some? && !Excluded(injury.value, MultipleExcluded)
    then Rolled(found + [MultiInjury(rolled.value, injury.value)], rolled.next)
    else Rolled(found, rolled.next)
  }

  /** The loop of `resolveMultipleInjuries(count)` after `attempts` attempts that kept the
      injuries in `found`: it goes on while fewer than `count` injuries are kept and
      fewer than `MaxAttempts` attempts were made. */
  function MultipleFrom(e: Engine, count: int, tape: Tape, pos: nat, attempts: nat, found: seq<MultiInjury>)
    : (r: Rolled<seq<MultiInjury>>)
    requires attempts <= MaxAttempts
    ensures |found| <= |r.value| && r.value[..|found|] == found
    ensures |r.value| <= (if |found| > count then |found| else count)
    ensures forall i :: |found| <= i < |r.value| ==> !Excluded(r.value[i].injury, MultipleExcluded)
    ensures pos <= r.next <= pos + 2 * (MaxAttempts - attempts)
    decreases MaxAttempts - attempts
  {
    if |found| < count && attempts < MaxAttempts then
      var step := MultipleStep(e, tape, pos, found);
      var kept := step.value;
      var r := MultipleFrom(e, count, tape, step.next, attempts + 1, kept);
      assert r.value[..|found|] == r.value[..|kept|][..|found|] == kept[..|found|];
      assert |kept| <= count;
      forall i | |found| <= i < |r.value|
        ensures !Excluded(r.value[i].injury, MultipleExcluded)
      {
        if i < |kept| {
          assert i == |found|;
          assert r.value[i] == r.value[..|kept|][i] == kept[i];
        }
      }
      r
    else Rolled(found, pos)
  }

  /** `processRandomEffects(injury)`: a d3 for `d3xpgain`; a d3 and that many further
      injuries for `d3multipleinjuries`; nothing otherwise. */
  function ProcessRandomEffects(e: Engine, injury: Option<Row>, tape: Tape, pos: nat): (r: Rolled<RandomEffects>)
    ensures var effect := if injury.Some? then injury.value.randomEffect else "";
      (effect != "d3xpgain" && effect != "d3multipleinjuries" ==>
        r == Rolled(RandomEffects(None, None), pos)) &&
      (effect == "d3xpgain" ==>
        r == Rolled(RandomEffects(Some(D(tape, pos, 3)), None), pos + 1)) &&
      (effect == "d3multipleinjuries" ==>
        r.value.randomRoll == Some(D(tape, pos, 3)) && r.value.additionalInjuries.Some? &&
        Rolled(r.value.additionalInjuries.value, r.next) == MultipleFrom(e, D(tape, pos, 3), tape, pos + 1, 0, []))
    ensures r.value.randomRoll.Some? ==> 1 <= r.value.randomRoll.value <= 3
    ensures r.value.additionalInjuries.Some? ==>
      r.value.randomRoll.Some? && |r.value.additionalInjuries.value| <= r.value.randomRoll.value
  {
    if injury.None? || injury.value.randomEffect == "" then Rolled(RandomEffects(None, None), pos)
    else if injury.value.randomEffect == "d3xpgain" then Rolled(RandomEffects(Some(D(tape, pos, 3)), None), pos + 1)
    else if injury.value.randomEffect == "d3multipleinjuries" then
      var count := D(tape, pos, 3);
      var extra := MultipleFrom(e, count, tape, pos + 1, 0, []);
      Rolled(RandomEffects(Some(count), Some(extra.value)), extra.next)
    else Rolled(RandomEffects(None, None), pos)
  }

  /** `processInjury(roll)`: the `'Error'` record for a failed die; otherwise the injury
      the roll finds (or the `'Unknown'` placeholder) with its random effects. */
  function ProcessInjury(e: Engine, roll: Option<int>, tape: Tape, pos: nat): (r: Rolled<InjuryReport>)
    ensures roll.None? ==> r == Rolled(InjuryReport(None, ErrorInjury, None, None), pos)
    ensures roll.Some? ==> r.value.roll == roll
    ensures roll.Some? && FindInjury(e, roll).Some? ==> r.value.injury == FindInjury(e, roll).value
    ensures roll.Some? && FindInjury(e, roll).None? ==>
      r.value.injury == UnknownInjury && r.value.randomRoll.None? && r.value.additionalInjuries.None? && r.next == pos
    ensures roll.Some? ==>
      (var effects := ProcessRandomEffects(e, FindInjury(e, roll), tape, pos);
       r.value.randomRoll == effects.value.randomRoll &&
       r.value.additionalInjuries == effects.value.additionalInjuries && r.next == effects.next)
  {
    if roll.None? then Rolled(InjuryReport(None, ErrorInjury, None, None), pos)
    else
      var injury := FindInjury(e, roll);
      var effects := ProcessRandomEffects(e, injury, tape, pos);
      Rolled(InjuryReport(roll, injury.GetOr(UnknownInjury), effects.value.randomRoll,
                          effects.value.additionalInjuries), effects.next)
  }

  /** `resolveInjury()`: roll the current table and process the roll; the result is the
      `'Error'` record exactly when the table has no d6 or d66. */
  function ResolveInjury(e: Engine, tape: Tape, pos: nat): (r: Rolled<InjuryReport>)
    ensures var rolled := RollDice(e, tape, pos); r == ProcessInjury(e, rolled.value, tape, rolled.next)
    ensures r.value.roll.None? <==> RollDice(e, tape, pos).value.None?
    ensures r.value.roll.None? ==> r.value.injury == ErrorInjury
  {
    var rolled := RollDice(e, tape, pos);
    ProcessInjury(e, rolled.value, tape, rolled.next)
  }

  /** `testRoll(rollValue)`: `None` when the value does not parse, otherwise the given
      roll processed without rolling the table's die. */
  function TestRoll(e: Engine, rollValue: string, tape: Tape, pos: nat): (r: Option<Rolled<InjuryReport>>)
    ensures r.None? <==> ParseInt(rollValue).None?
    ensures r.Some? ==> r.value == ProcessInjury(e, ParseInt(rollValue), tape, pos) &&
                        r.value.value.roll == ParseInt(rollValue)
  {
    match ParseInt(rollValue)
    case None => None
    case Some(roll) => Some(ProcessInjury(e, Some(roll), tape, pos))
  }

  /** One attempt of `resolveStabilisedInjury()`: a d66 on the standard table, kept when it
      finds an injury that is not excluded. */
  function StabilisedStep(e: Engine, tape: Tape, pos: nat): Option<Stabilised> {
    var roll := D66(tape, pos);
    var injury := FindInjury(e.(currentMode := StandardMode), Some(roll));
    if injury.Some? && !Excluded(injury.value, StabilisedExcluded) then Some(Stabilised(roll, injury.value))
    else None
  }

  /** An attempt succeeds exactly when its d66 finds a standard-table injury that is not
      excluded, and then keeps that roll and that injury. */
  lemma StabilisedStepSpec(e: Engine, tape: Tape, pos: nat)
    ensures var r := StabilisedStep(e, tape, pos);
      var found := FindInjury(e.(currentMode := StandardMode), Some(D66(tape, pos)));
      (r.Some? <==> found.Some? && !Excluded(found.value, StabilisedExcluded)) &&
      (r.Some? ==> r.value.roll == D66(tape, pos) &&
                   FindInjury(e.(currentMode := StandardMode), Some(r.value.roll)) == Some(r.value.injury))
  {
  }

  /** The loop of `resolveStabilisedInjury()` after `attempts` attempts: the first attempt
      that keeps an injury, or `None` after `MaxAttempts` attempts. The current mode
      plays no part. */
  function StabilisedFrom(e: Engine, tape: Tape, pos: nat, attempts: nat): (r: Rolled<Option<Stabilised>>)
    requires attempts <= MaxAttempts
    ensures r.value.Some? ==> !Excluded(r.value.value.injury, StabilisedExcluded) &&
                              11 <= r.value.value.roll <= 66 &&
                              FindInjury(e.(currentMode := StandardMode), Some(r.value.value.roll)) == Some(r.value.value.injury)
    ensures r.value.None? ==> r.next == pos + 2 * (MaxAttempts - attempts)
    ensures r.next <= pos + 2 * (MaxAttempts - attempts)
    decreases MaxAttempts - attempts
  {
    if attempts < MaxAttempts then
      var step := StabilisedStep(e, tape, pos);
      StabilisedStepSpec(e, tape, pos);
      if step.Some? then Rolled(step, pos + 2) else StabilisedFrom(e, tape, pos + 2, attempts + 1)
    else Rolled(None, pos)
  }


  /** A loop that tries `step` at `pos`, `pos + 2`, ... for at most `left` attempts and
      stops at the first one that gives a value. */
  function FirstSuccess(step: nat -> Option<Stabilised>, pos: nat, left: nat): Rolled<Option<Stabilised>>
    decreases left
  {
    if left == 0 then Rolled(None, pos)
    else if step(pos).Some? then Rolled(step(pos), pos + 2)
    else FirstSuccess(step, pos + 2, left - 1)
  }

  /** Attempt `k` of `FirstSuccess` from `pos`. */
  function StepAt(step: nat -> Option<Stabilised>, pos: nat, k: nat): Option<Stabilised> {
    step(pos + 2 * k)
  }

  /** The attempts of the stabilised-injury loop, by tape position. */
  function Attempts(e: Engine, tape: Tape): nat -> Option<Stabilised> {
    (p: nat) => StabilisedStep(e, tape, p)
  }

  /** The number `k` of failed attempts before `FirstSuccess` stops: every attempt before
      `k` failed; a value found is attempt `k`'s, and the loop stops just past it; when
      nothing is found, all `left` attempts failed. */
  lemma {:induction false} FailedAttempts(step: nat -> Option<Stabilised>, pos: nat, left: nat) returns (k: nat)
    ensures forall j :: 0 <= j < k ==> StepAt(step, pos, j).None?
    ensures var r := FirstSuccess(step, pos, left);
      r.value.Some? ==> k < left && r.value == StepAt(step, pos, k) && r.next == pos + 2 * (k + 1)
    ensures FirstSuccess(step, pos, left).value.None? ==> k == left
    decreases left
  {
    if left == 0 || step(pos).Some? {
      k := 0;
      assert StepAt(step, pos, 0) == step(pos);
    } else {
      var rest := FailedAttempts(step, pos + 2, left - 1);
      k := rest + 1;
      assert StepAt(step, pos, k) == StepAt(step, pos + 2, rest);
      forall j | 0 <= j < k
        ensures StepAt(step, pos, j).None?
      {
        if j == 0 {
          assert StepAt(step, pos, j) == step(pos);
        } else {
          assert StepAt(step, pos, j) == StepAt(step, pos + 2, j - 1);
        }
      }
    }
  }

  /** The stabilised-injury loop is `FirstSuccess` over the attempts `StabilisedStep`. */
  lemma {:induction false} StabilisedFromIsFirstSuccess(e: Engine, tape: Tape, pos: nat, attempts: nat)
    requires attempts <= MaxAttempts
    ensures StabilisedFrom(e, tape, pos, attempts) ==
      FirstSuccess(Attempts(e, tape), pos, MaxAttempts - attempts)
    decreases MaxAttempts - attempts
  {
    var left := MaxAttempts - attempts;
    if attempts < MaxAttempts {
      StabilisedFromIsFirstSuccess(e, tape, pos + 2, attempts + 1);
      StabilisedFromUnfold(e, tape, pos, attempts);
      assert Attempts(e, tape)(pos) == StabilisedStep(e, tape, pos);
      assert left - 1 == MaxAttempts - (attempts + 1);
    }
  }

  /** One pass of the loop: the attempt at `pos` either succeeds and ends it, or the loop
      goes on two positions later. */
  lemma StabilisedFromUnfold(e: Engine, tape: Tape, pos: nat, attempts: nat)
    requires attempts < MaxAttempts
    ensures StabilisedStep(e, tape, pos).Some? ==>
      StabilisedFrom(e, tape, pos, attempts) == Rolled(StabilisedStep(e, tape, pos), pos + 2)
    ensures StabilisedStep(e, tape, pos).None? ==>
      StabilisedFrom(e, tape, pos, attempts) == StabilisedFrom(e, tape, pos + 2, attempts + 1)
  {
  }

  /** `FirstSuccess` keeps the FIRST attempt that gives a value: a value found is some
      attempt `k`'s, every earlier attempt failed, and the loop stops just past attempt
      `k`; when nothing is found, every one of the `left` attempts failed. */
  lemma FirstSuccessStops(step: nat -> Option<Stabilised>, pos: nat, left: nat)
    ensures var r := FirstSuccess(step, pos, left);
      r.value.Some? ==>
        exists k :: 0 <= k < left && r.value == StepAt(step, pos, k) && r.next == pos + 2 * (k + 1) &&
          (forall j :: 0 <= j < k ==> StepAt(step, pos, j).None?)
    ensures FirstSuccess(step, pos, left).value.None? ==> forall j :: 0 <= j < left ==> StepAt(step, pos, j).None?
  {
    var k := FailedAttempts(step, pos, left);
  }

  /** Without loaded data no stabilised injury is found, after all `MaxAttempts` rolls. */
  lemma {:induction false} StabilisedNeedsData(e: Engine, tape: Tape, pos: nat, attempts: nat)
    requires e.injuriesData.None? && attempts <= MaxAttempts
    ensures StabilisedFrom(e, tape, pos, attempts) == Rolled(None, pos + 2 * (MaxAttempts - attempts))
    decreases MaxAttempts - attempts
  {
    if attempts < MaxAttempts {
      StabilisedNeedsData(e, tape, pos + 2, attempts + 1);
    }
  }

  /** The cost `calculateRogueDocCost(mode)` computes, reading the tape from `pos`:
      `None` without data or without a cost configuration. */
  function RogueDocCost(e: Engine, mode: string, tape: Tape, pos: nat): (r: Rolled<Option<int>>)
    ensures r.value.None? <==> ModeIn(e.injuriesData, mode).None? || ModeIn(e.injuriesData, mode).value.cost.None?
    ensures r.value.Some? ==> var c := ModeIn(e.injuriesData, mode).value.cost.value;
      r.value.value == CostDice(tape, pos, c.count, c.sides) * c.multiplier + c.addition &&
      r.next == pos + (if c.count > 0 then c.count else 0)
    ensures r.value.None? ==> r.next == pos
  {
    match ModeIn(e.injuriesData, mode)
    case None => Rolled(None, pos)
    case Some(table) =>
      match table.cost
      case None => Rolled(None, pos)
      case Some(c) =>
        Rolled(Some(CostDice(tape, pos, c.count, c.sides) * c.multiplier + c.addition),
               pos + (if c.count > 0 then c.count else 0))
  }

  /** With at least one face per die and a non-negative multiplier, the rogue doc's cost
      lies between `count * multiplier + addition` and
      `count * sides * multiplier + addition`. */
  lemma RogueDocCostBounds(c: CostConfig, tape: Tape, pos: nat)
    requires c.count >= 0 && c.sides >= 1 && c.multiplier >= 0
    ensures var cost := CostDice(tape, pos, c.count, c.sides) * c.multiplier + c.addition;
      c.count * c.multiplier + c.addition <= cost <= c.count * c.sides * c.multiplier + c.addition
  {
    var rolls := RollsFrom(tape, pos, c.count, NoFunc, c.sides);
    RollsInRange(tape, pos, c.count, NoFunc, c.sides);
    SumBounds(rolls, c.sides);
    var s := Sum(rolls);
    assert c.count <= s <= c.count * c.sides;
    MulRightMono(c.count, s, c.multiplier);
    MulRightMono(s, c.count * c.sides, c.multiplier);
  }

  lemma MulRightMono(a: int, b: int, m: int)
    requires a <= b && m >= 0
    ensures a * m <= b * m
  {
  }

  /** The treatment half of `resolveRogueDoc`: roll the mode's die, find the outcome (or
      the `'Unknown'` placeholder) and, when the outcome calls for it, a stabilised
      injury with its random effects. The cost is filled in by `RogueDoc`. */
  function Treatment(e: Engine, table: ModeData, tape: Tape, pos: nat): (r: Rolled<RogueDocReport>)
    ensures r.value.cost.None?
    ensures r.value.roll == (if table.sides.Some? then RollValue(D(tape, pos, table.sides.value)) else RollNaN)
    ensures FindOutcome(r.value.roll, table.results).None? ==>
      r.value.outcome == UnknownOutcome && r.value.stabilisedInjury.None? && r.next == pos + 1
    ensures FindOutcome(r.value.roll, table.results).Some? ==>
      r.value.outcome == FindOutcome(r.value.roll, table.results).value
    ensures r.value.stabilisedInjury.Some? ==>
      r.value.outcome.randomEffect == "stabilisedinjury" &&
      r.value.stabilisedInjury.value.roll.Some? &&
      !Excluded(r.value.stabilisedInjury.value.injury, StabilisedExcluded)
    ensures var o := FindOutcome(r.value.roll, table.results);
      o.Some? && o.value.randomEffect != "stabilisedinjury" ==>
      r.value.stabilisedInjury.None? && r.next == pos + 1
    ensures var o := FindOutcome(r.value.roll, table.results);
      o.Some? && o.value.randomEffect == "stabilisedinjury" ==>
      var s := StabilisedFrom(e, tape, pos + 1, 0);
      (s.value.None? ==> r.value.stabilisedInjury.None? && r.next == s.next) &&
      (s.value.Some? ==>
        var fx := ProcessRandomEffects(e, Some(s.value.value.injury), tape, s.next);
        r.value.stabilisedInjury ==
          Some(InjuryReport(Some(s.value.value.roll), s.value.value.injury, fx.value.randomRoll, fx.value.additionalInjuries)) &&
        r.next == fx.next)
  {
    var roll := if table.sides.Some? then RollValue(D(tape, pos, table.sides.value)) else RollNaN;
    var outcome := FindOutcome(roll, table.results);
    if outcome.Some? && outcome.value.randomEffect == "stabilisedinjury" then
      var stabilised := StabilisedFrom(e, tape, pos + 1, 0);
      match stabilised.value
      case None => Rolled(RogueDocReport(None, roll, outcome.value, None), stabilised.next)
      case Some(s) =>
        var effects := ProcessRandomEffects(e, Some(s.injury), tape, stabilised.next);
        var report := InjuryReport(Some(s.roll), s.injury, effects.value.randomRoll, effects.value.additionalInjuries);
        Rolled(RogueDocReport(None, roll, outcome.value, Some(report)), effects.next)
    else Rolled(RogueDocReport(None, roll, outcome.GetOr(UnknownOutcome), None), pos + 1)
  }

  /** `resolveRogueDoc(mode, precalculatedCost)` as a value: the `'Error'` report for an
      unknown mode; otherwise the cost (computed only for the trading-post mode when none
      was given) and the treatment. Reading a mode needs loaded data. A known mode
      reports a real roll, the given cost when there is one, and otherwise a cost only
      for the trading-post mode with a cost configuration. */
  function RogueDoc(e: Engine, mode: string, precalculated: Option<int>, tape: Tape, pos: nat): (r: Rolled<RogueDocReport>)
    requires e.injuriesData.Some?
    ensures ModeIn(e.injuriesData, mode).None? ==>
      r == Rolled(RogueDocReport(None, RollError, InvalidModeOutcome, None), pos)
    ensures ModeIn(e.injuriesData, mode).Some? ==> r.value.roll != RollError
    ensures ModeIn(e.injuriesData, mode).Some? && precalculated.Some? ==> r.value.cost == precalculated
    ensures ModeIn(e.injuriesData, mode).Some? && precalculated.None? ==>
      (r.value.cost.Some? <==> mode == RogueDocMode && ModeIn(e.injuriesData, mode).value.cost.Some?)
    ensures r.value.stabilisedInjury.Some? ==>
      r.value.outcome.randomEffect == "stabilisedinjury" &&
      !Excluded(r.value.stabilisedInjury.value.injury, StabilisedExcluded)
    ensures ModeIn(e.injuriesData, mode).Some? && precalculated.None? && r.value.cost.Some? ==>
      r.value.cost == RogueDocCost(e, mode, tape, pos).value
    ensures ModeIn(e.injuriesData, mode).Some? ==>
      var after := if precalculated.None? && r.value.cost.Some? then RogueDocCost(e, mode, tape, pos).next else pos;
      var t := Treatment(e, ModeIn(e.injuriesData, mode).value, tape, after);
      r.value.roll == t.value.roll && r.value.outcome == t.value.outcome &&
      r.value.stabilisedInjury == t.value.stabilisedInjury && r.next == t.next
  {
    match ModeIn(e.injuriesData, mode)
    case None => Rolled(RogueDocReport(None, RollError, InvalidModeOutcome, None), pos)
    case Some(table) =>
      var costed := if precalculated.None? && mode == RogueDocMode && table.cost.Some?
                    then RogueDocCost(e, mode, tape, pos) else Rolled(precalculated, pos);
      var treated := Treatment(e, table, tape, costed.next);
      Rolled(treated.value.(cost := costed.value), treated.next)
  }

  class LastingInjuries {
    var injuriesData: Tables
    /** The mode whose table injury rolls use. */
    var currentMode: string

    constructor()
      ensures injuriesData.None? && currentMode == StandardMode
    {
      injuriesData := None;
      currentMode := StandardMode;
    }

    /** `loadInjuries(injuriesData)` */
    method LoadInjuries(data: seq<(string, ModeData)>)
      modifies this
      ensures injuriesData == Some(data) && currentMode == old(currentMode)
    {
      injuriesData := Some(data);
    }

    /** `setMode(mode)`: switch to a mode only when the loaded data has it. */
    method SetMode(mode: string)
      modifies this
      ensures ModeIn(injuriesData, mode).Some? ==> currentMode == mode
      ensures ModeIn(injuriesData, mode).None? ==> currentMode == old(currentMode)
      ensures injuriesData == old(injuriesData)
    {
      if ModeIn(injuriesData, mode).Some? {
        currentMode := mode;
      }
    }

    /** `resolveMultipleInjuries(count)`: at most `count` injuries, none with an excluded
        id, from at most `MaxAttempts` rolls. */
    method ResolveMultipleInjuries(count: int, tape: Tape, pos: nat) returns (injuries: seq<MultiInjury>, next: nat)
      ensures Rolled(injuries, next) == MultipleFrom(Engine(injuriesData, currentMode), count, tape, pos, 0, [])
      ensures |injuries| <= (if count > 0 then count else 0)
      ensures forall i :: 0 <= i < |injuries| ==> !Excluded(injuries[i].injury, MultipleExcluded)
      ensures next <= pos + 2 * MaxAttempts
    {
      var e := Engine(injuriesData, currentMode);
      injuries := [];
      next := pos;
      var attempts := 0;
      while |injuries| < count && attempts < MaxAttempts
        invariant attempts <= MaxAttempts
        invariant MultipleFrom(e, count, tape, next, attempts, injuries) == MultipleFrom(e, count, tape, pos, 0, [])
        decreases MaxAttempts - attempts
      {
        ghost var step := MultipleStep(e, tape, next, injuries);
        attempts := attempts + 1;
        var rolled := RollDice(e, tape, next);
        var injury := FindInjury(e, rolled.value);
        if injury.Some? && !Excluded(injury.value, MultipleExcluded) {
          injuries := injuries + [MultiInjury(rolled.value, injury.value)];
        }
        next := rolled.next;
        assert Rolled(injuries, next) == step;
      }
    }

    /** `resolveStabilisedInjury()`: roll d66 on the standard table, whatever the current
        mode, until an injury that is not excluded comes up, at most `MaxAttempts` times;
        the current mode is put back on both exits. */
    method ResolveStabilisedInjury(tape: Tape, pos: nat) returns (r: Option<Stabilised>, next: nat)
      modifies this
      ensures currentMode == old(currentMode) && injuriesData == old(injuriesData)
      ensures Rolled(r, next) == StabilisedFrom(Engine(injuriesData, currentMode), tape, pos, 0)
    {
      ghost var e := Engine(injuriesData, currentMode);
      var originalMode := currentMode;
      currentMode := StandardMode;
      var attempts := 0;
      next := pos;
      while attempts < MaxAttempts
        invariant attempts <= MaxAttempts
        invariant currentMode == StandardMode && injuriesData == e.injuriesData
        invariant StabilisedFrom(e, tape, next, attempts) == StabilisedFrom(e, tape, pos, 0)
        decreases MaxAttempts - attempts
      {
        ghost var step := StabilisedStep(e, tape, next);
        attempts := attempts + 1;
        var roll := D66(tape, next);
        var injury := FindInjury(Engine(injuriesData, currentMode), Some(roll));
        next := next + 2;
        if injury.Some? && !Excluded(injury.value, StabilisedExcluded) {
          currentMode := originalMode;
          assert step == Some(Stabilised(roll, injury.value));
          return Some(Stabilised(roll, injury.value)), next;
        }
        assert step.None?;
      }
      currentMode := originalMode;
      r := None;
    }

    /** `calculateRogueDocCost(mode)`: the sum of `count` cost dice, times `multiplier`,
        plus `addition`. */
    method CalculateRogueDocCost(mode: string, tape: Tape, pos: nat) returns (cost: Option<int>, next: nat)
      ensures Rolled(cost, next) == RogueDocCost(Engine(injuriesData, currentMode), mode, tape, pos)
    {
      var table := ModeIn(injuriesData, mode);
      if table.None? || table.value.cost.None? {
        return None, pos;
      }
      var c := table.value.cost.value;
      var total := 0;
      next := pos;
      for i := 0 to (if c.count > 0 then c.count else 0)
        invariant total == CostDice(tape, pos, i, c.sides)
        invariant next == pos + i
      {
        CostDiceStep(tape, pos, i, c.sides);
        total := total + D(tape, next, c.sides);
        next := next + 1;
      }
      if c.count <= 0 {
        assert RollsFrom(tape, pos, c.count, NoFunc, c.sides) == [];
      }
      assert total == CostDice(tape, pos, c.count, c.sides);
      cost := Some(total * c.multiplier + c.addition);
    }

    /** The treatment half of `resolveRogueDoc`; the current mode is the same afterwards. */
    method ResolveTreatment(table: ModeData, tape: Tape, pos: nat) returns (r: RogueDocReport, next: nat)
      modifies this
      ensures currentMode == old(currentMode) && injuriesData == old(injuriesData)
      ensures Rolled(r, next) == Treatment(Engine(injuriesData, currentMode), table, tape, pos)
    {
      var roll := if table.sides.Some? then RollValue(D(tape, pos, table.sides.value)) else RollNaN;
      next := pos + 1;
      var outcome := FindOutcome(roll, table.results);
      var stabilisedInjury: Option<InjuryReport> := None;
      if outcome.Some? && outcome.value.randomEffect == "stabilisedinjury" {
        var stabilised;
        stabilised, next := ResolveStabilisedInjury(tape, next);
        if stabilised.Some? {
          var effects := ProcessRandomEffects(Engine(injuriesData, currentMode), Some(stabilised.value.injury), tape, next);
          stabilisedInjury := Some(InjuryReport(Some(stabilised.value.roll), stabilised.value.injury,
                                                effects.value.randomRoll, effects.value.additionalInjuries));
          next := effects.next;
        }
      }
      r := RogueDocReport(None, roll, outcome.GetOr(UnknownOutcome), stabilisedInjury);
    }

    /** `resolveRogueDoc(mode, precalculatedCost)`: the current mode is the same afterwards. */
    method ResolveRogueDoc(mode: string, precalculated: Option<int>, tape: Tape, pos: nat)
      returns (r: RogueDocReport, next: nat)
      requires injuriesData.Some?
      modifies this
      ensures currentMode == old(currentMode) && injuriesData == old(injuriesData)
      ensures Rolled(r, next) == RogueDoc(Engine(injuriesData, currentMode), mode, precalculated, tape, pos)
    {
      var table := ModeIn(injuriesData, mode);
      if table.None? {
        return RogueDocReport(None, RollError, InvalidModeOutcome, None), pos;
      }
      var cost := precalculated;
      next := pos;
      if cost.None? && mode == RogueDocMode && table.value.cost.Some? {
        cost, next := CalculateRogueDocCost(mode, tape, pos);
      }
      r, next := ResolveTreatment(table.value, tape, next);
      r := r.(cost := cost);
    }
  }
}
