/** The income page's territory rules (`js/income.js`): d6 helpers and one rule per
    territory. The page code that reads the check boxes and writes the log is not
    modelled. */
module IncomeRules {
  import opened Dice
  import opened Settlement
  import opened Common

  /** `rollND6(n)`: `n` d6 rolls pushed in order (none for `n <= 0`). */
  method RollND6(n: int, tape: Tape, pos: nat) returns (rolls: seq<int>, next: nat)
    ensures rolls == RollsFrom(tape, pos, n, UseD6, 6)
    ensures |rolls| == (if n > 0 then n else 0) && next == pos + |rolls|
    ensures forall i :: 0 <= i < |rolls| ==> 1 <= rolls[i] <= 6
  {
    rolls := [];
    next := pos;
    var i := 0;
    while i < n
      invariant 0 <= i <= (if n > 0 then n else 0)
      invariant rolls == RollsFrom(tape, pos, i, UseD6, 6) && next == pos + i
    {
      rolls := rolls + [D6(tape, next)];
      next := next + 1;
      i := i + 1;
    }
    RollsInRange(tape, pos, n, UseD6, 6);
  }

  /** What a territory rule returns: the settlement's full result, or a territory type
      and its income. */
  datatype IncomeReport = SettlementReport(settlement: SettlementResult) | PlainIncome(kind: string, income: int)

  /** The territory types with a rule. */
  const RuleNames: set<string> := {"Settlement", "Gambling Den", "Mine Workings", "Generatorium", "Slag Furnace"}

  /** Credits per pip of the income die: ten for a settlement and the mine, fifteen for
      the generatorium, twenty for the slag furnace, and the bare die for the gambling
      den. */
  function CreditsPerPip(name: string): (m: nat)
    requires name in RuleNames
    ensures 1 <= m <= 20
  {
    if name == "Settlement" || name == "Mine Workings" then 10
    else if name == "Generatorium" then 15
    else if name == "Slag Furnace" then 20
    else 1
  }

  /** `territoryRules[name]()` with the dice read from `pos`: `None` for a type without a
      rule. The settlement reads its income die, then its two recruitment dice. */
  function TerritoryRule(name: string, tape: Tape, pos: nat): Option<Rolled<IncomeReport>> {
    if name == "Settlement" then
      Some(Rolled(SettlementReport(SettlementOf(D6(tape, pos), RollsFrom(tape, pos + 1, 2, UseD6, 6))), pos + 3))
    else if name == "Gambling Den" then Some(Rolled(PlainIncome(name, D6(tape, pos)), pos + 1))
    else if name == "Mine Workings" then Some(Rolled(PlainIncome(name, D6(tape, pos) * 10), pos + 1))
    else if name == "Generatorium" then Some(Rolled(PlainIncome(name, D6(tape, pos) * 15), pos + 1))
    else if name == "Slag Furnace" then Some(Rolled(PlainIncome(name, D6(tape, pos) * 20), pos + 1))
    else None
  }

  /** Every rule pays its credits per pip on one d6, reports its own type, and is found
      exactly for the five territory types. */
  lemma TerritoryRuleIncome(name: string, tape: Tape, pos: nat)
    ensures TerritoryRule(name, tape, pos).Some? <==> name in RuleNames
    ensures name in RuleNames ==> var r := TerritoryRule(name, tape, pos).value.value;
      (r.SettlementReport? <==> name == "Settlement") &&
      (r.SettlementReport? ==> r.settlement.income == CreditsPerPip(name) * D6(tape, pos) &&
                               r.settlement.kind == name) &&
      (r.PlainIncome? ==> r.income == CreditsPerPip(name) * D6(tape, pos) && r.kind == name) &&
      var income := if r.SettlementReport? then r.settlement.income else r.income;
      CreditsPerPip(name) <= income <= 6 * CreditsPerPip(name)
  {
    var d := D6(tape, pos);
    if name in RuleNames {
      MulBounds(d, CreditsPerPip(name));
    }
  }

  lemma MulBounds(d: int, m: nat)
    requires 1 <= d <= 6
    ensures m <= d * m <= 6 * m
  {
  }

  /** The settlement's recruitment dice are the two rolls after the income die. */
  lemma SettlementRecruitDice(tape: Tape, pos: nat)
    ensures var r := TerritoryRule("Settlement", tape, pos).value.value.settlement;
      r.recruitRolls == [D6(tape, pos + 1), D6(tape, pos + 2)] &&
      r.recruitment == (if D6(tape, pos + 1) == 6 && D6(tape, pos + 2) == 6 then GangerOrJuves
                        else if D6(tape, pos + 1) == 6 || D6(tape, pos + 2) == 6 then OneJuve
                        else NoRecruits)
  {
    var rolls := RollsFrom(tape, pos + 1, 2, UseD6, 6);
    assert rolls == [D6(tape, pos + 1), D6(tape, pos + 2)];
    TwoDiceSettlement(D6(tape, pos), D6(tape, pos + 1), D6(tape, pos + 2));
  }

  /** Calls `territoryRules[name]()`; the settlement gets its recruitment rolls from
      `rollND6(2)`. */
  method ApplyTerritoryRule(name: string, tape: Tape, pos: nat) returns (report: Option<IncomeReport>, next: nat)
    ensures TerritoryRule(name, tape, pos).None? ==> report.None? && next == pos
    ensures TerritoryRule(name, tape, pos).Some? ==>
      report == Some(TerritoryRule(name, tape, pos).value.value) && next == TerritoryRule(name, tape, pos).value.next
  {
    if name == "Settlement" {
      var incomeRoll := D6(tape, pos);
      var recruitRolls, after := RollND6(2, tape, pos + 1);
      report := Some(SettlementReport(SettlementOf(incomeRoll, recruitRolls)));
      next := after;
    } else if name in RuleNames {
      var roll := D6(tape, pos);
      report := Some(PlainIncome(name, roll * CreditsPerPip(name)));
      next := pos + 1;
    } else {
      report := None;
      next := pos;
    }
  }
}
