/** The settlement territory rule (`assets/archive/settlement.js` and
    `js/territories/settlement.js`, with the same rule inlined in `js/income.js`): a
    d6 income roll worth ten credits a pip, and two recruitment dice whose sixes decide
    who joins. The dice are injected; each is called once, so a dice function is
    modelled as a function value and its results are whatever it returns. */
module Settlement {
  import opened Dice

  /** What `settlementRule` returns. */
  datatype SettlementResult = SettlementResult(kind: string, incomeRoll: int, income: int, recruitRolls: seq<int>,
                                               recruitment: string)

  const NoRecruits: string := "No new recruits"
  const GangerOrJuves: string := "Recruit a ganger OR two juves"
  const OneJuve: string := "Recruit a juve"

  /** The recruitment text for a number of sixes: two sixes for a ganger or two juves,
      one six for a juve, anything else for nobody. */
  function Recruitment(sixes: nat): (r: string)
    ensures r == GangerOrJuves <==> sixes == 2
    ensures r == OneJuve <==> sixes == 1
    ensures r == NoRecruits <==> sixes != 1 && sixes != 2
  {
    if sixes == 2 then GangerOrJuves else if sixes == 1 then OneJuve else NoRecruits
  }

  /** The result for an income roll and the recruitment rolls: `sixes` is
      `recruitRolls.filter(r => r === 6).length`. */
  function SettlementOf(incomeRoll: int, recruitRolls: seq<int>): (r: SettlementResult)
    ensures r.kind == "Settlement"
    ensures r.incomeRoll == incomeRoll && r.income == incomeRoll * 10 && r.recruitRolls == recruitRolls
    ensures r.recruitment == Recruitment(CountValue(recruitRolls, 6))
  {
    SettlementResult("Settlement", incomeRoll, incomeRoll * 10, recruitRolls, Recruitment(CountValue(recruitRolls, 6)))
  }

  /** With two recruitment dice: both sixes recruit a ganger or two juves, exactly one
      six a juve, no six nobody; a d6 income roll pays 10 to 60 credits in steps of
      ten. */
  lemma TwoDiceSettlement(incomeRoll: int, a: int, b: int)
    ensures var r := SettlementOf(incomeRoll, [a, b]);
      r.recruitment == (if a == 6 && b == 6 then GangerOrJuves else if a == 6 || b == 6 then OneJuve else NoRecruits)
    ensures 1 <= incomeRoll <= 6 ==> var income := SettlementOf(incomeRoll, [a, b]).income;
      10 <= income <= 60 && income % 10 == 0
  {
    assert [a, b][1..] == [b];
    assert [b][1..] == [];
  }

  /** `settlementRule(rollDie, rollNDice)` of `assets/archive/settlement.js`: income from
      `rollDie(6)`, recruitment from `rollNDice(2, 6)`. */
  function ArchiveSettlementRule(rollDie: int -> int, rollNDice: (int, int) -> seq<int>): (r: SettlementResult)
    ensures r.kind == "Settlement"
    ensures r.incomeRoll == rollDie(6) && r.income == 10 * rollDie(6)
    ensures r.recruitRolls == rollNDice(2, 6)
    ensures r.recruitment == GangerOrJuves <==> CountValue(rollNDice(2, 6), 6) == 2
    ensures r.recruitment == OneJuve <==> CountValue(rollNDice(2, 6), 6) == 1
  {
    SettlementOf(rollDie(6), rollNDice(2, 6))
  }

  /** `settlementRule(rollD6, rollND6)` of `js/territories/settlement.js`: income from
      `rollD6()`, recruitment from `rollND6(2)`. */
  function SettlementRule(rollD6: () -> int, rollND6: int -> seq<int>): (r: SettlementResult)
    ensures r.kind == "Settlement"
    ensures r.incomeRoll == rollD6() && r.income == 10 * rollD6()
    ensures r.recruitRolls == rollND6(2)
    ensures r.recruitment == GangerOrJuves <==> CountValue(rollND6(2), 6) == 2
    ensures r.recruitment == OneJuve <==> CountValue(rollND6(2), 6) == 1
  {
    SettlementOf(rollD6(), rollND6(2))
  }

  /** The two files implement one rule: handed dice that agree, they give the same
      result. */
  lemma SettlementRulesAgree(rollDie: int -> int, rollNDice: (int, int) -> seq<int>, rollD6: () -> int,
                             rollND6: int -> seq<int>)
    requires rollD6() == rollDie(6) && rollND6(2) == rollNDice(2, 6)
    ensures SettlementRule(rollD6, rollND6) == ArchiveSettlementRule(rollDie, rollNDice)
  {
  }
}
