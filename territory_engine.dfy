/** The territory batch resolver (`_site/assets/js/territoryEngine.js`). Every territory is
    resolved rule type by rule type: all income rolls first, then all recruit rolls, then
    the five text rules. Dice come from a tape (see `Dice`); descriptions, which only
    format the structured fields, are not modelled. */
module TerritoryEngine {
  import opened Common
  import opened JsText
  import opened Dice

  /** An income configuration. Numbers use 0 for an absent field, text uses "".
      `countMin`/`countMax` are `None` when the field is `undefined`. */
  datatype IncomeRule = IncomeRule(multiplier: int, sides: nat, addition: int, count: nat,
                                   countMin: Option<int>, countMax: Option<int>,
                                   nilEvent: string, nilText: string)

  /** A random recruitment configuration; `outcomes` maps a match count, as text, to the
      outcome text. */
  datatype RecruitRule = RecruitRule(count: nat, sides: nat, target: int,
                                     outcomes: seq<(string, string)>, effect: string)

  /** A territory. `gangIncome` holds the territory's `income_<gang>` entries, keyed by
      their full key. */
  datatype Territory = Territory(id: string, name: string,
                                 income: Option<IncomeRule>, randomRecruit: Option<RecruitRule>,
                                 fixedRecruit: string, reputation: string, fixedGear: string,
                                 battleSpecialRules: string, scenarioSelectionSpecialRules: string,
                                 gangIncome: seq<(string, IncomeRule)>)

  /** The seven rule types, in the order `resolve_all` processes them. */
  datatype RuleKind = Income | RandomRecruit | FixedRecruit | Reputation | FixedGear
                    | BattleSpecialRules | ScenarioSelectionSpecialRules
  {
    predicate IsText() {
      !(Income? || RandomRecruit?)
    }
  }

  /** `territory.name || territory.id` */
  function DisplayName(t: Territory): string {
    if t.name != "" then t.name else t.id
  }

  /** The text field a text rule reads. */
  function TextField(t: Territory, k: RuleKind): string
    requires k.IsText()
  {
    match k
    case FixedRecruit => t.fixedRecruit
    case Reputation => t.reputation
    case FixedGear => t.fixedGear
    case BattleSpecialRules => t.battleSpecialRules
    case ScenarioSelectionSpecialRules => t.scenarioSelectionSpecialRules
  }

  /** Whether the territory's own field for this rule type is truthy. */
  predicate HasRule(t: Territory, k: RuleKind) {
    match k
    case Income => t.income.Some?
    case RandomRecruit => t.randomRecruit.Some?
    case _ => TextField(t, k) != ""
  }

  /** `s.replace(/\s+/g, '_')`: every maximal run of white space becomes one `_`. */
  function CollapseSpaces(s: string): (r: string)
    ensures forall i :: 0 <= i < |r| ==> !IsSpace(r[i])
    ensures (forall i :: 0 <= i < |s| ==> !('A' <= s[i] <= 'Z')) ==>
              forall i :: 0 <= i < |r| ==> !('A' <= r[i] <= 'Z')
  {
    CollapseFrom(s, false)
  }

  /** The replacement scanning left to right; `inRun` says the previous character was
      white space, whose run already produced its `_`. */
  function CollapseFrom(s: string, inRun: bool): (r: string)
    ensures forall i :: 0 <= i < |r| ==> !IsSpace(r[i])
    ensures (forall i :: 0 <= i < |s| ==> !('A' <= s[i] <= 'Z')) ==>
              forall i :: 0 <= i < |r| ==> !('A' <= r[i] <= 'Z')
  {
    if s == [] then ""
    else
      var rest := CollapseFrom(s[1..], IsSpace(s[0]));
      var head := if !IsSpace(s[0]) then [s[0]] else if inRun then "" else "_";
      assert forall i :: 0 <= i < |s| - 1 ==> s[1..][i] == s[i + 1];
      assert forall i :: 0 <= i < |head + rest| ==> (head + rest)[i] == if i < |head| then head[i] else rest[i - |head|];
      head + rest
  }

  /** The replacement never lengthens the text, and text without white space is left as
      it is. */
  lemma {:induction false} CollapseShortens(s: string, inRun: bool)
    ensures |CollapseFrom(s, inRun)| <= |s|
    ensures (forall i :: 0 <= i < |s| ==> !IsSpace(s[i])) ==> CollapseFrom(s, inRun) == s
  {
    if s != [] {
      CollapseShortens(s[1..], IsSpace(s[0]));
      if forall i :: 0 <= i < |s| ==> !IsSpace(s[i]) {
        assert !IsSpace(s[0]);
        assert forall i :: 0 <= i < |s| - 1 ==> s[1..][i] == s[i + 1];
        assert s == [s[0]] + s[1..];
      }
    }
  }

  /** A run of white space alone becomes one `_`, or nothing when it continues a run
      that already produced its `_`. */
  lemma {:induction false} CollapseRun(w: string)
    requires w != [] && forall i :: 0 <= i < |w| ==> IsSpace(w[i])
    ensures CollapseFrom(w, false) == "_" && CollapseFrom(w, true) == ""
  {
    if |w| > 1 {
      assert forall i :: 0 <= i < |w| - 1 ==> w[1..][i] == w[i + 1];
      CollapseRun(w[1..]);
    }
  }

  /** The replacement works piece by piece: the second piece continues the first one's
      run exactly when the first ends in white space. */
  lemma {:induction false} CollapseAppend(a: string, b: string, inRun: bool)
    ensures CollapseFrom(a + b, inRun) ==
      CollapseFrom(a, inRun) + CollapseFrom(b, if a == [] then inRun else IsSpace(a[|a| - 1]))
  {
    if a == [] {
      assert a + b == b;
    } else {
      assert (a + b)[0] == a[0];
      assert (a + b)[1..] == a[1..] + b;
      CollapseAppend(a[1..], b, IsSpace(a[0]));
      if |a| > 1 {
        assert a[1..][|a[1..]| - 1] == a[|a| - 1];
      }
    }
  }

  /** A word, a run of white space and what follows from the next word on: the word is
      kept as it is, the whole run becomes one `_`, and the rest is replaced the same
      way. */
  lemma CollapseWordThenRun(a: string, w: string, b: string)
    requires forall i :: 0 <= i < |a| ==> !IsSpace(a[i])
    requires w != [] && forall i :: 0 <= i < |w| ==> IsSpace(w[i])
    requires b == [] || !IsSpace(b[0])
    ensures CollapseSpaces(a + w + b) == a + "_" + CollapseSpaces(b)
  {
    CollapseAppend(a + w, b, false);
    CollapseAppend(a, w, false);
    CollapseShortens(a, false);
    CollapseRun(w);
    assert (a + w)[|a + w| - 1] == w[|w| - 1];
  }

  /** The gang override key: `income_` and the lower-cased gang with white space runs
      replaced by `_` (each run by exactly one, see `CollapseWordThenRun`). */
  function GangIncomeKey(gang: string): (r: string)
    ensures r == "income_" + CollapseSpaces(ToLower(gang))
    ensures StartsWith(r, "income_")
    ensures forall i :: 0 <= i < |r| ==> !IsSpace(r[i]) && !('A' <= r[i] <= 'Z')
  {
    var r := "income_" + CollapseSpaces(ToLower(gang));
    assert r[..7] == "income_";
    r
  }

  /** The income configuration `resolve_income` uses: the gang's override when a gang is
      selected and the territory has a truthy entry under its key, the base income
      otherwise. */
  function EffectiveIncome(t: Territory, gang: string): (r: Option<IncomeRule>)
    ensures gang == "" ==> r == t.income
    ensures gang != "" && Lookup(t.gangIncome, GangIncomeKey(gang)).Some? ==>
              r == Lookup(t.gangIncome, GangIncomeKey(gang))
    ensures gang != "" && Lookup(t.gangIncome, GangIncomeKey(gang)).None? ==> r == t.income
  {
    if gang != "" then
      match Lookup(t.gangIncome, GangIncomeKey(gang))
      case Some(rule) => Some(rule)
      case None => t.income
    else t.income
  }

  /** `x || d` on a number. */
  function OrInt(x: int, d: int): (r: int)
    ensures x != 0 ==> r == x
    ensures x == 0 ==> r == d
  {
    if x != 0 then x else d
  }

  /** The number of income dice: the user's count when both `count_min` and `count_max`
      are defined (an absent count rolls nothing), otherwise `count || 1`. */
  function IncomeCount(rule: IncomeRule, userCount: Option<int>): int {
    if rule.countMin.Some? && rule.countMax.Some? then userCount.GetOr(0)
    else if rule.count != 0 then rule.count else 1
  }

  /** The result of `resolve_income`: no configuration, or the rolls and what they earn. */
  datatype IncomeResult =
    | NoIncome
    | IncomeRoll(rolls: seq<int>, total: int, multiplier: int, addition: int, credits: int,
                 nilEventTriggered: bool)
  {
    function Credits(): int {
      if NoIncome? then 0 else credits
    }
  }

  /** The rolls and credits of one income configuration, reading the tape from `pos`:
      `count` dice of `sides || 6` sides; no credits when the nil event is
      `hasDuplicates` and a value repeats, `multiplier * total + addition` otherwise. */
  function RollIncome(rule: IncomeRule, userCount: Option<int>, tape: Tape, pos: nat): (r: Rolled<IncomeResult>)
    ensures r.value.IncomeRoll? && r.next == pos + |r.value.rolls|
    ensures r.value.rolls == RollsFrom(tape, pos, IncomeCount(rule, userCount), NoFunc, IncomeSides(rule))
  {
    var multiplier := OrInt(rule.multiplier, 1);
    var rolls := RollsFrom(tape, pos, IncomeCount(rule, userCount), NoFunc, IncomeSides(rule));
    var total := Sum(rolls);
    var nil := rule.nilEvent == "hasDuplicates" && HasDuplicates(rolls);
    var credits := if nil then 0 else multiplier * total + rule.addition;
    Rolled(IncomeRoll(rolls, total, multiplier, rule.addition, credits, nil), pos + |rolls|)
  }

  /** What the rolls earn: `total` is their sum; the nil event fires exactly when it is
      `hasDuplicates` and a value repeats, and then pays nothing; otherwise the credits
      are `multiplier * total + addition` with `multiplier || 1`. */
  lemma IncomeCredits(rule: IncomeRule, userCount: Option<int>, tape: Tape, pos: nat)
    ensures var r := RollIncome(rule, userCount, tape, pos).value;
      r.total == Sum(r.rolls) &&
      r.multiplier == OrInt(rule.multiplier, 1) && r.addition == rule.addition &&
      (r.nilEventTriggered <==> rule.nilEvent == "hasDuplicates" && HasDuplicates(r.rolls)) &&
      (r.nilEventTriggered ==> r.credits == 0) &&
      (!r.nilEventTriggered ==> r.credits == r.multiplier * r.total + r.addition)
  {
  }

  /** `income.sides || 6` */
  function IncomeSides(rule: IncomeRule): (r: nat)
    ensures r >= 1
  {
    if rule.sides != 0 then rule.sides else 6
  }

  /** `resolve_income(territory, userCount, selectedGang)` reading the tape from `pos`: no
      income and no dice without a configuration, the configuration's roll otherwise. */
  function ResolveIncome(t: Territory, userCount: Option<int>, gang: string, tape: Tape, pos: nat)
    : (r: Rolled<IncomeResult>)
    ensures r.value.NoIncome? <==> EffectiveIncome(t, gang).None?
    ensures r.value.NoIncome? ==> r.next == pos && r.value.Credits() == 0
    ensures EffectiveIncome(t, gang).Some? ==> r == RollIncome(EffectiveIncome(t, gang).value, userCount, tape, pos)
    ensures r.next >= pos
  {
    match EffectiveIncome(t, gang)
    case None => Rolled(NoIncome, pos)
    case Some(rule) => RollIncome(rule, userCount, tape, pos)
  }

  /** Exactly `count` dice of `sides` sides are rolled, and without a nil event a positive
      multiplier earns between `multiplier * count + addition` and
      `multiplier * count * sides + addition` credits. */
  lemma IncomeCreditsBounds(rule: IncomeRule, userCount: Option<int>, tape: Tape, pos: nat)
    ensures var count := IncomeCount(rule, userCount);
      var r := RollIncome(rule, userCount, tape, pos).value;
      |r.rolls| == (if count > 0 then count else 0) &&
      (forall i :: 0 <= i < |r.rolls| ==> 1 <= r.rolls[i] <= IncomeSides(rule)) &&
      (!r.nilEventTriggered && r.multiplier > 0 ==>
        r.multiplier * |r.rolls| + r.addition <= r.credits <= r.multiplier * (|r.rolls| * IncomeSides(rule)) + r.addition)
  {
    var r := RollIncome(rule, userCount, tape, pos).value;
    var sides := IncomeSides(rule);
    IncomeCredits(rule, userCount, tape, pos);
    SumBounds(r.rolls, sides);
    var m, s, n := r.multiplier, r.total, |r.rolls|;
    if m > 0 {
      MulMono(m, n, s);
      MulMono(m, s, n * sides);
    }
  }

  lemma MulMono(m: int, a: int, b: int)
    requires m > 0 && a <= b
    ensures m * a <= m * b
  {
  }

  /** The nil event needs a repeated value, so it never fires on fewer than two dice. */
  lemma NilEventNeedsTwoDice(rule: IncomeRule, userCount: Option<int>, tape: Tape, pos: nat)
    requires IncomeCount(rule, userCount) < 2
    ensures !RollIncome(rule, userCount, tape, pos).value.nilEventTriggered
    ensures var r := RollIncome(rule, userCount, tape, pos).value;
            r.credits == r.multiplier * r.total + r.addition
  {
    IncomeCredits(rule, userCount, tape, pos);
  }

  /** A gang override supplies income even when the base `income` field is empty; the
      territory still lacks the income rule for the "without income" list. */
  lemma GangOverrideWithoutBaseIncome(t: Territory, userCount: Option<int>, gang: string, tape: Tape, pos: nat)
    requires t.income.None? && gang != "" && Lookup(t.gangIncome, GangIncomeKey(gang)).Some?
    ensures ResolveIncome(t, userCount, gang, tape, pos).value.IncomeRoll?
    ensures !HasRule(t, Income)
  {
  }

  /** The income result depends only on the tape positions its dice read. */
  lemma IncomeReadsOwnDice(t: Territory, userCount: Option<int>, gang: string,
                           t1: Tape, t2: Tape, pos: nat)
    requires forall k :: pos <= k < ResolveIncome(t, userCount, gang, t1, pos).next ==> t1(k) == t2(k)
    ensures ResolveIncome(t, userCount, gang, t1, pos) == ResolveIncome(t, userCount, gang, t2, pos)
  {
    if EffectiveIncome(t, gang).Some? {
      var rule := EffectiveIncome(t, gang).value;
      var n := IncomeCount(rule, userCount);
      var rolls1 := RollsFrom(t1, pos, n, NoFunc, IncomeSides(rule));
      assert ResolveIncome(t, userCount, gang, t1, pos).next == pos + |rolls1|;
      assert forall k :: pos <= k < pos + |rolls1| ==> t1(k) == t2(k);
      RollsFromReadsOwnDice(t1, t2, pos, n, IncomeSides(rule));
      SameRollsSameIncome(rule, userCount, t1, t2, pos);
    }
  }

  lemma SameRollsSameIncome(rule: IncomeRule, userCount: Option<int>, t1: Tape, t2: Tape, pos: nat)
    requires var n, sides := IncomeCount(rule, userCount), IncomeSides(rule);
      RollsFrom(t1, pos, n, NoFunc, sides) == RollsFrom(t2, pos, n, NoFunc, sides)
    ensures RollIncome(rule, userCount, t1, pos) == RollIncome(rule, userCount, t2, pos)
  {
  }

  /** `n` plain rolls read only the `n` positions from `pos`. */
  lemma RollsFromReadsOwnDice(t1: Tape, t2: Tape, pos: nat, n: int, sides: int)
    requires forall k :: pos <= k < pos + |RollsFrom(t1, pos, n, NoFunc, sides)| ==> t1(k) == t2(k)
    ensures RollsFrom(t1, pos, n, NoFunc, sides) == RollsFrom(t2, pos, n, NoFunc, sides)
  {
    var a, b := RollsFrom(t1, pos, n, NoFunc, sides), RollsFrom(t2, pos, n, NoFunc, sides);
    forall i | 0 <= i < |a| ensures a[i] == b[i] {
      assert pos + Width(NoFunc) * i == pos + i;
      assert t1(pos + i) == t2(pos + i);
    }
  }

  /** `outcomes[String(matchCount)] || "No result defined for this roll."` */
  function RecruitOutcome(outcomes: seq<(string, string)>, matches: nat): (r: string)
    ensures Lookup(outcomes, NatToString(matches)).Some? &&
            Lookup(outcomes, NatToString(matches)).value != "" ==>
              r == Lookup(outcomes, NatToString(matches)).value
    ensures Lookup(outcomes, NatToString(matches)).None? ==> r == NoResultText
  {
    match Lookup(outcomes, NatToString(matches))
    case Some(text) => if text != "" then text else NoResultText
    case None => NoResultText
  }

  const NoResultText := "No result defined for this roll."

  /** The result of `resolve_randomrecruit`: no configuration, or the rolls, the target,
      how many rolls hit it and the outcome text. */
  datatype RecruitResult =
    | NoRecruit
    | RecruitRoll(rolls: seq<int>, target: int, matchCount: nat, outcome: string)

  /** `resolve_randomrecruit(territory)` reading the tape from `pos`. */
  function ResolveRandomRecruit(t: Territory, tape: Tape, pos: nat): (r: Rolled<RecruitResult>)
    ensures r.value.NoRecruit? <==> t.randomRecruit.None?
    ensures r.value.NoRecruit? ==> r.next == pos
    ensures r.value.RecruitRoll? ==>
      var rule := t.randomRecruit.value;
      var sides := if rule.sides != 0 then rule.sides else 6;
      r.value.rolls == RollsFrom(tape, pos, if rule.count != 0 then rule.count else 1, NoFunc, sides) &&
      r.next == pos + |r.value.rolls| &&
      r.value.target == OrInt(rule.target, 6) &&
      r.value.matchCount == multiset(r.value.rolls)[r.value.target] <= |r.value.rolls| &&
      r.value.outcome == RecruitOutcome(rule.outcomes, r.value.matchCount)
  {
    match t.randomRecruit
    case None => Rolled(NoRecruit, pos)
    case Some(rule) =>
      var count := if rule.count != 0 then rule.count else 1;
      var sides := if rule.sides != 0 then rule.sides else 6;
      var target := OrInt(rule.target, 6);
      var rolls := RollsFrom(tape, pos, count, NoFunc, sides);
      var matches := CountValue(rolls, target);
      Rolled(RecruitRoll(rolls, target, matches, RecruitOutcome(rule.outcomes, matches)), pos + count)
  }

  /** A target no face of the die shows is never matched, so the outcome is the one
      configured for "0". */
  lemma UnreachableTargetNeverMatches(t: Territory, tape: Tape, pos: nat)
    requires t.randomRecruit.Some?
    requires var rule := t.randomRecruit.value;
             var target := OrInt(rule.target, 6);
             !(1 <= target <= (if rule.sides != 0 then rule.sides else 6))
    ensures ResolveRandomRecruit(t, tape, pos).value.matchCount == 0
    ensures ResolveRandomRecruit(t, tape, pos).value.outcome == RecruitOutcome(t.randomRecruit.value.outcomes, 0)
  {
    var r := ResolveRandomRecruit(t, tape, pos).value;
    var rule := t.randomRecruit.value;
    RollsInRange(tape, pos, if rule.count != 0 then rule.count else 1, NoFunc,
                 if rule.sides != 0 then rule.sides else 6);
    assert r.target !in multiset(r.rolls);
  }

  /** The recruit result depends only on the tape positions its dice read. */
  lemma RecruitReadsOwnDice(t: Territory, t1: Tape, t2: Tape, pos: nat)
    requires forall k :: pos <= k < ResolveRandomRecruit(t, t1, pos).next ==> t1(k) == t2(k)
    ensures ResolveRandomRecruit(t, t1, pos) == ResolveRandomRecruit(t, t2, pos)
  {
    if t.randomRecruit.Some? {
      var rule := t.randomRecruit.value;
      var n := if rule.count != 0 then rule.count else 1;
      var sides := if rule.sides != 0 then rule.sides else 6;
      RollsFromReadsOwnDice(t1, t2, pos, n, sides);
    }
  }

  /** The five text resolvers (`resolve_fixedrecruit` … `resolve_scenarioselectionspecialrules`):
      the field's text, or no description when it is empty. */
  function ResolveText(t: Territory, k: RuleKind): (r: Option<string>)
    requires k.IsText()
    ensures r.None? <==> !HasRule(t, k)
    ensures r.Some? ==> r.value == TextField(t, k) && r.value != ""
  {
    if TextField(t, k) != "" then Some(TextField(t, k)) else None
  }

  /** One entry of the `territories` list `resolve_all` returns. */
  datatype TerritoryResult = TerritoryResult(
    id: string, territory: Territory, income: IncomeResult, recruit: RecruitResult,
    fixedRecruit: Option<string>, reputation: Option<string>, fixedGear: Option<string>,
    battleSpecialRules: Option<string>, scenarioSelectionSpecialRules: Option<string>)

  /** A territory whose income roll hit its nil event. */
  datatype NilEvent = NilEvent(id: string, name: string)

  /** What `resolve_all` returns: `[]` for an input that is not an array, the combined
      results and the lists otherwise. */
  datatype Resolution =
    | NotAnArray
    | Resolved(territories: seq<TerritoryResult>,
               withoutIncome: seq<string>, withoutRecruit: seq<string>,
               withoutFixedRecruit: seq<string>, withoutReputation: seq<string>,
               withoutFixedGear: seq<string>, withoutBattleSpecialRules: seq<string>,
               withoutScenarioSelectionSpecialRules: seq<string>,
               nilEvents: seq<NilEvent>)

  /** `userInputCounts[territory.id]` */
  function UserCount(userCounts: seq<(string, int)>, t: Territory): Option<int> {
    Lookup(userCounts, t.id)
  }

  /** The income pass: territory by territory, each reading the tape where the previous
      one stopped. */
  function IncomePass(ts: seq<Territory>, userCounts: seq<(string, int)>, gang: string, tape: Tape, pos: nat)
    : (r: Rolled<seq<IncomeResult>>)
    ensures |r.value| == |ts| && r.next >= pos
  {
    if ts == [] then Rolled([], pos)
    else
      var p := IncomePass(ts[..|ts| - 1], userCounts, gang, tape, pos);
      var last := ResolveIncome(ts[|ts| - 1], UserCount(userCounts, ts[|ts| - 1]), gang, tape, p.next);
      Rolled(p.value + [last.value], last.next)
  }

  /** The recruit pass, likewise. */
  function RecruitPass(ts: seq<Territory>, tape: Tape, pos: nat): (r: Rolled<seq<RecruitResult>>)
    ensures |r.value| == |ts| && r.next >= pos
  {
    if ts == [] then Rolled([], pos)
    else
      var p := RecruitPass(ts[..|ts| - 1], tape, pos);
      var last := ResolveRandomRecruit(ts[|ts| - 1], tape, p.next);
      Rolled(p.value + [last.value], last.next)
  }

  /** The names of the territories without the given rule, in input order. */
  function WithoutList(ts: seq<Territory>, k: RuleKind): (r: seq<string>)
    ensures |r| <= |ts|
  {
    if ts == [] then []
    else WithoutList(ts[..|ts| - 1], k) +
         (if HasRule(ts[|ts| - 1], k) then [] else [DisplayName(ts[|ts| - 1])])
  }

  /** The territories whose income result triggered its nil event, in input order. */
  function NilEvents(ts: seq<Territory>, results: seq<IncomeResult>): seq<NilEvent>
    requires |results| == |ts|
  {
    if ts == [] then []
    else
      var n := |ts| - 1;
      NilEvents(ts[..n], results[..n]) +
      (if results[n].IncomeRoll? && results[n].nilEventTriggered
       then [NilEvent(ts[n].id, DisplayName(ts[n]))] else [])
  }

  lemma NilEventsSnoc(ts: seq<Territory>, results: seq<IncomeResult>, t: Territory, r: IncomeResult)
    requires |results| == |ts|
    ensures NilEvents(ts + [t], results + [r]) ==
      NilEvents(ts, results) + (if r.IncomeRoll? && r.nilEventTriggered then [NilEvent(t.id, DisplayName(t))] else [])
  {
    assert (ts + [t])[..|ts|] == ts;
    assert (results + [r])[..|ts|] == results;
  }

  lemma IncomePassSnoc(ts: seq<Territory>, t: Territory, userCounts: seq<(string, int)>, gang: string,
                       tape: Tape, pos: nat)
    ensures var p := IncomePass(ts, userCounts, gang, tape, pos);
      var last := ResolveIncome(t, UserCount(userCounts, t), gang, tape, p.next);
      IncomePass(ts + [t], userCounts, gang, tape, pos) == Rolled(p.value + [last.value], last.next)
  {
    assert (ts + [t])[..|ts|] == ts;
  }

  lemma WithoutListSnoc(ts: seq<Territory>, t: Territory, k: RuleKind)
    ensures WithoutList(ts + [t], k) == WithoutList(ts, k) + (if HasRule(t, k) then [] else [DisplayName(t)])
  {
    assert (ts + [t])[..|ts|] == ts;
  }

  /** One pass of the income loop: the first `i + 1` territories extend the first `i`. */
  lemma IncomePassStep(ts: seq<Territory>, i: nat, userCounts: seq<(string, int)>, gang: string, tape: Tape,
                       pos: nat, results: seq<IncomeResult>, r: IncomeResult)
    requires i < |ts| && |results| == i
    ensures var p := IncomePass(ts[..i], userCounts, gang, tape, pos);
      var last := ResolveIncome(ts[i], UserCount(userCounts, ts[i]), gang, tape, p.next);
      IncomePass(ts[..i + 1], userCounts, gang, tape, pos) == Rolled(p.value + [last.value], last.next)
    ensures WithoutList(ts[..i + 1], Income) ==
      WithoutList(ts[..i], Income) + (if ts[i].income.None? then [DisplayName(ts[i])] else [])
    ensures NilEvents(ts[..i + 1], results + [r]) ==
        NilEvents(ts[..i], results) + (if r.IncomeRoll? && r.nilEventTriggered then [NilEvent(ts[i].id, DisplayName(ts[i]))] else [])
  {
    assert ts[..i + 1] == ts[..i] + [ts[i]];
    IncomePassSnoc(ts[..i], ts[i], userCounts, gang, tape, pos);
    WithoutListSnoc(ts[..i], ts[i], Income);
    NilEventsSnoc(ts[..i], results, ts[i], r);
  }

  /** Entry i of the output: the per-rule results computed for input i. */
  function Combine(t: Territory, income: IncomeResult, recruit: RecruitResult): TerritoryResult {
    TerritoryResult(t.id, t, income, recruit,
                    ResolveText(t, FixedRecruit), ResolveText(t, Reputation), ResolveText(t, FixedGear),
                    ResolveText(t, BattleSpecialRules), ResolveText(t, ScenarioSelectionSpecialRules))
  }

  /** One text pass: every territory's result for the rule, and the territories lacking it. */
  method TextPass(ts: seq<Territory>, k: RuleKind) returns (results: seq<Option<string>>, without: seq<string>)
    requires k.IsText()
    ensures |results| == |ts| && forall i :: 0 <= i < |ts| ==> results[i] == ResolveText(ts[i], k)
    ensures without == WithoutList(ts, k)
  {
    results, without := [], [];
    for i := 0 to |ts|
      invariant |results| == i && forall j :: 0 <= j < i ==> results[j] == ResolveText(ts[j], k)
      invariant without == WithoutList(ts[..i], k)
    {
      assert ts[..i + 1][..i] == ts[..i];
      results := results + [ResolveText(ts[i], k)];
      if !HasRule(ts[i], k) {
        without := without + [DisplayName(ts[i])];
      }
    }
    assert ts[..|ts|] == ts;
  }

  /** The income map of `resolve_all`: each territory's income result, the territories
      without a base income and the nil events, reading the tape from `pos`. */
  method IncomePassLoop(ts: seq<Territory>, userCounts: seq<(string, int)>, gang: string, tape: Tape, pos: nat)
    returns (results: seq<IncomeResult>, without: seq<string>, nilEvents: seq<NilEvent>, next: nat)
    ensures results == IncomePass(ts, userCounts, gang, tape, pos).value
    ensures next == IncomePass(ts, userCounts, gang, tape, pos).next
    ensures without == WithoutList(ts, Income)
    ensures nilEvents == NilEvents(ts, results)
  {
    results, without, nilEvents, next := [], [], [], pos;
    for i := 0 to |ts|
      invariant results == IncomePass(ts[..i], userCounts, gang, tape, pos).value
      invariant next == IncomePass(ts[..i], userCounts, gang, tape, pos).next
      invariant without == WithoutList(ts[..i], Income)
      invariant nilEvents == NilEvents(ts[..i], results)
    {
      var result := ResolveIncome(ts[i], UserCount(userCounts, ts[i]), gang, tape, next);
      IncomePassStep(ts, i, userCounts, gang, tape, pos, results, result.value);
      if ts[i].income.None? {
        without := without + [DisplayName(ts[i])];
      }
      if result.value.IncomeRoll? && result.value.nilEventTriggered {
        nilEvents := nilEvents + [NilEvent(ts[i].id, DisplayName(ts[i]))];
      }
      results := results + [result.value];
      next := result.next;
    }
    assert ts[..|ts|] == ts;
  }

  /** The recruit map of `resolve_all`: each territory's recruit result and the territories
      without a recruit rule, reading the tape from `pos`. */
  method RecruitPassLoop(ts: seq<Territory>, tape: Tape, pos: nat)
    returns (results: seq<RecruitResult>, without: seq<string>, next: nat)
    ensures results == RecruitPass(ts, tape, pos).value
    ensures next == RecruitPass(ts, tape, pos).next
    ensures without == WithoutList(ts, RandomRecruit)
  {
    results, without, next := [], [], pos;
    for i := 0 to |ts|
      invariant results == RecruitPass(ts[..i], tape, pos).value
      invariant next == RecruitPass(ts[..i], tape, pos).next
      invariant without == WithoutList(ts[..i], RandomRecruit)
    {
      assert ts[..i + 1][..i] == ts[..i];
      var result := ResolveRandomRecruit(ts[i], tape, next);
      if ts[i].randomRecruit.None? {
        without := without + [DisplayName(ts[i])];
      }
      results := results + [result.value];
      next := result.next;
    }
    assert ts[..|ts|] == ts;
  }

  /** The final map of `resolve_all`: entry i gathers the results computed for input i. */
  method CombineResults(ts: seq<Territory>, income: seq<IncomeResult>, recruit: seq<RecruitResult>,
                        fixedRecruit: seq<Option<string>>, reputation: seq<Option<string>>,
                        fixedGear: seq<Option<string>>, battle: seq<Option<string>>,
                        scenario: seq<Option<string>>)
    returns (combined: seq<TerritoryResult>)
    requires |income| == |recruit| == |ts|
    requires |fixedRecruit| == |reputation| == |fixedGear| == |battle| == |scenario| == |ts|
    requires forall i :: 0 <= i < |ts| ==>
      fixedRecruit[i] == ResolveText(ts[i], FixedRecruit) && reputation[i] == ResolveText(ts[i], Reputation) &&
      fixedGear[i] == ResolveText(ts[i], FixedGear) && battle[i] == ResolveText(ts[i], BattleSpecialRules) &&
      scenario[i] == ResolveText(ts[i], ScenarioSelectionSpecialRules)
    ensures |combined| == |ts|
    ensures forall i :: 0 <= i < |ts| ==> combined[i] == Combine(ts[i], income[i], recruit[i])
  {
    combined := [];
    for i := 0 to |ts|
      invariant |combined| == i
      invariant forall j :: 0 <= j < i ==> combined[j] == Combine(ts[j], income[j], recruit[j])
    {
      combined := combined + [TerritoryResult(ts[i].id, ts[i], income[i], recruit[i], fixedRecruit[i],
                                              reputation[i], fixedGear[i], battle[i], scenario[i])];
    }
  }

  /** `resolve_all(territories, userInputCounts, selectedGang)`: the income pass reads the
      tape from `pos`, the recruit pass from where it stopped, and entry i of the output
      combines the results for input i. */
  method ResolveAll(territories: Option<seq<Territory>>, userCounts: seq<(string, int)>, gang: string,
                    tape: Tape, pos: nat)
    returns (r: Resolution, next: nat)
    ensures territories.None? ==> r == NotAnArray && next == pos
    ensures territories.Some? ==>
      var ts := territories.value;
      var income := IncomePass(ts, userCounts, gang, tape, pos);
      var recruit := RecruitPass(ts, tape, income.next);
      r.Resolved? && next == recruit.next &&
      |r.territories| == |ts| &&
      (forall i :: 0 <= i < |ts| ==> r.territories[i] == Combine(ts[i], income.value[i], recruit.value[i])) &&
      r.withoutIncome == WithoutList(ts, Income) &&
      r.withoutRecruit == WithoutList(ts, RandomRecruit) &&
      r.withoutFixedRecruit == WithoutList(ts, FixedRecruit) &&
      r.withoutReputation == WithoutList(ts, Reputation) &&
      r.withoutFixedGear == WithoutList(ts, FixedGear) &&
      r.withoutBattleSpecialRules == WithoutList(ts, BattleSpecialRules) &&
      r.withoutScenarioSelectionSpecialRules == WithoutList(ts, ScenarioSelectionSpecialRules) &&
      r.nilEvents == NilEvents(ts, income.value)
  {
    if territories.None? {
      return NotAnArray, pos;
    }
    var ts := territories.value;
    // All income rolls first, then all recruit rolls.
    var incomeResults, withoutIncome, nilEvents, incomeEnd := IncomePassLoop(ts, userCounts, gang, tape, pos);
    var recruitResults, withoutRecruit;
    recruitResults, withoutRecruit, next := RecruitPassLoop(ts, tape, incomeEnd);

    // Then the text rules, one rule type at a time.
    var fixedRecruit, withoutFixedRecruit := TextPass(ts, FixedRecruit);
    var reputation, withoutReputation := TextPass(ts, Reputation);
    var fixedGear, withoutFixedGear := TextPass(ts, FixedGear);
    var battle, withoutBattle := TextPass(ts, BattleSpecialRules);
    var scenario, withoutScenario := TextPass(ts, ScenarioSelectionSpecialRules);

    // Combine all results by territory.
    var combined := CombineResults(ts, incomeResults, recruitResults,
                                   fixedRecruit, reputation, fixedGear, battle, scenario);
    r := Resolved(combined, withoutIncome, withoutRecruit, withoutFixedRecruit, withoutReputation,
                  withoutFixedGear, withoutBattle, withoutScenario, nilEvents);
  }

  /** A territory is named in a "without" list exactly when its own field for that rule
      is falsy; a gang override does not count (`WithoutList` does not depend on the gang). */
  lemma {:induction false} WithoutListMembers(ts: seq<Territory>, k: RuleKind)
    ensures forall i :: 0 <= i < |ts| && !HasRule(ts[i], k) ==> DisplayName(ts[i]) in WithoutList(ts, k)
    ensures forall n :: n in WithoutList(ts, k) ==>
              exists i :: 0 <= i < |ts| && !HasRule(ts[i], k) && DisplayName(ts[i]) == n
  {
    if ts != [] {
      var init := ts[..|ts| - 1];
      WithoutListMembers(init, k);
      assert forall i :: 0 <= i < |init| ==> init[i] == ts[i];
    }
  }

  /** With every territory holding the rule, its "without" list is empty, and with none
      holding it, the list names every territory in order. */
  lemma {:induction false} WithoutListExtremes(ts: seq<Territory>, k: RuleKind)
    ensures (forall i :: 0 <= i < |ts| ==> HasRule(ts[i], k)) ==> WithoutList(ts, k) == []
    ensures (forall i :: 0 <= i < |ts| ==> !HasRule(ts[i], k)) ==>
              WithoutList(ts, k) == seq(|ts|, i requires 0 <= i < |ts| => DisplayName(ts[i]))
  {
    if ts != [] {
      var init := ts[..|ts| - 1];
      WithoutListExtremes(init, k);
      assert forall i :: 0 <= i < |init| ==> init[i] == ts[i];
    }
  }

  /** Rule-type-major order, income side: the income pass reads only the tape segment
      from `pos` up to where it stops, which is where the recruit pass starts. */
  lemma {:induction false} IncomePassReadsOwnSegment(ts: seq<Territory>, userCounts: seq<(string, int)>,
                                                     gang: string, t1: Tape, t2: Tape, pos: nat)
    requires forall k :: pos <= k < IncomePass(ts, userCounts, gang, t1, pos).next ==> t1(k) == t2(k)
    ensures IncomePass(ts, userCounts, gang, t1, pos) == IncomePass(ts, userCounts, gang, t2, pos)
  {
    if ts != [] {
      var init := ts[..|ts| - 1];
      var t := ts[|ts| - 1];
      var p := IncomePass(init, userCounts, gang, t1, pos);
      var last := ResolveIncome(t, UserCount(userCounts, t), gang, t1, p.next);
      assert last.next >= p.next;
      IncomePassReadsOwnSegment(init, userCounts, gang, t1, t2, pos);
      IncomeReadsOwnDice(t, UserCount(userCounts, t), gang, t1, t2, p.next);
    }
  }

  /** Rule-type-major order, recruit side: the recruit pass reads only its own segment,
      so no recruit die is drawn before the last income die. */
  lemma {:induction false} RecruitPassReadsOwnSegment(ts: seq<Territory>, t1: Tape, t2: Tape, pos: nat)
    requires forall k :: pos <= k < RecruitPass(ts, t1, pos).next ==> t1(k) == t2(k)
    ensures RecruitPass(ts, t1, pos) == RecruitPass(ts, t2, pos)
  {
    if ts != [] {
      var init := ts[..|ts| - 1];
      var t := ts[|ts| - 1];
      var p := RecruitPass(init, t1, pos);
      var last := ResolveRandomRecruit(t, t1, p.next);
      assert last.next >= p.next;
      RecruitPassReadsOwnSegment(init, t1, t2, pos);
      RecruitReadsOwnDice(t, t1, t2, p.next);
    }
  }

  /** A territory lands in the nil-event list exactly when its income result triggered
      the nil event. */
  lemma {:induction false} NilEventsMembers(ts: seq<Territory>, results: seq<IncomeResult>)
    requires |results| == |ts|
    ensures forall i :: 0 <= i < |ts| && results[i].IncomeRoll? && results[i].nilEventTriggered ==>
              NilEvent(ts[i].id, DisplayName(ts[i])) in NilEvents(ts, results)
    ensures forall e :: e in NilEvents(ts, results) ==>
              exists i :: 0 <= i < |ts| && results[i].IncomeRoll? && results[i].nilEventTriggered &&
                          e == NilEvent(ts[i].id, DisplayName(ts[i]))
  {
    if ts != [] {
      var n := |ts| - 1;
      NilEventsMembers(ts[..n], results[..n]);
      assert forall i :: 0 <= i < n ==> ts[..n][i] == ts[i] && results[..n][i] == results[i];
    }
  }
}
