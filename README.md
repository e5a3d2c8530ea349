# Rules resolution for a tabletop-campaign companion, in Dafny

This project models the rule-resolution core of a web companion for a skirmish
tabletop campaign. The core is a family of table-driven resolvers that all work the
same way: roll dice as a table's shape says, find the first outcome whose match list
contains the roll, then either stop or go on (reroll, a nested table, extra injuries).

- **Dice** (`dice.dfy`, module `Dice`). `Math.random` becomes a *tape*: the raw value
  handed out at each position. Every die reads the next position, so each resolver is a
  deterministic function of the tape and the position where it starts reading. Each
  result is returned with the first position it did not read.
- **Range matching** (`range_match.dfy`, module `RangeMatch`). The `isInRange` function
  and the first-match lookup are copied into four engines. Each is defined once here.
- **Loot boxes** (`loot_box_engine.dfy`). The d6, d66 and d3 tables, the income
  sub-roll, effect classification, and the nested-table reroll loop, which is bounded
  at 100 attempts.
- **Lasting injuries** (`lasting_injuries_engine.dfy`, and the older engine in
  `lasting_injuries_legacy.dfy`). The current-mode state, the multiple-injury and
  stabilised-injury loops with their excluded ids, and the rogue doc's treatment and
  cost.
- **XP tables** (`xp_tables_engine.dfy`). d66 tables, single dice and summed dice, the
  skill-table list and its display names.
- **Territory batch resolver** (`territory_engine.dfy`). Dice are consumed rule type by
  rule type. The module covers gang income overrides, the income formula with its
  duplicate-dice nil event, count-of-target recruitment, and the "without rule" lists.
- **Territory schemas** (`territory_schemas.dfy`). A three-layer shallow merge (base
  defaults, then schema preset, then the territory's own fields), gang-suffixed
  overrides, and validation. Territories here are JSON objects.
- **Campaign viewer** (`campaign_viewer_engine.dfy`). Shaping of fetched campaign data:
  gangs, territories, statistics, rating order, gang-to-id maps, normalisation of
  territory names, mapping validation, and the refresh cooldown.
- **Income page and settlement rule** (`income_rules.dfy`, `settlement.dfy`).

Objects the source updates in place are classes:

| Class | Source object |
|---|---|
| `LootBoxEngine.LootBox` | `LootBoxEngine` |
| `LastingInjuriesEngine.LastingInjuries` | `LastingInjuriesEngine` |
| `LegacyInjuries.LegacyInjuries` | the older `LastingInjuriesEngine` |
| `XpTablesEngine.XpTables` | `XPTablesEngine` |
| `CampaignViewerEngine.CampaignViewer` | `CampaignViewerEngine` |

Their loops are methods with invariants, each proved equal to a specification function
about which the properties are lemmas. `Common` (options, object lookup) and `JsText`
(JavaScript's `trim`, `split`, `Number`, `parseInt`, `String` and ASCII case mapping)
supply the language semantics the engines rely on.

## Model

| member | source | states |
|---|---|---|
| Dice.Die | _site/assets/js/dice.js:9-11 | a die with n >= 1 faces shows a value in 1..n, and a raw value that is already a face is shown as it is; a die with fewer than one face shows 1 |
| Dice.D6 | _site/assets/js/dice.js:4-6 | `d6()` lies in 1..6 |
| Dice.D66 | _site/assets/js/dice.js:13-15 | `d66()` is 10·a + b with a read first; it lies in 11..66 and both digits are 1..6 |
| Dice.D66Reachable | _site/assets/js/dice.js:13-15 | every two-digit value whose digits are 1..6 is some tape's d66 |
| Dice.RollsFrom | _site/assets/js/dice.js:49-59 | `rollMany(n, …)` gives max(n, 0) rolls in generation order; roll i reads the tape at pos + width·i; for `Dice.d` as the dice function it uses the corrected roll d(sides), not the written NaN (see Findings) |
| Dice.DrawAsWrittenAgrees | _site/assets/js/dice.js:52-56 | the written roll (`diceFunc.call(this)`) equals the corrected one for every dice function except `Dice.d`, where it is NaN |
| Dice.RollsInRange | _site/assets/js/dice.js:49-59 | every roll from d(sides), d6 or d66 is a face of that die |
| Dice.RollMany | _site/assets/js/dice.js:49-59 | the loop pushes exactly the rolls of `RollsFrom`, max(n, 0) of them, and advances the tape by one die width per roll; with `Dice.d` as the dice function these are the corrected rolls (see Findings) |
| Dice.RollManyWithDAsWritten | _site/assets/js/dice.js:47-53 | as written, the documented `rollMany(2, Dice.d, 8)` calls `d` with no argument, and every roll is NaN |
| Dice.RollManyWithDIntended | _site/assets/js/dice.js:47-55 | with the sides passed to `d`, the same call yields two d8 rolls, each in 1..8 |
| Dice.SumBounds | _site/assets/js/xpTablesEngine.js:35-36 | the sum of k rolls of an n-sided die lies in k..k·n |
| Dice.CountValue | _site/assets/js/dice.js:61-63 | `countValue` is the multiplicity of the value among the rolls, at most their number |
| Dice.DuplicatesIffCountTwo | _site/assets/js/territoryEngine.js:186 | the rolls have a duplicate iff some value is counted at least twice |
| Dice.D6Firepower | _site/assets/js/dice.js:17-29 | shots 1,1,2,2,3,1 for rolls 1..6; only a 6 jams |
| Dice.D6Injury | _site/assets/js/dice.js:31-43 | 1-2 flesh wound, 3-5 serious injury, 6 out of action, each iff |
| JsText.ToLowerChar | _site/assets/js/territoryEngine.js:148 | `toLowerCase` on one character: an upper-case ASCII letter moves 32 code points up to its lower-case letter; no upper-case letter remains; anything else is kept |
| JsText.ToUpperChar | _site/assets/js/xpTablesEngine.js:188 | `toUpperCase` on one character: a lower-case ASCII letter moves 32 code points down to its upper-case letter; no lower-case letter remains; anything else is kept |
| JsText.CaseRoundTrip | _site/assets/js/xpTablesEngine.js:188 | lowering then raising an upper-case letter gives it back, and raising then lowering a lower-case letter gives it back |
| RangeMatch.Tag | _site/assets/js/lootBoxEngine.js:41-44 | `{id, ...data}`: the key becomes the id unless the row has its own id, which wins; nothing else changes |
| RangeMatch.TagAll | _site/assets/js/lootBoxEngine.js:41-44 | the entries are tagged one by one, in entry order |
| RangeMatch.InRange | _site/assets/js/lootBoxEngine.js:54-70 | `isInRange` is true iff some entry contains the roll (exact number, inclusive hyphen range, or numeric string) |
| RangeMatch.FirstMatch | _site/assets/js/lootBoxEngine.js:46-51 | no result iff no row contains the roll; otherwise the result is the earliest row that does |
| RangeMatch.FirstMatchAt | _site/assets/js/lootBoxEngine.js:46-51 | conversely, the first row containing the roll is the one returned |
| RangeMatch.FindInEntries | _site/assets/js/lootBoxEngine.js:36-52 | `findResult` on a table: the first entry containing the roll, tagged with its id; null iff none contains it |
| RangeMatch.RangeEntryBounds | _site/assets/js/lootBoxEngine.js:59-62 | a range "lo-hi" contains exactly the rolls lo..hi, so lo-1 and hi+1 are outside |
| RangeMatch.NumericStringEntry | _site/assets/js/lootBoxEngine.js:63-66 | a numeric string entry "n" contains exactly the roll n |
| LootBoxEngine.ProcessIncome | _site/assets/js/lootBoxEngine.js:72-88 | null iff there is no rule; otherwise roll 0 without sides or a face of d(sides), and amount = roll · (multiplier or 1) |
| LootBoxEngine.LootBox.constructor | _site/assets/js/lootBoxEngine.js:4 | no data loaded |
| LootBoxEngine.LootBox.LoadLootData | _site/assets/js/lootBoxEngine.js:6-9 | stores the tables |
| LootBoxEngine.LootBox.GetTable | _site/assets/js/lootBoxEngine.js:11-17 | no table without data; otherwise the named table or none |
| LootBoxEngine.LootBox.RollDiceForTable | _site/assets/js/lootBoxEngine.js:19-34 | null iff the table is missing or its sides are not 66, 6 or 3; otherwise a d66, d6 or d3 in its range |
| LootBoxEngine.LootBox.FindResult | _site/assets/js/lootBoxEngine.js:36-52 | null for a missing table; otherwise the first tagged outcome containing the roll |
| LootBoxEngine.LootBox.ProcessRandomEffect | _site/assets/js/lootBoxEngine.js:90-108 | null iff the effect is empty; 'reroll' iff it is "reroll", even when a table has that name; a known table is pending, anything else unknown |
| LootBoxEngine.LootBox.NestedStep | _site/assets/js/lootBoxEngine.js:118-152 | one pass of the do-while loop stops on an error, records a reroll outcome, or lands on an outcome whose effect is not a reroll |
| LootBoxEngine.LootBox.RollNestedTable | _site/assets/js/lootBoxEngine.js:111-161 | the loop's result and tape position are those of the recursive specification `NestedFrom` |
| LootBoxEngine.LootBox.NestedNeverEndsOnReroll | _site/assets/js/lootBoxEngine.js:138-159 | a successful nested roll never ends on a reroll effect; its history is null iff no reroll happened, and otherwise holds 1..99 entries |
| LootBoxEngine.LootBox.StepWidth | _site/assets/js/lootBoxEngine.js:119 | each rerolling pass reads exactly one roll of the table |
| LootBoxEngine.LootBox.RerollHistoryInOrder | _site/assets/js/lootBoxEngine.js:138-143 | history entry k is the roll and outcome name of the k-th rerolled pass, in roll order |
| LootBoxEngine.LootBox.AllRerollsGiveUp | _site/assets/js/lootBoxEngine.js:143-150 | if every pass rerolls, the loop stops with "too many rerolls" after exactly 100 rolls |
| LootBoxEngine.LootBox.RollTable | _site/assets/js/lootBoxEngine.js:273-298 | fails iff the die cannot be rolled; otherwise reports the roll, its first outcome (or no result) and the classified effect, with no reroll loop |
| LootBoxEngine.LootBox.LootFor | _site/assets/js/lootBoxEngine.js:171-190 | no loot iff nothing matches, and then no die is read; loot carries the matched outcome, the classified effect, and as income result exactly `processIncome(result.income)` read from the position after the loot roll, which also gives the next position |
| LootBoxEngine.LootBox.OpenLootBox | _site/assets/js/lootBoxEngine.js:163-191 | fails iff the loot_box_roll die cannot be rolled; otherwise resolves the rolled value |
| LootBoxEngine.LootBox.TestRoll | _site/assets/js/lootBoxEngine.js:194-233 | null iff the value does not parse; no die is rolled for the lookup; with auto-resolve a pending table becomes a nested_table record of `rollNestedTable` |
| LootBoxEngine.LootBox.TestNestedTable | _site/assets/js/lootBoxEngine.js:236-270 | an error for a missing table; a given value is looked up without rolling (null if it does not parse); otherwise the reroll loop |
| LastingInjuriesEngine.FindOutcome | _site/assets/js/lastingInjuriesEngine.js:265-278 | the first treatment outcome containing the roll; NaN and error rolls match nothing |
| LastingInjuriesEngine.CostDiceBounds | _site/assets/js/lastingInjuriesEngine.js:258-261 | the summed cost dice lie between the number of dice and that number times the sides, and are nothing when `count` is zero or below (the loop does not run) |
| LastingInjuriesEngine.CostDiceStep | _site/assets/js/lastingInjuriesEngine.js:259-261 | each loop pass adds the next d(sides) to the total |
| LastingInjuriesEngine.ModeIn | _site/assets/js/lastingInjuriesEngine.js:198 | a mode's data is found iff the loaded data has that key |
| LastingInjuriesEngine.GetCurrentModeData | _site/assets/js/lastingInjuriesEngine.js:21-26 | the current mode's table, or null when no data is loaded or the mode is missing |
| LastingInjuriesEngine.RollDice | _site/assets/js/lastingInjuriesEngine.js:28-41 | a roll iff the mode's sides are 66 or 6; a d66 or a d6 accordingly; otherwise null with no die read |
| LastingInjuriesEngine.FindInjury | _site/assets/js/lastingInjuriesEngine.js:43-59 | null without mode data; otherwise the first tagged injury containing the roll |
| LastingInjuriesEngine.MultipleStep | _site/assets/js/lastingInjuriesEngine.js:86-96 | one loop pass adds at most one injury, never an excluded one, and the one it adds is the lookup of its roll |
| LastingInjuriesEngine.MultipleFrom | _site/assets/js/lastingInjuriesEngine.js:79-100 | at most `count` injuries, none with an excluded id, after at most 100 rolls |
| LastingInjuriesEngine.ProcessRandomEffects | _site/assets/js/lastingInjuriesEngine.js:103-120 | d3xpgain gives a d3 only; d3multipleinjuries gives a d3 and at most that many extra injuries; anything else gives both null |
| LastingInjuriesEngine.ProcessInjury | _site/assets/js/lastingInjuriesEngine.js:138-165 | a null roll gives the Error record; an unmatched roll gives the Unknown placeholder with no effects; a match carries its random effects |
| LastingInjuriesEngine.ResolveInjury | _site/assets/js/lastingInjuriesEngine.js:122-125 | rolls the mode's die and processes it; the roll is Error iff no die could be rolled |
| LastingInjuriesEngine.TestRoll | _site/assets/js/lastingInjuriesEngine.js:128-135 | null iff the value does not parse; otherwise processes the parsed roll |
| LastingInjuriesEngine.StabilisedStepSpec | _site/assets/js/lastingInjuriesEngine.js:178-189 | one pass succeeds iff its d66 finds a standard-table injury whose id is not excluded, and then keeps that roll and that injury |
| LastingInjuriesEngine.StabilisedFrom | _site/assets/js/lastingInjuriesEngine.js:167-195 | a found injury is a non-excluded standard-table lookup of a d66; after 100 failed rolls, null |
| LastingInjuriesEngine.StabilisedFromIsFirstSuccess | _site/assets/js/lastingInjuriesEngine.js:170-194 | the `while (attempts < maxAttempts)` loop is the first-success loop over its passes, one d66 (two tape positions) per pass, for the 100 passes left |
| LastingInjuriesEngine.FirstSuccessStops | _site/assets/js/lastingInjuriesEngine.js:177-189 | the loop returns the FIRST pass that succeeds: the result is some pass k's, every earlier pass failed, and no die is rolled after pass k; a null result means every pass failed |
| LastingInjuriesEngine.StabilisedNeedsData | _site/assets/js/lastingInjuriesEngine.js:177-194 | with no data loaded every pass fails, so the result is null after 100 rolls |
| LastingInjuriesEngine.RogueDocCost | _site/assets/js/lastingInjuriesEngine.js:246-263 | null iff the mode or its cost config is missing; otherwise (sum of dice) · multiplier + addition |
| LastingInjuriesEngine.RogueDocCostBounds | _site/assets/js/lastingInjuriesEngine.js:257-262 | the cost lies between count·multiplier + addition and count·sides·multiplier + addition |
| LastingInjuriesEngine.Treatment | _site/assets/js/lastingInjuriesEngine.js:218-243 | rolls d(sides) (NaN without sides); an unmatched roll gives the Unknown outcome and reads no more dice; a matched outcome with another effect gives no stabilised injury and reads no more dice; a stabilisedinjury outcome runs `StabilisedFrom` from the next position: none found gives no injury, otherwise the found roll and injury with their `ProcessRandomEffects`, and the tape continues after them |
| LastingInjuriesEngine.RogueDoc | _site/assets/js/lastingInjuriesEngine.js:197-244 | an unknown mode gives the Error outcome with null cost and reads no die; a given cost is kept; otherwise a cost only for trading_post_rogue_doc with a cost config, and then exactly `calculateRogueDocCost(mode)`; roll, outcome and stabilised injury are the treatment (`Treatment`) read from the position after the cost dice |
| LastingInjuriesEngine.LastingInjuries.constructor | _site/assets/js/lastingInjuriesEngine.js:4-5 | no data, standard mode |
| LastingInjuriesEngine.LastingInjuries.LoadInjuries | _site/assets/js/lastingInjuriesEngine.js:7-10 | stores the data and keeps the mode |
| LastingInjuriesEngine.LastingInjuries.SetMode | _site/assets/js/lastingInjuriesEngine.js:12-19 | the mode changes iff the loaded data has it; otherwise nothing changes |
| LastingInjuriesEngine.LastingInjuries.ResolveMultipleInjuries | _site/assets/js/lastingInjuriesEngine.js:79-100 | the while loop equals `MultipleFrom`: at most `count` injuries, none excluded, at most 100 rolls |
| LastingInjuriesEngine.LastingInjuries.ResolveStabilisedInjury | _site/assets/js/lastingInjuriesEngine.js:167-195 | the loop equals `StabilisedFrom` on the standard table, and the mode is restored on both exits |
| LastingInjuriesEngine.LastingInjuries.CalculateRogueDocCost | _site/assets/js/lastingInjuriesEngine.js:246-263 | the for loop equals `RogueDocCost` |
| LastingInjuriesEngine.LastingInjuries.ResolveTreatment | _site/assets/js/lastingInjuriesEngine.js:218-243 | equals `Treatment`; the state is unchanged afterwards |
| LastingInjuriesEngine.LastingInjuries.ResolveRogueDoc | _site/assets/js/lastingInjuriesEngine.js:197-244 | equals `RogueDoc`; the state is unchanged afterwards |
| LegacyInjuries.LegacyInjuries.constructor | assets/js/lastingInjuriesEngine.js:4 | no injuries |
| LegacyInjuries.LegacyInjuries.LoadInjuries | assets/js/lastingInjuriesEngine.js:6-16 | an array is stored unchanged; an object becomes its entries tagged with their keys, in entry order |
| LegacyInjuries.LegacyInjuries.FindInjury | assets/js/lastingInjuriesEngine.js:22-29 | null iff no injury contains the roll; otherwise the first one that does |
| LegacyInjuries.LegacyInjuries.ResolveInjury | assets/js/lastingInjuriesEngine.js:49-61 | rolls a d66 in 11..66; always an injury: the match, or the Unknown placeholder with no random effect |
| LegacyInjuries.LoadedObjectFindsFirstEntry | assets/js/lastingInjuriesEngine.js:9-12 | after loading an object, the first entry containing the roll is found, tagged with its key |
| XpTablesEngine.SidesNumber | _site/assets/js/xpTablesEngine.js:30 | numeric sides are used as they are; text sides go through parseInt |
| XpTablesEngine.DiceCount | _site/assets/js/xpTablesEngine.js:24 | `count \|\| 1`: never 0, and the table's count when it has one |
| XpTablesEngine.TableRoll | _site/assets/js/xpTablesEngine.js:19-39 | "d66" rolls a d66; count 1 rolls one d(n); otherwise the sum of `count` d(n); NaN sides give NaN |
| XpTablesEngine.TableRollBounds | _site/assets/js/xpTablesEngine.js:31-37 | with n >= 1 sides the roll lies in count..count·n |
| XpTablesEngine.D66TableRoll | _site/assets/js/xpTablesEngine.js:27-28 | a "d66" table rolls 11..66 with both digits 1..6 |
| XpTablesEngine.CapitalizeWordsSpec | _site/assets/js/xpTablesEngine.js:187-189 | split-capitalise-join upper-cases exactly the first character of each word and keeps the length |
| XpTablesEngine.ReplaceFirst | _site/assets/js/xpTablesEngine.js:186 | `replace('_', ' ')` changes only the first underscore |
| XpTablesEngine.SkillNameSpec | _site/assets/js/xpTablesEngine.js:186-189 | a skill name is the key's suffix with its first `_` a space and each word capitalised |
| XpTablesEngine.SkillTablesOf | _site/assets/js/xpTablesEngine.js:182-190 | every listed table has a skill_ id and the display name of that id |
| XpTablesEngine.SkillTablesFromKeys | _site/assets/js/xpTablesEngine.js:182-183 | every listed id is a key of the data |
| XpTablesEngine.SkillTablesOfComplete | _site/assets/js/xpTablesEngine.js:182-183 | every skill_ key is listed |
| XpTablesEngine.SkillTablesOfAppend | _site/assets/js/xpTablesEngine.js:182-190 | the list keeps key order: listing a + b lists a, then b |
| XpTablesEngine.XpTables.constructor | _site/assets/js/xpTablesEngine.js:4 | no data loaded |
| XpTablesEngine.XpTables.LoadXPData | _site/assets/js/xpTablesEngine.js:6-9 | stores the tables |
| XpTablesEngine.XpTables.GetTable | _site/assets/js/xpTablesEngine.js:11-17 | none without data or for a name that is not a key; otherwise the table under that key |
| XpTablesEngine.XpTables.RollDiceForTable | _site/assets/js/xpTablesEngine.js:19-39 | null iff the table is missing; otherwise the table's roll |
| XpTablesEngine.XpTables.FindResult | _site/assets/js/xpTablesEngine.js:41-57 | null for a missing table or a NaN roll; otherwise the first tagged result containing the roll |
| XpTablesEngine.XpTables.LookupOutcome | _site/assets/js/xpTablesEngine.js:85-96 | no result iff nothing matches; otherwise the roll and its result |
| XpTablesEngine.XpTables.RollAdvancement | _site/assets/js/xpTablesEngine.js:77-97 | "Failed to roll" iff the advancement table is missing; otherwise the lookup of the roll |
| XpTablesEngine.XpTables.RollSkillTable | _site/assets/js/xpTablesEngine.js:99-120 | "Failed to roll" iff the table is missing; otherwise the lookup of the roll, with the table name |
| XpTablesEngine.XpTables.TestRoll | _site/assets/js/xpTablesEngine.js:123-142 | null iff the value does not parse; otherwise the advancement lookup of that value, rolling nothing |
| XpTablesEngine.XpTables.TestSkillTable | _site/assets/js/xpTablesEngine.js:145-176 | an error for a missing table; a given value that parses is looked up on the named table exactly as `findResult(name, parseInt(rollValue))` with its no-result error naming roll and table, and no die is read; a value that does not parse gives null; without a value, `rollSkillTable` |
| XpTablesEngine.XpTables.GetSkillTables | _site/assets/js/xpTablesEngine.js:179-191 | empty without data; otherwise the skill tables of the data |
| TerritoryEngine.CollapseSpaces | _site/assets/js/territoryEngine.js:148 | replacing white-space runs by `_` leaves no white space and no new capitals |
| TerritoryEngine.CollapseRun | _site/assets/js/territoryEngine.js:148 | a white-space run alone becomes exactly one `_`, or nothing when it continues a run |
| TerritoryEngine.CollapseAppend | _site/assets/js/territoryEngine.js:148 | the replacement works piece by piece, a piece continuing a run iff the previous ends in white space |
| TerritoryEngine.CollapseWordThenRun | _site/assets/js/territoryEngine.js:148 | a word is kept as it is, the following maximal run becomes one `_`, and the rest is replaced the same way |
| TerritoryEngine.CollapseShortens | _site/assets/js/territoryEngine.js:148 | the replacement never lengthens the text and is the identity on text without white space |
| TerritoryEngine.GangIncomeKey | _site/assets/js/territoryEngine.js:148 | the key is `income_` followed by the lower-cased gang with white-space runs replaced (`CollapseSpaces`); it has no white space and no capitals |
| TerritoryEngine.EffectiveIncome | _site/assets/js/territoryEngine.js:146-152 | the base income, replaced by the gang's income only when a gang is selected and its key is present |
| TerritoryEngine.OrInt | _site/assets/js/territoryEngine.js:162-164 | `x \|\| d` on a number |
| TerritoryEngine.RollIncome | _site/assets/js/territoryEngine.js:162-220 | the rolls are `count` d(sides); total is their sum; the nil event fires iff nil_event is hasDuplicates and a roll repeats, and then credits are 0; otherwise multiplier·total + addition |
| TerritoryEngine.IncomeSides | _site/assets/js/territoryEngine.js:163 | `sides \|\| 6` is at least 1 |
| TerritoryEngine.ResolveIncome | _site/assets/js/territoryEngine.js:144-161 | no income record (0 credits, no die read) iff there is no effective income; otherwise the income roll |
| TerritoryEngine.IncomeCreditsBounds | _site/assets/js/territoryEngine.js:166-191 | max(count, 0) rolls, each a face of the die; without the nil event and with a positive multiplier, credits lie between the least and greatest totals |
| TerritoryEngine.NilEventNeedsTwoDice | _site/assets/js/territoryEngine.js:186-191 | with fewer than two dice the nil event never fires |
| TerritoryEngine.GangOverrideWithoutBaseIncome | _site/assets/js/territoryEngine.js:25-27 | a gang override rolls income even though the territory is still listed as without income |
| TerritoryEngine.IncomeReadsOwnDice | _site/assets/js/territoryEngine.js:178 | the income result depends only on the tape positions it reads |
| TerritoryEngine.RollsFromReadsOwnDice | _site/assets/js/territoryEngine.js:178 | a batch of rolls depends only on the positions it reads |
| TerritoryEngine.RecruitOutcome | _site/assets/js/territoryEngine.js:247-249 | the outcome for `String(matchCount)` when it is truthy, otherwise "No result defined for this roll." |
| TerritoryEngine.ResolveRandomRecruit | _site/assets/js/territoryEngine.js:224-264 | no recruit iff no rule; otherwise count d(sides) rolls, matchCount = multiplicity of target (at most the number of rolls), and the outcome for it |
| TerritoryEngine.UnreachableTargetNeverMatches | _site/assets/js/territoryEngine.js:238-244 | a target outside 1..sides is never matched |
| TerritoryEngine.RecruitReadsOwnDice | _site/assets/js/territoryEngine.js:241 | the recruit result depends only on the positions it reads |
| TerritoryEngine.ResolveText | _site/assets/js/territoryEngine.js:276-353 | a text rule returns its field iff that field is truthy |
| TerritoryEngine.IncomePass | _site/assets/js/territoryEngine.js:22-40 | one income result per territory, in input order |
| TerritoryEngine.RecruitPass | _site/assets/js/territoryEngine.js:42-52 | one recruit result per territory, in input order |
| TerritoryEngine.WithoutList | _site/assets/js/territoryEngine.js:25-27 | a without-rule list has at most one entry per territory |
| TerritoryEngine.NilEventsSnoc | _site/assets/js/territoryEngine.js:28-33 | a territory's nil event is appended after the earlier ones |
| TerritoryEngine.TextPass | _site/assets/js/territoryEngine.js:54-111 | one text result per territory, and its without-rule list |
| TerritoryEngine.IncomePassLoop | _site/assets/js/territoryEngine.js:22-40 | the income map with its pushes equals `IncomePass`, its without-income list and its nil events |
| TerritoryEngine.RecruitPassLoop | _site/assets/js/territoryEngine.js:42-52 | the recruit map equals `RecruitPass` and its without-recruit list |
| TerritoryEngine.CombineResults | _site/assets/js/territoryEngine.js:121-131 | entry i combines input i with the per-rule results at index i |
| TerritoryEngine.ResolveAll | _site/assets/js/territoryEngine.js:8-141 | not an array gives []; otherwise all income rolls come first, then all recruit rolls, the output keeps input length and order, and the seven lists and nil events follow the input |
| TerritoryEngine.WithoutListMembers | _site/assets/js/territoryEngine.js:25-27 | a territory's name (or id) is listed iff its own field for the rule is falsy |
| TerritoryEngine.WithoutListExtremes | _site/assets/js/territoryEngine.js:25-27 | no territory listed when all have the rule; all of them, in order, when none has it |
| TerritoryEngine.IncomePassReadsOwnSegment | _site/assets/js/territoryEngine.js:22-24 | the income pass depends only on its own stretch of the tape, so the recruit pass reads strictly after it |
| TerritoryEngine.RecruitPassReadsOwnSegment | _site/assets/js/territoryEngine.js:42-44 | the recruit pass depends only on its own stretch of the tape |
| TerritoryEngine.NilEventsMembers | _site/assets/js/territoryEngine.js:28-33 | a territory appears among the nil events iff its income roll triggered one |
| TerritorySchemas.Get | assets/js/territorySchemas.js:95 | a property lookup is present iff the key is |
| TerritorySchemas.Spread | assets/js/territorySchemas.js:83 | spreading an object copies its fields; null, booleans and numbers add nothing |
| TerritorySchemas.Merge | assets/js/territorySchemas.js:83-87 | a spread merge has the union of the keys, and the later layer wins |
| TerritorySchemas.GetIncomeSchema | assets/js/territorySchemas.js:58-60 | the named income preset, or {} for an unknown name |
| TerritorySchemas.GetRecruitSchema | assets/js/territorySchemas.js:63-65 | the named recruit preset, or {} for an unknown name |
| TerritorySchemas.BaseDefaults | assets/js/territorySchemas.js:72-74 | the income defaults for 'income', the recruit defaults for any other type |
| TerritorySchemas.Preset | assets/js/territorySchemas.js:77-83 | no preset without a truthy schema |
| TerritorySchemas.ResolveProperty | assets/js/territorySchemas.js:68-88 | null iff the property is falsy; otherwise the keys of all layers, each from the property, else the preset, else the base |
| TerritorySchemas.UnknownSchemaIsEmptyPreset | assets/js/territorySchemas.js:58-65 | an unknown schema name resolves as base merged with the property |
| TerritorySchemas.OwnFieldsWin | assets/js/territorySchemas.js:83 | a property that sets every default key resolves to itself |
| TerritorySchemas.GangKeysAreNotWritten | assets/js/territorySchemas.js:106-122 | a gang-suffixed key is never one of the keys the resolver writes |
| TerritorySchemas.PlainOverriddenValue | assets/js/territorySchemas.js:119-124 | each plain property takes its truthy gang value; other keys are untouched |
| TerritorySchemas.ResolvedTerritoryValue | assets/js/territorySchemas.js:91-128 | every key of the resolved territory has the value `ResolvedValue` states |
| TerritorySchemas.ResolveTerritory | assets/js/territorySchemas.js:91-128 | the step-by-step copy equals the key-by-key specification: income and random_recruit schema-resolved, gang values override when truthy |
| TerritorySchemas.ResolveKeepsOtherFields | assets/js/territorySchemas.js:92 | fields other than the six written ones keep their value |
| TerritorySchemas.NoGangNoOverride | assets/js/territorySchemas.js:95-105 | without a gang only income and random_recruit change, by schema resolution |
| TerritorySchemas.GangOverrideWins | assets/js/territorySchemas.js:105-124 | a truthy gang-suffixed value replaces the base one, schema-resolved for income and recruit |
| TerritorySchemas.PrototypeNamePassesAsWritten | assets/js/territorySchemas.js:145 | as written, "toString" passes the income check and "constructor" the recruit check, though neither is a preset |
| TerritorySchemas.SchemaErrors | assets/js/territorySchemas.js:144-155 | at most one error; none iff there is no truthy schema or the schema is a preset (corrected check, see Findings) |
| TerritorySchemas.TerritoryErrors | assets/js/territorySchemas.js:131-156 | at most four errors; none iff name and level are truthy and both schemas are known (corrected check, see Findings) |
| TerritorySchemas.PrototypeNameReported | assets/js/territorySchemas.js:144-147 | the corrected check reports an income schema named "toString" |
| TerritorySchemas.ValidateTerritory | assets/js/territorySchemas.js:131-161 | the pushed errors are `TerritoryErrors`, and valid iff there are none (corrected check, see Findings) |
| TerritorySchemas.AllErrorsEmptyIff | assets/js/territorySchemas.js:164-177 | the concatenated errors are empty iff every territory is valid |
| TerritorySchemas.ValidateAll | assets/js/territorySchemas.js:164-178 | the errors are the per-territory errors in input order; valid iff every territory is (corrected check, see Findings) |
| CampaignViewerEngine.Flatten | _site/assets/js/campaignViewerEngine.js:177-193 | flattening keeps every element: the length is the total of the parts |
| CampaignViewerEngine.BuildMapLastWins | _site/assets/js/campaignViewerEngine.js:338-342 | a key is in the map iff some pair has it, and its value is that of the last such pair |
| CampaignViewerEngine.AllMembers | _site/assets/js/campaignViewerEngine.js:169-172 | no members without data |
| CampaignViewerEngine.GangsOf | _site/assets/js/campaignViewerEngine.js:181-189 | one tagged gang per gang of the member |
| CampaignViewerEngine.AllGangsInMemberOrder | _site/assets/js/campaignViewerEngine.js:177-193 | gang k of member j sits after all earlier members' gangs, tagged with member j's username |
| CampaignViewerEngine.AllGangsOwned | _site/assets/js/campaignViewerEngine.js:177-193 | every listed gang is some member's gang, tagged with that member's username |
| CampaignViewerEngine.TerritoriesOf | _site/assets/js/campaignViewerEngine.js:220-229 | one owned territory per territory of the gang |
| CampaignViewerEngine.AvailableTerritories | _site/assets/js/campaignViewerEngine.js:214-235 | nothing available without data |
| CampaignViewerEngine.OwnedTerritoriesTagged | _site/assets/js/campaignViewerEngine.js:214-235 | every territory of every gang is owned, in gang order, tagged with the gang's name, type and colour |
| CampaignViewerEngine.SumWealthAppend | _site/assets/js/campaignViewerEngine.js:259 | wealth sums add up over concatenation |
| CampaignViewerEngine.WealthByMember | _site/assets/js/campaignViewerEngine.js:259 | total wealth is the sum of each member's gang wealth |
| CampaignViewerEngine.InsertByRatingPermutes | _site/assets/js/campaignViewerEngine.js:198-201 | inserting adds exactly the one gang |
| CampaignViewerEngine.InsertByRatingSorted | _site/assets/js/campaignViewerEngine.js:198-201 | inserting into a rating-ordered list keeps it ordered |
| CampaignViewerEngine.InsertByRatingStable | _site/assets/js/campaignViewerEngine.js:198-201 | the inserted gang goes after the gangs with its rating |
| CampaignViewerEngine.SortByRatingCorrect | _site/assets/js/campaignViewerEngine.js:198-201 | the sort is by rating, highest first, a permutation, and stable among equal ratings |
| CampaignViewerEngine.StatsAddUp | _site/assets/js/campaignViewerEngine.js:254-268 | the counts are the gang and territory totals, wealth the per-member sum, and all zero without data |
| CampaignViewerEngine.MappingPairsFromTypes | _site/assets/js/campaignViewerEngine.js:285-296 | every mapping pair comes from a gang whose type has a truthy id |
| CampaignViewerEngine.PlayerGangToIdSound | _site/assets/js/campaignViewerEngine.js:276-299 | every mapped gang name is a gang whose type maps to that non-empty id |
| CampaignViewerEngine.TerritoryNames | _site/assets/js/campaignViewerEngine.js:309-312 | a gang's territory names, in order |
| CampaignViewerEngine.PlayerGangTerritoriesLastWins | _site/assets/js/campaignViewerEngine.js:305-316 | a gang maps to its own territory names unless a later gang has the same name |
| CampaignViewerEngine.SuffixStart | _site/assets/js/campaignViewerEngine.js:324 | the leftmost position where the suffix pattern matches, or none |
| CampaignViewerEngine.MatchesAtIsPattern | _site/assets/js/campaignViewerEngine.js:324 | a match is spaces, "(", no ")", ")", spaces to the end |
| CampaignViewerEngine.PatternIsMatchesAt | _site/assets/js/campaignViewerEngine.js:324 | conversely, such a suffix matches |
| CampaignViewerEngine.NormalizeTerritoryNameSpec | _site/assets/js/campaignViewerEngine.js:323-325 | the trimmed name with the leftmost parenthesised suffix, and the spaces around it, removed; the result is trimmed |
| CampaignViewerEngine.NormalizeStripsGangSuffix | _site/assets/js/campaignViewerEngine.js:323-325 | "base (tag)" normalises to base |
| CampaignViewerEngine.LocalPairs | _site/assets/js/campaignViewerEngine.js:338-342 | one name/id pair per local territory |
| CampaignViewerEngine.CheckedNames | _site/assets/js/campaignViewerEngine.js:344 | every owned and available territory is checked |
| CampaignViewerEngine.ValidInvalidPartition | _site/assets/js/campaignViewerEngine.js:344-359 | each checked name goes into exactly one of valid and invalid, with its id when valid |
| CampaignViewerEngine.ValidIffLastLocalHasId | _site/assets/js/campaignViewerEngine.js:338-353 | a name is valid iff the last local territory with that normalised name has a truthy id |
| CampaignViewerEngine.MappingsReportTotals | _site/assets/js/campaignViewerEngine.js:333-366 | totalChecked is the number of names; valid and invalid add up to it; allValid iff invalid is empty; empty report without data |
| CampaignViewerEngine.CacheStamp | _site/assets/js/campaignViewerEngine.js:61-62 | no stamp without a cache time |
| CampaignViewerEngine.TimeUntilNextFetch | _site/assets/js/campaignViewerEngine.js:60-67 | never negative; 0 without a stamp; positive iff the cache is younger than 15 minutes, and then what is left of them |
| CampaignViewerEngine.TimeUntilNextFetchAfterSave | _site/assets/js/campaignViewerEngine.js:60-67 | after saving at `saved` the wait is max(0, 15 min - age), at most 15 minutes, and never grows with time |
| CampaignViewerEngine.CooldownRefusalNeverAsWritten | _site/assets/js/campaignViewerEngine.js:116-127 | as written the forced-refresh refusal can never happen, even with a fresh cache |
| CampaignViewerEngine.CooldownRefusalWhileValid | _site/assets/js/campaignViewerEngine.js:103-127 | corrected, a forced refresh is refused iff the cache is still valid, with the remaining wait |
| CampaignViewerEngine.BuildNameToId | _site/assets/js/campaignViewerEngine.js:338-342 | the forEach builds the normalised-name map |
| CampaignViewerEngine.SplitByMapping | _site/assets/js/campaignViewerEngine.js:344-359 | the loop pushes exactly the valid and invalid lists |
| CampaignViewerEngine.CampaignViewer.constructor | _site/assets/js/campaignViewerEngine.js:4 | no campaign data |
| CampaignViewerEngine.CampaignViewer.SetCampaignData | _site/assets/js/campaignViewerEngine.js:143 | stores the fetched data |
| CampaignViewerEngine.CampaignViewer.GetAllGangs | _site/assets/js/campaignViewerEngine.js:177-193 | the nested loops push exactly `AllGangs` |
| CampaignViewerEngine.CampaignViewer.GetGangsByRating | _site/assets/js/campaignViewerEngine.js:198-201 | ordered by rating and a permutation of all gangs |
| CampaignViewerEngine.CampaignViewer.GetAllTerritories | _site/assets/js/campaignViewerEngine.js:214-235 | owned and available are those of the specification |
| CampaignViewerEngine.CampaignViewer.GetCampaignStats | _site/assets/js/campaignViewerEngine.js:254-268 | the counts and the wealth sum of `Stats` |
| CampaignViewerEngine.CampaignViewer.GetPlayerGangToIdMapping | _site/assets/js/campaignViewerEngine.js:276-299 | the loops build `PlayerGangToId` |
| CampaignViewerEngine.CampaignViewer.GetPlayerGangTerritories | _site/assets/js/campaignViewerEngine.js:305-316 | the loop builds `PlayerGangTerritories` |
| CampaignViewerEngine.CampaignViewer.ValidateTerritoryMappings | _site/assets/js/campaignViewerEngine.js:332-367 | the report is `MappingsReport` |
| Settlement.Recruitment | assets/archive/settlement.js:8-14 | two sixes recruit a ganger or two juves, one a juve, any other count nobody, each iff |
| Settlement.SettlementOf | assets/archive/settlement.js:1-23 | type Settlement, income = roll · 10, the recruit rolls as given, recruitment by their sixes |
| Settlement.TwoDiceSettlement | js/income.js:22-46 | with two recruit dice the text follows their sixes, and a d6 income pays 10..60 in tens |
| Settlement.ArchiveSettlementRule | assets/archive/settlement.js:1-23 | income from rollDie(6) · 10; recruit rolls exactly rollNDice(2, 6); recruitment by their sixes |
| Settlement.SettlementRule | js/territories/settlement.js:1-23 | income from rollD6() · 10; recruit rolls exactly rollND6(2); recruitment by their sixes |
| Settlement.SettlementRulesAgree | js/territories/settlement.js:1-23 | both versions of the rule agree on equal dice |
| IncomeRules.RollND6 | js/income.js:9-15 | exactly max(n, 0) d6 rolls in order, each 1..6 |
| IncomeRules.CreditsPerPip | js/income.js:25 | every rule pays between 1 and 20 credits per pip |
| IncomeRules.TerritoryRuleIncome | js/income.js:21-75 | a rule exists iff the type is one of the five; each reports its own type and pays its credits per pip on one d6 |
| IncomeRules.SettlementRecruitDice | js/income.js:28-37 | the settlement's recruit dice are the two after the income die, and decide recruitment by their sixes |
| IncomeRules.ApplyTerritoryRule | js/income.js:21-75 | calling a rule gives the `TerritoryRule` result, the settlement rolling through `rollND6(2)` |

## Left out

- Page code is not modelled: DOM, `fetch`, `localStorage`, timers, `prompt`/`alert`, and `console` output. This covers the UI modules, `_site/assets/js/timer.js`, `generateIncome` and `clearLog` (js/income.js:81-112), and the campaign viewer's `fetchCampaignData`, `saveToCache`, `getCachedData`, `get/setCampaignId` and `getApiUrl`. `Date.now()` is a parameter `now`; both readings in one call are the same `now`.
- `Math.random` and its floating point are not modelled. A die reads an integer from the tape and folds it onto its faces. A die with no faces shows 1.
- Dice.Die: for a negative number of faces n, `Math.floor(Math.random() * n) + 1` gives a value in n+1..1; the model shows 1 for every n below 1.
- Description strings are not modelled. They only format the structured fields.
- `getCampaignStats` average rating is left out, because it is floating-point division rounded by `Math.round`. Numeric API fields (rating, wealth) are taken as integers.
- `getGangsByWealth`, `getTerritoryDistribution` and `getCampaignInfo` (_site/assets/js/campaignViewerEngine.js:161-167, 206-212, 240-252) are left out. They are display helpers outside the modelled core.
- `Dice.hasDuplicates` is called but defined in no dice file. It is modelled as "some value occurs twice".
- `Number` and `parseInt` read only optionally signed decimal integers (and `0x` hexadecimal for `parseInt`). Decimals, exponents and `Infinity` are left out.
- Case mapping is ASCII-only (`toLowerCase`/`toUpperCase` on letters A-Z). White space is JavaScript's `\s` set.
- Lookups on an object given as its entries find only its own keys, so an inherited `Object.prototype` name (`toString`, `constructor`, ...) counts as absent. Such names are modelled as written only in the schema-preset check of assets/js/territorySchemas.js (see Findings). They are not modelled in the `injuriesData[mode]`, `lootData[...]`, `xpData[...]`, `typeToId`, `nameToIdMap` and `territoryRules` lookups, where the source finds the inherited member and the result can differ (the lines below).
- LastingInjuriesEngine.LastingInjuries.SetMode: `setMode('toString')` switches the mode in the source, because `this.injuriesData[mode]` finds the inherited function (_site/assets/js/lastingInjuriesEngine.js:12-19); the model keeps the mode.
- LootBoxEngine.LootBox.GetTable: `this.lootData[tableName]` finds inherited names in the source (_site/assets/js/lootBoxEngine.js:11-17); the model reports no table. So `LootBoxEngine.LootBox.ProcessRandomEffect` gives `unknown` for `'constructor'`, where the source gives `pending_roll` (lines 90-108).
- XpTablesEngine.XpTables.GetTable: `this.xpData[tableName]` finds inherited names in the source (_site/assets/js/xpTablesEngine.js:11-16); the model reports no table. So `XpTablesEngine.XpTables.TestSkillTable('constructor')` reports "Table not found", where the source passes the guard (lines 145-149).
- LastingInjuriesEngine.RogueDoc: requires loaded data. Without it, `this.injuriesData[mode]` throws a TypeError, which the model does not represent.
- LootBoxEngine.LootBox.ProcessRandomEffect: requires loaded data for effects other than "" and "reroll". Without it, `this.lootData[randomeffect]` throws.
- TerritoryEngine.ResolveRandomRecruit: the `try`/`catch` error branch is left out. No modelled input makes the guarded code throw.
- TerritorySchemas.Spread: spreading a string or an array (index keys) is defined, but its keys are not characterised by the contract.
- Dice.RollsFrom: with `Dice.d` as the dice function it rolls d(sides), the corrected behaviour recorded under Findings. As written, `diceFunc.call(this)` gives NaN for every such roll. `Dice.DrawAsWritten` models that; no modelled caller passes `Dice.d`.
- Dice.RollMany: pushes the rolls of `Dice.RollsFrom`, so with `Dice.d` it gives the corrected rolls, not the written NaN.
- Dice.RollsFrom: dice functions that return objects, such as `Dice.d6_firepower` and `Dice.d6_injury` handed to `rollMany` (_site/assets/js/dice.js:48), are not modelled, because the rolls are integers. Those two functions are modelled on their own as `Dice.D6Firepower` and `Dice.D6Injury`.
- LastingInjuriesEngine.FindOutcome: an absent `results` object is taken as no entries, so the treatment reports the `'Unknown'` outcome. `findOutcome` (_site/assets/js/lastingInjuriesEngine.js:265-267) calls `Object.entries(results)` unguarded and throws a TypeError there; the model does not represent that throw. `Treatment` and `RogueDoc` inherit this.
- CampaignViewerEngine.AllMembers: a member's `user_info` is taken as present. For a member with gangs but no `user_info`, `member.user_info.username` (_site/assets/js/campaignViewerEngine.js:186) throws a TypeError; the model does not represent that throw. `GangsOf` and `AllGangs` inherit this.
- CampaignViewerEngine.PlayerGangTerritories: a gang's `territories` is either a list or absent. A truthy value that is not an array makes `(gang.territories || []).map` (_site/assets/js/campaignViewerEngine.js:312) throw; the model does not represent that value or the throw.
- The rule definitions are taken as loaded values. JSON files, and rules whose fields have types other than the ones modelled, are not read.
- `assets/js/dice.js`, `assets/js/territoryEngine.js` and `assets/js/main.js` are not part of this model. The first does not parse; the others are module plumbing.

## Findings

| source | as written | input that shows it | evidently intended | confidence | as-written member | corrected member |
|---|---|---|---|---|---|---|
| _site/assets/js/dice.js:47-53 | `diceFunc.call(this)` passes no argument, so `rollMany(2, Dice.d, 8)`, the documented way to roll two d8, calls `d(undefined)` | `rollMany(2, Dice.d, 8)`: every roll is NaN | the number of sides is passed on, giving two d8 | not executed | Dice.RollManyWithDAsWritten | Dice.RollManyWithDIntended |
| assets/js/territorySchemas.js:145, 152 | `this.incomeSchemas[name]` also finds `Object.prototype` members | an income schema "toString" (or a recruit schema "constructor") passes validation | a schema name is valid only if it is a defined preset | not executed | TerritorySchemas.PrototypeNamePassesAsWritten | TerritorySchemas.PrototypeNameReported |
| _site/assets/js/campaignViewerEngine.js:116-127 | a forced refresh is refused only when the cache is not valid but the wait is positive, which cannot both hold | now = 60000 with cache time "0": the cache is valid and 14 minutes remain, yet a forced refresh is never refused | a forced refresh within the cooldown (cache still valid) is refused with the time left | not executed | CampaignViewerEngine.CooldownRefusalNeverAsWritten | CampaignViewerEngine.CooldownRefusalWhileValid |
