/** The dice helpers (`_site/assets/js/dice.js`). `Math.random` becomes a tape: the raw
    value the random source hands out at each position. Each die reads the next
    position, so every roll is determined by the tape and the position it starts at. */
module Dice {
  import opened Common

  /** The random source: the raw value handed out at each position. */
  type Tape = nat -> int

  /** A value computed from the tape, with the first position it did not read. */
  datatype Rolled<+T> = Rolled(value: T, next: nat)

  /** One die with `n` faces reading the raw value `raw`. A raw value that is already a
      face is that face; any other is folded onto the faces. A die with no faces
      (n <= 0) shows 1, one of the values `Math.floor(Math.random() * n) + 1` gives. */
  function Die(raw: int, n: int): (r: int)
    ensures n >= 1 ==> 1 <= r <= n
    ensures 1 <= raw <= n ==> r == raw
    ensures n < 1 ==> r == 1
  {
    if n >= 1 then (raw - 1) % n + 1 else 1
  }

  /** `Dice.d(n)` at position `pos`. */
  function D(t: Tape, pos: nat, n: int): int {
    Die(t(pos), n)
  }

  /** `Dice.d6()` at position `pos`. */
  function D6(t: Tape, pos: nat): (r: int)
    ensures 1 <= r <= 6
  {
    D(t, pos, 6)
  }

  /** `Dice.d66()`: two d6 read left to right, the first as the tens digit. */
  function D66(t: Tape, pos: nat): (r: int)
    ensures 11 <= r <= 66
    ensures 1 <= r / 10 <= 6 && 1 <= r % 10 <= 6
  {
    D6(t, pos) * 10 + D6(t, pos + 1)
  }

  /** Every two-digit value whose digits are both 1..6 is a possible d66. */
  lemma D66Reachable(v: int)
    requires 1 <= v / 10 <= 6 && 1 <= v % 10 <= 6
    ensures D66((i: nat) => if i == 0 then v / 10 else v % 10, 0) == v
  {
    var t: Tape := (i: nat) => if i == 0 then v / 10 else v % 10;
    assert D6(t, 0) == v / 10;
    assert D6(t, 1) == v % 10;
  }

  /** The integer-valued functions `rollMany` can be handed: none (it then rolls
      `d(sides)`), `Dice.d6`, `Dice.d66`, or `Dice.d` itself. Functions that return
      objects, such as `Dice.d6_firepower`, are not among them. */
  datatype DiceFunc = NoFunc | UseD6 | UseD66 | UseD

  /** Tape positions one call of the dice function reads. */
  function Width(f: DiceFunc): (w: nat)
    ensures 1 <= w <= 2
  {
    if f == UseD66 then 2 else 1
  }

  /** One roll of `rollMany` as intended: `Dice.d` is given the number of sides. */
  function Draw(t: Tape, pos: nat, f: DiceFunc, sides: int): int {
    match f
    case NoFunc => D(t, pos, sides)
    case UseD6 => D6(t, pos)
    case UseD66 => D66(t, pos)
    case UseD => D(t, pos, sides)
  }

  /** One roll of `rollMany` as written: `diceFunc.call(this)` passes no argument, so
      `Dice.d` multiplies by `undefined` and gives NaN (`None`). */
  function DrawAsWritten(t: Tape, pos: nat, f: DiceFunc, sides: int): Option<int> {
    match f
    case NoFunc => Some(D(t, pos, sides))
    case UseD6 => Some(D6(t, pos))
    case UseD66 => Some(D66(t, pos))
    case UseD => None
  }

  /** The written and the intended roll agree for every dice function except `Dice.d`,
      which as written never yields a number. */
  lemma DrawAsWrittenAgrees(t: Tape, pos: nat, f: DiceFunc, sides: int)
    ensures DrawAsWritten(t, pos, f, sides) == Some(Draw(t, pos, f, sides)) <==> f != UseD
    ensures f == UseD ==> DrawAsWritten(t, pos, f, sides).None?
  {
  }

  /** The documented call `Dice.rollMany(2, Dice.d, 8)` ("rolls two d8") yields NaN for
      every roll as written. */
  lemma RollManyWithDAsWritten(t: Tape, pos: nat)
    ensures DrawAsWritten(t, pos, UseD, 8) == None
    ensures DrawAsWritten(t, pos + 1, UseD, 8) == None
  {
  }

  /** With the number of sides passed on, the same call rolls two d8. */
  lemma RollManyWithDIntended(t: Tape, pos: nat)
    ensures RollsFrom(t, pos, 2, UseD, 8) == [D(t, pos, 8), D(t, pos + 1, 8)]
    ensures forall r :: r in RollsFrom(t, pos, 2, UseD, 8) ==> 1 <= r <= 8
  {
    RollsInRange(t, pos, 2, UseD, 8);
  }

  /** The rolls `rollMany(n, diceFunc, sides)` produces from position `pos`, in the order
      they are generated: roll i reads the tape at `pos + Width * i`. */
  function RollsFrom(t: Tape, pos: nat, n: int, f: DiceFunc, sides: int): (r: seq<int>)
    ensures |r| == if n > 0 then n else 0
    ensures forall i :: 0 <= i < |r| ==> r[i] == Draw(t, pos + Width(f) * i, f, sides)
    decreases n
  {
    if n <= 0 then [] else RollsFrom(t, pos, n - 1, f, sides) + [Draw(t, pos + Width(f) * (n - 1), f, sides)]
  }

  /** Every roll is a face of the die that produced it. */
  lemma RollsInRange(t: Tape, pos: nat, n: int, f: DiceFunc, sides: int)
    ensures f == NoFunc || f == UseD ==> forall r :: r in RollsFrom(t, pos, n, f, sides) && sides >= 1 ==> 1 <= r <= sides
    ensures f == UseD6 ==> forall r :: r in RollsFrom(t, pos, n, f, sides) ==> 1 <= r <= 6
    ensures f == UseD66 ==> forall r :: r in RollsFrom(t, pos, n, f, sides) ==> 11 <= r <= 66
  {
  }

  /** `Dice.rollMany(n, diceFunc, sides)`: exactly `max(n, 0)` rolls in generation order. */
  method RollMany(n: int, f: DiceFunc, sides: int, t: Tape, pos: nat) returns (rolls: seq<int>, next: nat)
    ensures rolls == RollsFrom(t, pos, n, f, sides)
    ensures |rolls| == (if n > 0 then n else 0)
    ensures next == pos + Width(f) * |rolls|
  {
    rolls := [];
    next := pos;
    var i := 0;
    while i < n
      invariant 0 <= i <= (if n > 0 then n else 0)
      invariant rolls == RollsFrom(t, pos, i, f, sides)
      invariant next == pos + Width(f) * i
    {
      assert RollsFrom(t, pos, i + 1, f, sides) == rolls + [Draw(t, next, f, sides)];
      assert Width(f) * (i + 1) == Width(f) * i + Width(f);
      rolls := rolls + [Draw(t, next, f, sides)];
      next := next + Width(f);
      i := i + 1;
    }
  }

  /** The sum of a list of rolls (`rolls.reduce((sum, roll) => sum + roll, 0)`). */
  function Sum(s: seq<int>): int {
    if s == [] then 0 else Sum(s[..|s| - 1]) + s[|s| - 1]
  }

  /** The sum of `k` rolls of an `n`-sided die lies between `k` and `k * n`. */
  lemma {:induction false} SumBounds(s: seq<int>, n: int)
    requires forall i :: 0 <= i < |s| ==> 1 <= s[i] <= n
    ensures |s| <= Sum(s) <= |s| * n
  {
    if s != [] {
      SumBounds(s[..|s| - 1], n);
    }
  }

  /** `Dice.countValue(rolls, value)`: how many rolls equal the value. */
  function CountValue(rolls: seq<int>, value: int): (r: nat)
    ensures r == multiset(rolls)[value]
    ensures r <= |rolls|
  {
    if rolls == [] then 0
    else
      assert rolls == [rolls[0]] + rolls[1..];
      (if rolls[0] == value then 1 else 0) + CountValue(rolls[1..], value)
  }

  /** `Dice.hasDuplicates(rolls)`, which the territory engine calls but no dice file shown
      defines: some value occurs twice. */
  predicate HasDuplicates(rolls: seq<int>) {
    exists i, j :: 0 <= i < j < |rolls| && rolls[i] == rolls[j]
  }

  /** A list has a duplicate exactly when some value is counted at least twice. */
  lemma DuplicatesIffCountTwo(rolls: seq<int>)
    ensures HasDuplicates(rolls) <==> exists v :: v in rolls && CountValue(rolls, v) >= 2
  {
    if HasDuplicates(rolls) {
      DuplicateCountedTwice(rolls);
    }
    if exists v :: v in rolls && CountValue(rolls, v) >= 2 {
      var v :| v in rolls && CountValue(rolls, v) >= 2;
      CountedTwiceDuplicate(rolls, v);
    }
  }

  lemma {:induction false} DuplicateCountedTwice(rolls: seq<int>)
    requires HasDuplicates(rolls)
    ensures exists v :: v in rolls && CountValue(rolls, v) >= 2
  {
    var i, j :| 0 <= i < j < |rolls| && rolls[i] == rolls[j];
    var rest := rolls[1..];
    if i == 0 {
      assert rest[j - 1] == rolls[0];
      assert CountValue(rest, rolls[0]) >= 1;
      assert CountValue(rolls, rolls[0]) >= 2;
    } else {
      assert rest[i - 1] == rest[j - 1];
      DuplicateCountedTwice(rest);
      var v :| v in rest && CountValue(rest, v) >= 2;
      assert v in rolls && CountValue(rolls, v) >= CountValue(rest, v);
    }
  }

  lemma {:induction false} CountedTwiceDuplicate(rolls: seq<int>, v: int)
    requires CountValue(rolls, v) >= 2
    ensures HasDuplicates(rolls)
  {
    var rest := rolls[1..];
    if rolls[0] == v {
      assert CountValue(rest, v) >= 1;
      assert v in multiset(rest);
      var j :| 0 <= j < |rest| && rest[j] == v;
      assert rolls[j + 1] == rolls[0];
    } else {
      assert CountValue(rest, v) >= 2;
      CountedTwiceDuplicate(rest, v);
      var i, j :| 0 <= i < j < |rest| && rest[i] == rest[j];
      assert rolls[i + 1] == rolls[j + 1];
    }
  }

  /** One row of the `d6_firepower` table. */
  datatype Firepower = Firepower(roll: int, shots: int, jam: bool, text: string)

  /** `Dice.d6_firepower()`: 1-2 one hit, 3-4 two hits, 5 three hits, 6 one hit and an
      ammo check (the only jam). */
  function D6Firepower(t: Tape, pos: nat): (r: Firepower)
    ensures r.roll == D6(t, pos)
    ensures r.jam <==> r.roll == 6
    ensures r.shots == (if r.roll <= 2 || r.roll == 6 then 1 else if r.roll <= 4 then 2 else 3)
  {
    var roll := D6(t, pos);
    if roll <= 2 then Firepower(roll, 1, false, "One hit")
    else if roll <= 4 then Firepower(roll, 2, false, "Two hits")
    else if roll == 5 then Firepower(roll, 3, false, "Three hits")
    else Firepower(roll, 1, true, "One hit and Ammo check")
  }

  /** One row of the `d6_injury` table. */
  datatype InjuryRoll = InjuryRoll(roll: int, result: string)

  /** `Dice.d6_injury()`: 1-2 flesh wound, 3-5 serious injury, 6 out of action. */
  function D6Injury(t: Tape, pos: nat): (r: InjuryRoll)
    ensures r.roll == D6(t, pos)
    ensures r.result == "Flesh wound" <==> r.roll <= 2
    ensures r.result == "Serious injury" <==> 3 <= r.roll <= 5
    ensures r.result == "Out of action" <==> r.roll == 6
  {
    var roll := D6(t, pos);
    if roll <= 2 then InjuryRoll(roll, "Flesh wound")
    else if roll <= 5 then InjuryRoll(roll, "Serious injury")
    else InjuryRoll(roll, "Out of action")
  }
}
