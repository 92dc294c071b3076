/** Difficulty levels: the per-level settings and the drawing of a target
    price. The random source is replaced by explicit draw indices. */
module Levels {
  import opened Coins

  /** What a level allows: the largest price, the price granularity and the
      coins offered in the wallet, largest first. */
  datatype LevelConfig = LevelConfig(max: nat, step: nat, available: seq<Coin>)

  /** Level 1 pays with 100-yen coins only, level 2 adds 50 and 10, level 3
      offers every coin; an unknown level is set up like level 1. */
  function GetLevelConfig(lvl: int): (c: LevelConfig)
    ensures c.max == 900
    ensures 0 < c.step && c.available != []
    ensures c.available[|c.available| - 1] == c.step
    ensures forall j :: 0 <= j < |c.available| ==> c.available[j] % c.step == 0
    ensures forall j, k :: 0 <= j < k < |c.available| ==> c.available[j] > c.available[k]
  {
    if lvl == 1 then LevelConfig(900, 100, [100])
    else if lvl == 2 then LevelConfig(900, 10, [100, 50, 10])
    else if lvl == 3 then LevelConfig(900, 1, [500, 100, 50, 10, 5, 1])
    else LevelConfig(900, 100, [100])
  }

  /** Any level other than 1, 2 and 3 falls back to the level 1 settings. */
  lemma UnknownLevelIsLevelOne(lvl: int)
    requires lvl != 1 && lvl != 2 && lvl != 3
    ensures GetLevelConfig(lvl) == GetLevelConfig(1)
  {
  }

  /** How many values one draw can take: `floor(random * n + 1)` lies in 1..n. */
  function DrawCount(lvl: int): nat {
    if lvl == 1 then 9 else if lvl == 2 then 89 else 899
  }

  predicate ValidDraw(lvl: int, k: int) {
    1 <= k <= DrawCount(lvl)
  }

  /** One draw index for every pass of the retry loop that may need it. */
  predicate DrawsOk(lvl: int, draws: seq<int>) {
    |draws| > 0 && forall i :: 0 <= i < |draws| ==> ValidDraw(lvl, draws[i])
  }

  /** The amount one pass of the retry loop computes from draw index `k`. */
  function DrawnAmount(lvl: int, k: int): int {
    if lvl == 1 then k * 100
    else if lvl == 2 then k * 10
    else k
  }

  /** A price is acceptable for a level: positive, within the maximum and,
      on levels 1 to 3, a multiple of the level's step. */
  predicate TargetOk(lvl: int, t: int) {
    0 < t <= GetLevelConfig(lvl).max &&
    (1 <= lvl <= 3 ==> t % GetLevelConfig(lvl).step == 0)
  }

  /** The `do ... while` retry loop that picks a target price, consuming one
      draw per pass. With draws in range the retry condition never holds,
      so the body runs exactly once. */
  method DrawTarget(lvl: int, draws: seq<int>) returns (amount: int, passes: nat)
    requires DrawsOk(lvl, draws)
    ensures passes == 1
    ensures amount == DrawnAmount(lvl, draws[0])
    ensures TargetOk(lvl, amount)
  {
    var config := GetLevelConfig(lvl);
    amount, passes := 0, 0;
    while passes == 0 || amount == 0 || amount > config.max
      invariant passes <= 1
      invariant passes == 1 ==> amount == DrawnAmount(lvl, draws[0]) && 0 < amount <= config.max
      decreases 1 - passes
    {
      amount := DrawnAmount(lvl, draws[passes]);
      passes := passes + 1;
    }
  }

  /** The prices a level can produce are exactly 100..900 in hundreds on
      level 1, 10..890 in tens on level 2 and 1..899 otherwise. */
  lemma TargetsOfLevel(lvl: int, t: int)
    ensures (exists k :: ValidDraw(lvl, k) && DrawnAmount(lvl, k) == t) <==>
            (if lvl == 1 then 100 <= t <= 900 && t % 100 == 0
             else if lvl == 2 then 10 <= t <= 890 && t % 10 == 0
             else 1 <= t <= 899)
  {
    if lvl == 1 && 100 <= t <= 900 && t % 100 == 0 {
      assert ValidDraw(lvl, t / 100) && DrawnAmount(lvl, t / 100) == t;
    } else if lvl == 2 && 10 <= t <= 890 && t % 10 == 0 {
      assert ValidDraw(lvl, t / 10) && DrawnAmount(lvl, t / 10) == t;
    } else if lvl != 1 && lvl != 2 && 1 <= t <= 899 {
      assert ValidDraw(lvl, t) && DrawnAmount(lvl, t) == t;
    }
  }

  /** The step guarantee is limited to levels 1 to 3: any other level draws
      from 1..899 while its step is 100, so draw 1 gives a price of 1. */
  lemma UnknownLevelBreaksStep(lvl: int)
    requires lvl != 1 && lvl != 2 && lvl != 3
    ensures ValidDraw(lvl, 1) && DrawnAmount(lvl, 1) % GetLevelConfig(lvl).step != 0
  {
  }

  /** Every acceptable price of levels 1 to 3 can be paid exactly with the
      coins that level offers, so every problem has a solution. */
  lemma TargetPayable(lvl: int, t: int)
    requires 1 <= lvl <= 3 && TargetOk(lvl, t)
    ensures exists tray: seq<Coin> :: Sum(tray) == t &&
              forall j :: 0 <= j < |tray| ==> tray[j] in GetLevelConfig(lvl).available
  {
    var c := GetLevelConfig(lvl);
    var coin := c.available[|c.available| - 1];
    var n := t / c.step;
    assert coin * n == t;
    var tray := Repeat(coin, n);
    SumRepeat(coin, n);
    assert forall j :: 0 <= j < |tray| ==> tray[j] in c.available;
  }
}
