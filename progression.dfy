// The player progression store (Assets/Scripts/PlayerStats.cs): a record of
// level, experience, gold and completed focus sessions, the cumulative
// experience threshold of each level, the level-up loop, and the save slot
// the record is written to after every change.
module Progression {

  /** One player's record (PlayerData), with the defaults of a new player. */
  datatype PlayerData = PlayerData(level: int, experience: int, gold: int, totalFocusSessions: int)

  const NewPlayer := PlayerData(1, 0, 0, 0)

  /** The persisted key: absent until the first save. */
  datatype SaveSlot = Absent | Stored(record: PlayerData)

  /**
   * Level settings: baseExpRequired and expMultiplier, the multiplier kept
   * exact as the fraction multNum / multDen (the default 1.5 is 3 / 2).
   */
  datatype LevelSettings = LevelSettings(baseExpRequired: int, multNum: int, multDen: int)

  /** Settings under which the thresholds grow without bound. */
  predicate Growing(c: LevelSettings) {
    c.baseExpRequired >= 1 && c.multDen >= 1 && c.multNum > c.multDen
  }

  type GrowingSettings = c: LevelSettings | Growing(c) witness LevelSettings(100, 3, 2)

  const DefaultSettings: GrowingSettings := LevelSettings(100, 3, 2)

  // ---------------------------------------------------------------------------
  // Arithmetic
  // ---------------------------------------------------------------------------

  function Pow(b: int, n: nat): (r: int)
    ensures b >= 1 ==> r >= 1
    ensures b >= 0 ==> r >= 0
  {
    if n == 0 then 1 else b * Pow(b, n - 1)
  }

  lemma MulLe(a: int, b: int, c: int)
    requires a <= b && c >= 0
    ensures a * c <= b * c
  {
    assert b * c - a * c == (b - a) * c;
  }

  lemma MulCancel(a: int, b: int, q: int)
    requires q > 0 && b * q <= a * q
    ensures b <= a
  {
    if a < b {
      MulLe(a + 1, b, q);
    }
  }

  /**
   * Rounding to the nearest integer with ties to the even neighbour, as
   * Mathf.RoundToInt does, applied exactly to the fraction p / q.
   */
  function RoundHalfEven(p: int, q: int): (r: int)
    requires q > 0
    ensures q * (2 * r - 1) <= 2 * p <= q * (2 * r + 1)
    ensures 2 * p == q * (2 * r - 1) || 2 * p == q * (2 * r + 1) ==> r % 2 == 0
  {
    var f, m := p / q, p % q;
    if 2 * m < q then f
    else if 2 * m > q then f + 1
    else if f % 2 == 0 then f
    else f + 1
  }

  lemma RoundOfInteger(n: int)
    ensures RoundHalfEven(n, 1) == n
  {
  }

  /** Rounding preserves the order of fractions. */
  lemma RoundMonotone(p1: int, q1: int, p2: int, q2: int)
    requires q1 > 0 && q2 > 0 && p1 * q2 <= p2 * q1
    ensures RoundHalfEven(p1, q1) <= RoundHalfEven(p2, q2)
  {
    var r1, r2 := RoundHalfEven(p1, q1), RoundHalfEven(p2, q2);
    if r1 > r2 {
      // 2·p1/q1 >= 2·r1 - 1 >= 2·r2 + 1 >= 2·p2/q2 >= 2·p1/q1, so every step is
      // an equality: both fractions are ties, rounded to r1 = r2 + 1 and to r2,
      // which cannot both be even.
      var e := 2 * r2 + 1;
      MulLe(e, 2 * r1 - 1, q1);
      assert q1 * e <= 2 * p1;
      MulLe(q1 * e, 2 * p1, q2);
      MulLe(2 * p2, q2 * e, q1);
      assert (2 * p1) * q2 == e * q1 * q2;
      MulCancel(2 * p1, e * q1, q2);
      MulCancel(e * q1, 2 * p1, q2);
      assert (2 * p2) * q1 == e * q2 * q1;
      MulCancel(2 * p2, e * q2, q1);
      MulCancel(e * q2, 2 * p2, q1);
      MulCancel(e, 2 * r1 - 1, q1);
      assert false;
    }
  }

  /** (num / den)^k ≥ 1 + k·(num/den − 1), with the denominators cleared. */
  lemma {:induction false} Bernoulli(num: int, den: int, k: nat)
    requires 1 <= den <= num
    ensures Pow(num, k) * den >= Pow(den, k) * (den + k * (num - den))
  {
    if k > 0 {
      Bernoulli(num, den, k - 1);
      BernoulliStep(Pow(num, k - 1), Pow(den, k - 1), num, den, k - 1);
    }
  }

  lemma BernoulliStep(a: int, d: int, num: int, den: int, j: nat)
    requires 1 <= den <= num && d >= 0
    requires a * den >= d * (den + j * (num - den))
    ensures (num * a) * den >= (den * d) * (den + (j + 1) * (num - den))
  {
    var x := den + j * (num - den);
    MulLe(d * x, a * den, num);
    assert (num * a) * den == (a * den) * num;
    assert (d * x) * num == d * (num * x);
    assert num * x - den * (x + num - den) == (num - den) * (j * (num - den));
    MulLe(0, j * (num - den), num - den);
    MulLe(den * (x + num - den), num * x, d);
    assert (den * d) * (den + (j + 1) * (num - den)) == d * (den * (x + num - den));
  }

  lemma PowMonotoneBase(a: int, b: int, k: nat)
    requires 0 <= a <= b
    ensures Pow(a, k) <= Pow(b, k)
  {
    if k > 0 {
      PowMonotoneBase(a, b, k - 1);
      MulLe(a, b, Pow(a, k - 1));
      MulLe(Pow(a, k - 1), Pow(b, k - 1), b);
    }
  }

  // ---------------------------------------------------------------------------
  // Level thresholds
  // ---------------------------------------------------------------------------

  /**
   * GetExpRequiredForLevel: the cumulative experience needed to reach a
   * level; 0 up to level 1, then baseExpRequired · expMultiplier^(level − 2)
   * rounded to the nearest integer.
   */
  function ExpRequiredForLevel(c: LevelSettings, level: int): (r: int)
    requires c.multDen >= 1
    ensures level <= 1 ==> r == 0
    ensures level >= 2 ==>
      var q := Pow(c.multDen, level - 2);
      q * (2 * r - 1) <= 2 * (c.baseExpRequired * Pow(c.multNum, level - 2)) <= q * (2 * r + 1)
  {
    if level <= 1 then 0
    else RoundHalfEven(c.baseExpRequired * Pow(c.multNum, level - 2), Pow(c.multDen, level - 2))
  }

  /** Under growing settings, multDen · threshold(level) ≥ level − 1: thresholds are unbounded. */
  lemma ThresholdGrows(c: GrowingSettings, level: int)
    ensures c.multDen * ExpRequiredForLevel(c, level) >= level - 1
  {
    if level >= 2 {
      var k: nat := level - 2;
      var den, num := c.multDen, c.multNum;
      var a, q := Pow(num, k), Pow(den, k);
      var p := c.baseExpRequired * a;
      var r := ExpRequiredForLevel(c, level);
      Bernoulli(num, den, k);
      GrowthArith(a, q, c.baseExpRequired, r, num, den, k);
    }
  }

  lemma GrowthArith(a: int, q: int, b: int, r: int, num: int, den: int, k: nat)
    requires 1 <= den < num && q >= 1 && b >= 1 && a >= 0
    requires a * den >= q * (den + k * (num - den))
    requires 2 * (b * a) <= q * (2 * r + 1)
    ensures den * r >= k + 1
  {
    var u := b * a;
    assert q * (den + k) <= u * den by {
      MulLe(1, num - den, k);
      MulLe(den + k, den + k * (num - den), q);
      MulLe(1, b, a * den);
      assert b * (a * den) == u * den;
    }
    var w := (2 * r + 1) * den;
    assert 2 * (den + k) <= w by {
      MulLe(2 * u, q * (2 * r + 1), den);
      assert q * (2 * r + 1) * den == w * q;
      MulCancel(w, 2 * (den + k), q);
    }
    assert w == 2 * (den * r) + den;
  }

  /** Holding `experience` at a level bounds the level: the loop measure. */
  lemma LevelBound(c: GrowingSettings, level: int, experience: int)
    requires ExpRequiredForLevel(c, level) <= experience
    ensures c.multDen * experience >= level - 1
  {
    ThresholdGrows(c, level);
    MulLe(ExpRequiredForLevel(c, level), experience, c.multDen);
  }

  lemma ThresholdStep(c: GrowingSettings, level: int)
    ensures ExpRequiredForLevel(c, level) <= ExpRequiredForLevel(c, level + 1)
  {
    if level == 1 {
      RoundOfInteger(c.baseExpRequired);
    } else if level >= 2 {
      var k: nat := level - 2;
      var a, d := Pow(c.multNum, k), Pow(c.multDen, k);
      var b := c.baseExpRequired;
      assert ExpRequiredForLevel(c, level) == RoundHalfEven(b * a, d);
      assert ExpRequiredForLevel(c, level + 1) == RoundHalfEven(b * (c.multNum * a), d * c.multDen) by {
        assert Pow(c.multNum, k + 1) == c.multNum * a;
        assert Pow(c.multDen, k + 1) == c.multDen * d;
      }
      assert (b * a) * (d * c.multDen) <= (b * (c.multNum * a)) * d by {
        StepArith(a, d, b, c.multNum, c.multDen);
      }
      RoundMonotone(b * a, d, b * (c.multNum * a), d * c.multDen);
    }
  }

  lemma StepArith(a: int, d: int, b: int, num: int, den: int)
    requires a >= 0 && d >= 0 && b >= 0 && den <= num
    ensures (b * a) * (d * den) <= (b * (num * a)) * d
  {
    MulLe(0, b * a, d);
    MulLe(den, num, b * a * d);
    assert (b * a) * (d * den) == den * (b * a * d);
    assert (b * (num * a)) * d == num * (b * a * d);
  }

  /** The thresholds never decrease with the level. */
  lemma {:induction false} ThresholdMonotone(c: GrowingSettings, low: int, high: int)
    requires low <= high
    ensures ExpRequiredForLevel(c, low) <= ExpRequiredForLevel(c, high)
    decreases high - low
  {
    if low < high {
      ThresholdStep(c, low);
      ThresholdMonotone(c, low + 1, high);
    }
  }

  /** With the default settings: 100, 150, 225, then 337.5 rounds to the even 338. */
  lemma DefaultThresholds()
    ensures ExpRequiredForLevel(DefaultSettings, 1) == 0
    ensures ExpRequiredForLevel(DefaultSettings, 2) == 100
    ensures ExpRequiredForLevel(DefaultSettings, 3) == 150
    ensures ExpRequiredForLevel(DefaultSettings, 4) == 225
    ensures ExpRequiredForLevel(DefaultSettings, 5) == 338
  {
  }

  /**
   * With expMultiplier ≤ 1 no threshold exceeds baseExpRequired, so once the
   * experience reaches baseExpRequired the guard of CheckLevelUp holds at
   * every level and the loop never exits.
   */
  lemma NoGrowthNeverExits(c: LevelSettings, level: int, experience: int)
    requires 0 <= c.multNum <= c.multDen && 1 <= c.multDen && 0 <= c.baseExpRequired <= experience
    ensures experience >= ExpRequiredForLevel(c, level + 1)
  {
    if level + 1 >= 2 {
      var k: nat := level - 1;
      var b := c.baseExpRequired;
      PowMonotoneBase(c.multNum, c.multDen, k);
      MulLe(Pow(c.multNum, k), Pow(c.multDen, k), b);
      assert (b * Pow(c.multNum, k)) * 1 <= b * Pow(c.multDen, k);
      RoundMonotone(b * Pow(c.multNum, k), Pow(c.multDen, k), b, 1);
      RoundOfInteger(b);
    }
  }

  /**
   * With baseExpRequired ≤ 0 and a non-negative multiplier no threshold is
   * positive, so from a non-negative experience the guard of CheckLevelUp
   * holds at every level and the loop never exits.
   */
  lemma NoBaseNeverExits(c: LevelSettings, level: int, experience: int)
    requires c.baseExpRequired <= 0 && 0 <= c.multNum && 1 <= c.multDen && 0 <= experience
    ensures experience >= ExpRequiredForLevel(c, level + 1)
  {
  }

  // ---------------------------------------------------------------------------
  // The level-up loop
  // ---------------------------------------------------------------------------

  /** The level at which CheckLevelUp's loop stops, from `level` holding `experience`. */
  function LevelAfter(c: GrowingSettings, level: int, experience: int): (r: int)
    ensures level <= r
    ensures experience < ExpRequiredForLevel(c, r + 1)
    ensures ExpRequiredForLevel(c, level) <= experience ==> ExpRequiredForLevel(c, r) <= experience
    decreases c.multDen * experience - level
  {
    if experience >= ExpRequiredForLevel(c, level + 1) then
      LevelBound(c, level + 1, experience);
      LevelAfter(c, level + 1, experience)
    else
      level
  }

  /**
   * Starting from a level the experience already reaches, the loop stops at
   * the highest level whose threshold the experience reaches.
   */
  lemma LevelAfterIsHighest(c: GrowingSettings, level: int, experience: int)
    requires ExpRequiredForLevel(c, level) <= experience
    ensures forall l :: ExpRequiredForLevel(c, l) <= experience <==> l <= LevelAfter(c, level, experience)
  {
    var r := LevelAfter(c, level, experience);
    forall l
      ensures ExpRequiredForLevel(c, l) <= experience <==> l <= r
    {
      if l <= r {
        ThresholdMonotone(c, l, r);
      } else {
        ThresholdMonotone(c, r + 1, l);
      }
    }
  }

  /** Gaining experience in two steps reaches the same level as gaining it at once. */
  lemma {:induction false} LevelAfterInSteps(c: GrowingSettings, level: int, first: int, total: int)
    requires first <= total
    ensures LevelAfter(c, LevelAfter(c, level, first), total) == LevelAfter(c, level, total)
    decreases c.multDen * first - level
  {
    if first >= ExpRequiredForLevel(c, level + 1) {
      LevelBound(c, level + 1, first);
      LevelAfterInSteps(c, level + 1, first, total);
    }
  }

  /** The record invariant: the level is the one the experience earns. */
  predicate Consistent(c: GrowingSettings, d: PlayerData) {
    ExpRequiredForLevel(c, d.level) <= d.experience < ExpRequiredForLevel(c, d.level + 1)
  }

  /** A consistent record with non-negative experience is at level 1 or above. */
  lemma ConsistentLevelPositive(c: GrowingSettings, d: PlayerData)
    requires Consistent(c, d) && d.experience >= 0
    ensures d.level >= 1
  {
  }

  lemma NewPlayerConsistent(c: GrowingSettings)
    ensures Consistent(c, NewPlayer)
  {
    RoundOfInteger(c.baseExpRequired);
  }

  /** In a consistent record the level is determined by the experience alone. */
  lemma ConsistentLevelUnique(c: GrowingSettings, d: PlayerData, e: PlayerData)
    requires Consistent(c, d) && Consistent(c, e) && d.experience == e.experience
    ensures d.level == e.level
  {
    if d.level < e.level {
      ThresholdMonotone(c, d.level + 1, e.level);
    } else if e.level < d.level {
      ThresholdMonotone(c, e.level + 1, d.level);
    }
  }

  /** Adding a non-negative amount and levelling up keeps a record consistent. */
  lemma GainKeepsConsistent(c: GrowingSettings, d: PlayerData, exp: int)
    requires Consistent(c, d) && exp >= 0
    ensures Consistent(c, d.(experience := d.experience + exp,
                             level := LevelAfter(c, d.level, d.experience + exp)))
  {
  }

  // ---------------------------------------------------------------------------
  // The store
  // ---------------------------------------------------------------------------

  class PlayerStats {
    const settings: GrowingSettings
    var playerData: PlayerData
    /** The save key's content. */
    var saveSlot: SaveSlot

    /** Creation of the store, which loads the saved record (Awake). */
    constructor (settings: GrowingSettings, slot: SaveSlot)
      ensures this.settings == settings && saveSlot == slot
      ensures playerData == if slot.Stored? then slot.record else NewPlayer
    {
      this.settings := settings;
      playerData := NewPlayer;
      saveSlot := slot;
      new;
      LoadPlayerData();
    }

    /** The saved record when the key exists, otherwise a new player's record. */
    method LoadPlayerData()
      modifies this`playerData
      ensures playerData == if saveSlot.Stored? then saveSlot.record else NewPlayer
    {
      if saveSlot.Stored? {
        playerData := saveSlot.record;
      } else {
        playerData := NewPlayer;
      }
    }

    method SavePlayerData()
      modifies this`saveSlot
      ensures saveSlot == Stored(playerData)
    {
      saveSlot := Stored(playerData);
    }

    method AddExperience(exp: int)
      modifies this
      ensures playerData == old(playerData).(
        experience := old(playerData.experience) + exp,
        level := LevelAfter(settings, old(playerData.level), old(playerData.experience) + exp))
      ensures old(playerData.level) <= playerData.level
      ensures playerData.experience < ExpRequiredForLevel(settings, playerData.level + 1)
      ensures exp >= 0 && old(ExpRequiredForLevel(settings, playerData.level) <= playerData.experience) ==>
        ExpRequiredForLevel(settings, playerData.level) <= playerData.experience
      ensures exp >= 0 && old(Consistent(settings, playerData)) ==> Consistent(settings, playerData)
      ensures saveSlot == Stored(playerData)
    {
      playerData := playerData.(experience := playerData.experience + exp);
      CheckLevelUp();
      SavePlayerData();
    }

    method AddGold(gold: int)
      modifies this
      ensures playerData == old(playerData).(gold := old(playerData.gold) + gold)
      ensures saveSlot == Stored(playerData)
    {
      playerData := playerData.(gold := playerData.gold + gold);
      SavePlayerData();
    }

    method AddFocusSession()
      modifies this
      ensures playerData == old(playerData).(totalFocusSessions := old(playerData.totalFocusSessions) + 1)
      ensures saveSlot == Stored(playerData)
    {
      playerData := playerData.(totalFocusSessions := playerData.totalFocusSessions + 1);
      SavePlayerData();
    }

    /** Raises the level one step at a time while the experience reaches the next threshold. */
    method CheckLevelUp()
      modifies this`playerData
      ensures playerData == old(playerData).(level := LevelAfter(settings, old(playerData.level), playerData.experience))
    {
      var requiredExp := ExpRequiredForLevel(settings, playerData.level + 1);
      while playerData.experience >= requiredExp
        invariant requiredExp == ExpRequiredForLevel(settings, playerData.level + 1)
        invariant playerData == old(playerData).(level := playerData.level)
        invariant LevelAfter(settings, playerData.level, playerData.experience)
               == LevelAfter(settings, old(playerData.level), playerData.experience)
        decreases settings.multDen * playerData.experience - playerData.level
      {
        LevelBound(settings, playerData.level + 1, playerData.experience);
        playerData := playerData.(level := playerData.level + 1);
        requiredExp := ExpRequiredForLevel(settings, playerData.level + 1);
      }
    }

    method ResetPlayerData()
      modifies this
      ensures playerData == NewPlayer && saveSlot == Stored(NewPlayer)
      ensures Consistent(settings, playerData)
    {
      playerData := NewPlayer;
      SavePlayerData();
      NewPlayerConsistent(settings);
    }

    /** The cumulative threshold of the next level, not the width of the current one. */
    function ExpRequiredForNextLevel(): (r: int)
      reads this
      ensures ExpRequiredForLevel(settings, playerData.level) <= r
      ensures Consistent(settings, playerData) ==> playerData.experience < r
    {
      ThresholdStep(settings, playerData.level);
      ExpRequiredForLevel(settings, playerData.level + 1)
    }

    /** Experience earned beyond the current level's threshold. */
    function ExpProgress(): (r: int)
      reads this
      ensures Consistent(settings, playerData) ==>
        0 <= r < ExpRequiredForNextLevel() - ExpRequiredForLevel(settings, playerData.level)
    {
      playerData.experience - ExpRequiredForLevel(settings, playerData.level)
    }
  }

  // ---------------------------------------------------------------------------
  // Scenarios
  // ---------------------------------------------------------------------------

  /** A new player gaining 100 experience reaches level 2. */
  method FirstLevelUp() returns (d: PlayerData, saved: SaveSlot)
    ensures d == PlayerData(2, 100, 0, 0) && saved == Stored(d)
  {
    var stats := new PlayerStats(DefaultSettings, Absent);
    DefaultThresholds();
    stats.AddExperience(100);
    d, saved := stats.playerData, stats.saveSlot;
  }

  /** Three completed sessions on a new record, saved after each. */
  method ThreeSessions() returns (sessions: int, saved: SaveSlot)
    ensures sessions == 3 && saved == Stored(PlayerData(1, 0, 0, 3))
  {
    var stats := new PlayerStats(DefaultSettings, Absent);
    stats.AddFocusSession();
    stats.AddFocusSession();
    stats.AddFocusSession();
    sessions, saved := stats.playerData.totalFocusSessions, stats.saveSlot;
  }

  /** Whatever was saved before, a reset followed by a fresh load yields a new player. */
  method ResetThenLoad(previous: SaveSlot) returns (d: PlayerData)
    ensures d == NewPlayer
  {
    var stats := new PlayerStats(DefaultSettings, previous);
    stats.ResetPlayerData();
    var reloaded := new PlayerStats(DefaultSettings, stats.saveSlot);
    d := reloaded.playerData;
  }
}
