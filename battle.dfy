// The battle simulator (Assets/Scripts/BattleManager.cs): while active, each
// interval appends flavour lines to a bounded log and grants experience and
// gold through the progression store, announcing a level-up when the store's
// level has risen above the level it last saw.
module Battle {
  import opened Formatting
  import Progression

  /** The log keeps at most this many entries; the oldest go first. */
  const LogCapacity: nat := 50

  const DefaultExpPerBattle := 10
  const DefaultGoldPerBattle := 5

  const DefaultAttackMessages: seq<string> :=
    ["勇者が攻撃！", "勇者が剣を振る！", "勇者が魔法を唱える！", "勇者が必殺技を発動！"]

  const DefaultVictoryMessages: seq<string> :=
    ["敵を倒した！", "勝利！", "敵を撃破！", "完璧な勝利！"]

  const DefaultLevelUpMessages: seq<string> :=
    ["レベルアップ！", "新しい力が目覚めた！", "パワーアップ！"]

  /** The last n entries of s, or all of s when it is shorter. */
  function Window<T>(s: seq<T>, n: nat): seq<T> {
    if |s| <= n then s else s[|s| - n..]
  }

  /** The window holds the last min(|s|, n) entries of s, in order. */
  lemma WindowIsNewest<T>(s: seq<T>, n: nat)
    ensures |Window(s, n)| == if |s| <= n then |s| else n
    ensures Window(s, n) == s[|s| - |Window(s, n)|..]
  {
  }

  /**
   * Appending to a window and windowing again is the window of everything
   * appended: evicting as entries arrive keeps exactly the newest ones.
   */
  lemma WindowOfAppended<T>(s: seq<T>, t: seq<T>, n: nat)
    ensures Window(Window(s, n) + t, n) == Window(s + t, n)
  {
    var w := Window(s, n);
    var st := s + t;
    assert w + t == st[|s| - |w|..];
    if |w + t| > n {
      assert (w + t)[|w + t| - n..] == st[|st| - n..];
    } else if |s| <= n {
      assert w == s;
    } else {
      assert t == [] && s + t == s;
    }
  }

  /** The eviction AddBattleLog performs after appending one entry. */
  lemma EvictOne<T>(log: seq<T>, s: seq<T>, m: T, n: nat)
    requires n >= 1 && log == Window(s, n)
    ensures Window(s + [m], n) == if |log + [m]| > n then (log + [m])[1..] else log + [m]
  {
    WindowOfAppended(s, [m], n);
  }

  /**
   * Adding one entry to a log that is the window of its history: the log
   * stays within capacity, ends with the new entry, and loses its oldest
   * entry exactly when it was full.
   */
  lemma AddToWindow<T>(log: seq<T>, s: seq<T>, m: T, n: nat)
    requires n >= 1 && log == Window(s, n)
    ensures var w := Window(s + [m], n);
      |w| <= n && |w| >= 1 && w[|w| - 1] == m &&
      (|log| < n ==> w == log + [m]) &&
      (|log| >= n ==> |log| == n && w == log[1..] + [m])
  {
    EvictOne(log, s, m, n);
  }

  /**
   * One line of the battle log. The log keeps what each line says; Text
   * gives the string the line reads as, without its colour markup.
   */
  datatype LogEntry =
    | Attack(message: string)
    | Victory(message: string)
    | LevelUp(message: string, level: int)
    | ExpGain(amount: int)
    | GoldGain(amount: int)
    | Separator

  function Text(e: LogEntry): (r: string)
    ensures e.ExpGain? ==>
      |r| > 5 && r[..5] == "経験値 +" &&
      (e.amount >= 0 ==> AllDigits(r[5..]) && Value(r[5..]) == e.amount && (r[5] == '0' ==> |r| == 6))
    ensures e.GoldGain? ==>
      |r| > 6 && r[..6] == "ゴールド +" &&
      (e.amount >= 0 ==> AllDigits(r[6..]) && Value(r[6..]) == e.amount && (r[6] == '0' ==> |r| == 7))
  {
    match e
    case Attack(m) => m
    case Victory(m) => m
    case LevelUp(m, level) => m + " レベル " + IntToString(level) + " になりました！"
    case ExpGain(n) => "経験値 +" + IntToString(n)
    case GoldGain(n) => "ゴールド +" + IntToString(n)
    case Separator => ""
  }

  /** The record after one battle's rewards: AddExperience, then AddGold. */
  function Rewarded(c: Progression.GrowingSettings, d: Progression.PlayerData, exp: int, gold: int): Progression.PlayerData {
    d.(experience := d.experience + exp,
       level := Progression.LevelAfter(c, d.level, d.experience + exp),
       gold := d.gold + gold)
  }

  /**
   * A battle raises the level exactly when the new experience reaches the
   * next level's threshold, and then to a level whose threshold it reaches.
   */
  lemma RewardedLevelsUp(c: Progression.GrowingSettings, d: Progression.PlayerData, exp: int, gold: int)
    ensures var r := Rewarded(c, d, exp, gold);
      d.level <= r.level && r.experience < Progression.ExpRequiredForLevel(c, r.level + 1) &&
      r.totalFocusSessions == d.totalFocusSessions
    ensures Rewarded(c, d, exp, gold).level > d.level <==>
      d.experience + exp >= Progression.ExpRequiredForLevel(c, d.level + 1)
    ensures Rewarded(c, d, exp, gold).level > d.level ==>
      Progression.ExpRequiredForLevel(c, Rewarded(c, d, exp, gold).level) <= d.experience + exp
  {
    var e := d.experience + exp;
    if e >= Progression.ExpRequiredForLevel(c, d.level + 1) {
      Progression.LevelBound(c, d.level + 1, e);
    }
  }

  /** The entries one battle adds: attack, victory, the optional level-up line, rewards, blank line. */
  function BattleEntries(attack: string, victory: string, announce: seq<LogEntry>, exp: int, gold: int): seq<LogEntry>
  {
    [Attack(attack), Victory(victory)] + announce + [ExpGain(exp), GoldGain(gold), Separator]
  }

  /** The reward lines of a default battle, and the level-up line on reaching level 2, as they read. */
  lemma DefaultTexts(message: string)
    ensures Text(ExpGain(DefaultExpPerBattle)) == "経験値 +10"
    ensures Text(GoldGain(DefaultGoldPerBattle)) == "ゴールド +5"
    ensures Text(LevelUp(message, 2)) == message + " レベル 2 になりました！"
  {
  }

  /** A battle adds five entries, or six with the level-up line in third place. */
  lemma BattleEntriesLayout(attack: string, victory: string, announce: seq<LogEntry>, exp: int, gold: int)
    ensures var r := BattleEntries(attack, victory, announce, exp, gold);
      |r| == 5 + |announce| && r[..2] == [Attack(attack), Victory(victory)] &&
      r[2..2 + |announce|] == announce && r[2 + |announce|..] == [ExpGain(exp), GoldGain(gold), Separator]
  {
  }

  /** The entries one battle appends, one call at a time, are BattleEntries. */
  lemma HistoryOfBattle(before: seq<LogEntry>, attack: string, victory: string, announce: seq<LogEntry>,
                        exp: int, gold: int, middle: seq<LogEntry>, after: seq<LogEntry>)
    requires middle == before + [Attack(attack)] + [Victory(victory)] + announce
    requires after == middle + [ExpGain(exp)] + [GoldGain(gold)] + [Separator]
    ensures after == before + BattleEntries(attack, victory, announce, exp, gold)
  {
  }

  class BattleManager {
    const stats: Progression.PlayerStats
    const expPerBattle: int
    const goldPerBattle: int
    const attackMessages: seq<string>
    const victoryMessages: seq<string>
    const levelUpMessages: seq<string>
    var isBattling: bool
    var battleLog: seq<LogEntry>
    /** The store's level as last seen, to detect level-ups. */
    var currentLevel: int
    /** Every entry added since the log was last cleared, oldest first. */
    ghost var history: seq<LogEntry>

    ghost predicate Valid()
      reads this
    {
      battleLog == Window(history, LogCapacity)
    }

    /** A stopped simulator with an empty log that has seen the store's current level (Start). */
    constructor (stats: Progression.PlayerStats, expPerBattle: int, goldPerBattle: int,
                 attackMessages: seq<string>, victoryMessages: seq<string>, levelUpMessages: seq<string>)
      ensures this.stats == stats && this.expPerBattle == expPerBattle && this.goldPerBattle == goldPerBattle
      ensures this.attackMessages == attackMessages && this.victoryMessages == victoryMessages
      ensures this.levelUpMessages == levelUpMessages
      ensures !isBattling && battleLog == [] && history == [] && currentLevel == stats.playerData.level
      ensures Valid()
    {
      this.stats := stats;
      this.expPerBattle, this.goldPerBattle := expPerBattle, goldPerBattle;
      this.attackMessages, this.victoryMessages := attackMessages, victoryMessages;
      this.levelUpMessages := levelUpMessages;
      isBattling := false;
      battleLog, history := [], [];
      currentLevel := stats.playerData.level;
    }

    method StartBattle()
      modifies this`isBattling
      ensures isBattling
    {
      if !isBattling {
        isBattling := true;
      }
    }

    method StopBattle()
      modifies this`isBattling
      ensures !isBattling
    {
      if isBattling {
        isBattling := false;
      }
    }

    /** One interval of the battle loop: a battle takes place only while active. */
    method IntervalTick(attackIndex: int, victoryIndex: int, levelUpIndex: int)
      requires Valid()
      requires isBattling ==> 0 <= attackIndex < |attackMessages| && 0 <= victoryIndex < |victoryMessages|
      requires isBattling ==>
        (Rewarded(stats.settings, stats.playerData, expPerBattle, goldPerBattle).level > currentLevel ==>
         0 <= levelUpIndex < |levelUpMessages|)
      modifies this, stats
      ensures Valid() && isBattling == old(isBattling)
      ensures !old(isBattling) ==> unchanged(this) && unchanged(stats)
      ensures old(isBattling) ==>
        stats.playerData == Rewarded(stats.settings, old(stats.playerData), expPerBattle, goldPerBattle) &&
        stats.saveSlot == Progression.Stored(stats.playerData) &&
        var announce := if stats.playerData.level > old(currentLevel)
                        then [LevelUp(levelUpMessages[levelUpIndex], stats.playerData.level)] else [];
        history == old(history) + BattleEntries(attackMessages[attackIndex], victoryMessages[victoryIndex],
                                                announce, expPerBattle, goldPerBattle) &&
        currentLevel == if announce == [] then old(currentLevel) else stats.playerData.level
    {
      if isBattling {
        PerformBattle(attackIndex, victoryIndex, levelUpIndex);
      }
    }

    /**
     * One battle: two flavour lines, the rewards granted through the store,
     * a level-up line when the store's level rose above the one last seen,
     * the reward lines and a blank line.
     */
    method PerformBattle(attackIndex: int, victoryIndex: int, levelUpIndex: int)
      requires Valid()
      requires 0 <= attackIndex < |attackMessages| && 0 <= victoryIndex < |victoryMessages|
      requires Rewarded(stats.settings, stats.playerData, expPerBattle, goldPerBattle).level > currentLevel ==>
        0 <= levelUpIndex < |levelUpMessages|
      modifies this, stats
      ensures Valid() && isBattling == old(isBattling)
      ensures stats.playerData == Rewarded(stats.settings, old(stats.playerData), expPerBattle, goldPerBattle)
      ensures stats.saveSlot == Progression.Stored(stats.playerData)
      ensures var announce := if stats.playerData.level > old(currentLevel)
                              then [LevelUp(levelUpMessages[levelUpIndex], stats.playerData.level)] else [];
        history == old(history) + BattleEntries(attackMessages[attackIndex], victoryMessages[victoryIndex],
                                                announce, expPerBattle, goldPerBattle) &&
        currentLevel == if announce == [] then old(currentLevel) else stats.playerData.level
    {
      ghost var before := history;
      AddBattleLog(Attack(attackMessages[attackIndex]));
      AddBattleLog(Victory(victoryMessages[victoryIndex]));
      stats.AddExperience(expPerBattle);
      stats.AddGold(goldPerBattle);
      ghost var announce: seq<LogEntry> := [];
      if stats.playerData.level > currentLevel {
        var levelUpLine := LevelUp(levelUpMessages[levelUpIndex], stats.playerData.level);
        announce := [levelUpLine];
        AddBattleLog(levelUpLine);
        currentLevel := stats.playerData.level;
      }
      ghost var middle := history;
      AddBattleLog(ExpGain(expPerBattle));
      AddBattleLog(GoldGain(goldPerBattle));
      AddBattleLog(Separator);
      HistoryOfBattle(before, attackMessages[attackIndex], victoryMessages[victoryIndex], announce,
                      expPerBattle, goldPerBattle, middle, history);
    }

    /** Appends one entry and evicts the oldest once the log holds more than LogCapacity. */
    method AddBattleLog(message: LogEntry)
      requires Valid()
      modifies this`battleLog, this`history
      ensures Valid() && history == old(history) + [message]
      ensures battleLog == Window(old(battleLog) + [message], LogCapacity)
    {
      EvictOne(battleLog, history, message, LogCapacity);
      battleLog := battleLog + [message];
      if |battleLog| > LogCapacity {
        battleLog := battleLog[1..];
      }
      history := history + [message];
    }

    method ClearBattleLog()
      modifies this`battleLog, this`history
      ensures battleLog == [] && history == [] && Valid()
    {
      battleLog := [];
      history := [];
    }
  }

  // ---------------------------------------------------------------------------
  // Scenarios
  // ---------------------------------------------------------------------------

  /**
   * A new player's first battle: five entries, 10 experience and 5 gold, no
   * level-up; an interval after stopping changes nothing.
   */
  method FirstBattle() returns (log: seq<LogEntry>, record: Progression.PlayerData)
    ensures log == [Attack("勇者が攻撃！"), Victory("敵を倒した！"), ExpGain(10), GoldGain(5), Separator]
    ensures record == Progression.PlayerData(1, 10, 5, 0)
  {
    var stats := new Progression.PlayerStats(Progression.DefaultSettings, Progression.Absent);
    var battle := new BattleManager(stats, DefaultExpPerBattle, DefaultGoldPerBattle,
                                    DefaultAttackMessages, DefaultVictoryMessages, DefaultLevelUpMessages);
    battle.StartBattle();
    Progression.DefaultThresholds();
    battle.IntervalTick(0, 0, 0);
    battle.StopBattle();
    battle.IntervalTick(1, 1, 1);
    log, record := battle.battleLog, stats.playerData;
  }

  /** With no level-up messages configured, a battle that does not level up still runs and logs five entries. */
  method BattleWithoutLevelUpMessages() returns (log: seq<LogEntry>)
    ensures log == [Attack("勝負！"), Victory("勝利！"), ExpGain(10), GoldGain(5), Separator]
  {
    var stats := new Progression.PlayerStats(Progression.DefaultSettings, Progression.Absent);
    var battle := new BattleManager(stats, DefaultExpPerBattle, DefaultGoldPerBattle, ["勝負！"], ["勝利！"], []);
    battle.StartBattle();
    Progression.DefaultThresholds();
    battle.IntervalTick(0, 0, 0);
    log := battle.battleLog;
  }
}
