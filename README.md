# FocusQuest core, modelled in Dafny

FocusQuest is a pomodoro focus timer with a small RPG layer. A countdown
timer runs a 25-minute session. While it runs, a battle simulator writes
flavour lines to a bounded log and grants experience and gold. A progression
store keeps the player's level, experience, gold and completed sessions, and
saves the record after every change.

This project models the three components that hold the logic:

- `formatting.dfy` (module `Formatting`): the .NET decimal rendering of
  integers, both the default `int` interpolation and the custom format `"00"`.
  It also has a parser that reads the clock text back, the inverse used by
  the round-trip lemma.
- `progression.dfy` (module `Progression`): `PlayerStats`.
  - The record and the save slot.
  - The cumulative experience threshold of each level.
  - The level-up loop, written as a `while` loop proved against the
    specification function `LevelAfter`.
  - The experience, gold, session and reset operations, and the progress
    queries.
- `timer.dfy` (module `Timer`): `TimerManager`, as a class with the remaining
  time, the running and paused flags, and the notifications it has raised. It
  also has the progress fraction, the `MM:SS` text, and the button enablement
  that the view derives from the two flags.
- `battle.dfy` (module `Battle`): `BattleManager`, as a class with the active
  flag, the bounded log and the cached level.
  - One interval of the battle loop, and one battle.
  - Appending to the log with eviction of the oldest entry, and clearing it.

Modelling choices:

- **Threshold multiplier.** The configured multiplier is kept exact as the
  fraction `multNum / multDen`; the default 1.5 is 3/2. `Mathf.RoundToInt` is
  rounding to the nearest integer, ties to even, applied to that exact
  fraction.
- **Level-up loop.** The loop can fail to terminate in two cases (see Findings):
  - With `0 <= multiplier <= 1` and a non-negative base, it never exits once
    the experience reaches `baseExpRequired`.
  - With `baseExpRequired <= 0` and a non-negative multiplier, it never exits
    from any non-negative experience.

  The store therefore takes `GrowingSettings`: `baseExpRequired >= 1` and
  `multNum > multDen >= 1`. Under these settings the loop provably
  terminates in the model, whose integers are unbounded; the 32-bit program
  can still loop forever (see "Left out").
- **Save slot.** The persisted key is the field `saveSlot`, which is either
  `Absent` or `Stored(record)`. Loading falls back to a new player's record
  when the key is absent.
- **Timer events.** Each notification the timer raises (`OnTimerStart`,
  `OnTimerComplete` and so on) is appended to the field `events`.
- **Time.** Time is a `real` number of seconds. The frame time
  `Time.deltaTime` is a parameter of `Update`.
- **Battle log.** Each log line is a `LogEntry` that records what the line
  says; `Text` renders it as the source's string without colour markup.
  `battleLog` is always the last 50 entries of the ghost `history`, which holds
  every entry added since the log was last cleared.
- **Random choices.** The random message choices (`Random.Range`) are index
  parameters.

Two points where the code is looser than one might expect, followed by the model:

- `AddExperience` accepts any amount, not only positive ones.
- A loaded record is not re-levelled, so "level is the highest whose threshold
  the experience reaches" is an invariant the operations preserve
  (`Consistent`), not one the store enforces.

## Model

| member | source | states |
|---|---|---|
| Formatting.Digits | Assets/Scripts/BattleManager.cs:103-109 | the decimal digits of a natural number: non-empty, all digits, no leading zero, one digit exactly below 10 |
| Formatting.ValueOfDigits | Assets/Scripts/BattleManager.cs:103-109 | reading the rendered digits back gives the number |
| Formatting.IntToString | Assets/Scripts/BattleManager.cs:103-109 | default `int` interpolation: digits whose value is n and with no leading zero unless n is 0; for negatives a minus sign, then such digits of -n |
| Formatting.LeadingZero | Assets/Scripts/TimerManager.cs:86 | a padding zero does not change the value of a digit string |
| Formatting.Pad2 | Assets/Scripts/TimerManager.cs:86 | digits of n padded to at least two characters, with value n; two characters exactly below 10; a zero leads only a two-character result |
| Formatting.Format00 | Assets/Scripts/TimerManager.cs:86 | the "00" format: at least two digits with the number's value, and a zero leads only when there are exactly two; a minus sign in front for negatives |
| Formatting.ParseClockOfFields | Assets/Scripts/TimerManager.cs:82-87 | parsing "mm:ss" built from two natural fields returns exactly those fields |
| Progression.RoundHalfEven | Assets/Scripts/PlayerStats.cs:83 | Mathf.RoundToInt on p/q: the result is within one half of p/q, and a tie goes to the even neighbour |
| Progression.RoundOfInteger | Assets/Scripts/PlayerStats.cs:83 | rounding a whole number returns it |
| Progression.RoundMonotone | Assets/Scripts/PlayerStats.cs:83 | rounding preserves the order of fractions |
| Progression.Bernoulli | Assets/Scripts/PlayerStats.cs:83 | (num/den)^k >= 1 + k(num/den - 1), the growth bound behind the loop's termination |
| Progression.PowMonotoneBase | Assets/Scripts/PlayerStats.cs:83 | a larger base gives a larger power |
| Progression.ExpRequiredForLevel | Assets/Scripts/PlayerStats.cs:80-84 | 0 up to level 1; from level 2 the integer nearest to base * multiplier^(level-2) |
| Progression.ThresholdGrows | Assets/Scripts/PlayerStats.cs:80-84 | under a multiplier above 1 the thresholds are unbounded: multDen * threshold(level) >= level - 1 |
| Progression.LevelBound | Assets/Scripts/PlayerStats.cs:67-78 | reaching a level's threshold bounds the level by the experience; this is the level-up loop's termination measure |
| Progression.ThresholdStep | Assets/Scripts/PlayerStats.cs:80-84 | each level's threshold is at most the next level's |
| Progression.ThresholdMonotone | Assets/Scripts/PlayerStats.cs:80-84 | thresholds never decrease with the level |
| Progression.DefaultThresholds | Assets/Scripts/PlayerStats.cs:18-19 | with base 100 and multiplier 1.5, levels 1 to 5 need 0, 100, 150, 225 and 338 (337.5 rounds to even) |
| Progression.NoGrowthNeverExits | Assets/Scripts/PlayerStats.cs:67-84 | with 0 <= multiplier <= 1 and experience at least the base, every level's next threshold is reached, so the loop guard never fails |
| Progression.NoBaseNeverExits | Assets/Scripts/PlayerStats.cs:67-84 | with baseExpRequired <= 0, a non-negative multiplier and non-negative experience, every level's next threshold is reached, so the loop guard never fails |
| Progression.LevelAfter | Assets/Scripts/PlayerStats.cs:67-78 | where the level-up loop stops: never below the start level, below the next threshold, and at a reached threshold when the start level's was reached |
| Progression.LevelAfterIsHighest | Assets/Scripts/PlayerStats.cs:67-78 | starting from a reached threshold, a level's threshold is reached exactly when the level is at most the loop's result |
| Progression.LevelAfterInSteps | Assets/Scripts/PlayerStats.cs:48-53 | gaining experience in two calls reaches the same level as gaining it in one |
| Progression.Consistent | Assets/Scripts/PlayerStats.cs:67-84 | the record invariant: the experience reaches the level's threshold and not the next level's |
| Progression.ConsistentLevelPositive | Assets/Scripts/PlayerStats.cs:6-7 | a consistent record with non-negative experience is at level 1 or above |
| Progression.NewPlayerConsistent | Assets/Scripts/PlayerStats.cs:4-10 | a new player's record (level 1, 0 experience) has the level its experience earns |
| Progression.ConsistentLevelUnique | Assets/Scripts/PlayerStats.cs:67-84 | in a consistent record the level is determined by the experience |
| Progression.GainKeepsConsistent | Assets/Scripts/PlayerStats.cs:48-53 | adding non-negative experience and levelling up keeps a record consistent |
| Progression.PlayerStats.constructor | Assets/Scripts/PlayerStats.cs:34-46 | creating the store loads the saved record, or a new player's record when none is saved |
| Progression.PlayerStats.LoadPlayerData | Assets/Scripts/PlayerStats.cs:92-104 | the saved record if the key exists, otherwise the default record |
| Progression.PlayerStats.SavePlayerData | Assets/Scripts/PlayerStats.cs:86-90 | the save slot holds the current record |
| Progression.PlayerStats.AddExperience | Assets/Scripts/PlayerStats.cs:48-53 | experience grows by the amount; the level becomes LevelAfter and never drops; the level stays below the next threshold; consistency is kept for non-negative amounts; the record is saved |
| Progression.PlayerStats.AddGold | Assets/Scripts/PlayerStats.cs:55-59 | only the gold changes, by the amount, and the record is saved |
| Progression.PlayerStats.AddFocusSession | Assets/Scripts/PlayerStats.cs:61-65 | only the session count changes, by one, and the record is saved |
| Progression.PlayerStats.CheckLevelUp | Assets/Scripts/PlayerStats.cs:67-78 | the one-step-at-a-time loop ends at LevelAfter of the old level, with every other field unchanged |
| Progression.PlayerStats.ResetPlayerData | Assets/Scripts/PlayerStats.cs:106-111 | the record and the save slot become a new player's, which is consistent |
| Progression.PlayerStats.ExpRequiredForNextLevel | Assets/Scripts/PlayerStats.cs:31 | the cumulative threshold of the next level: at least the current level's, and above the experience in a consistent record |
| Progression.PlayerStats.ExpProgress | Assets/Scripts/PlayerStats.cs:32 | in a consistent record, experience beyond the current threshold, between 0 and the width of the current level |
| Progression.FirstLevelUp | Assets/Scripts/PlayerStats.cs:48-53 | a new player gaining 100 experience reaches level 2 and is saved |
| Progression.ThreeSessions | Assets/Scripts/PlayerStats.cs:61-65 | three sessions on a new record count 3 and are saved |
| Progression.ResetThenLoad | Assets/Scripts/PlayerStats.cs:92-111 | whatever was saved, a reset and then a fresh load yield a new player |
| Timer.Rem60 | Assets/Scripts/TimerManager.cs:85 | C# floating `%` by 60: for t >= 0, t minus the largest multiple of 60 not above it, in [0, 60); in (-60, 0] for t <= 0 |
| Timer.ClockMinutes | Assets/Scripts/TimerManager.cs:84 | for t >= 0, the minutes m are the whole number with 60m <= t < 60m + 60 |
| Timer.ClockSeconds | Assets/Scripts/TimerManager.cs:85 | for t >= 0, the seconds shown are in [0, 60) |
| Timer.ClockFields | Assets/Scripts/TimerManager.cs:84-85 | for t >= 0 the minutes are non-negative, the seconds are in [0, 60), and minutes * 60 + seconds is the whole part of t |
| Timer.EnabledButtons | Assets/Scripts/UIManager.cs:101-122 | the start and pause buttons are never both enabled or both disabled |
| Timer.TimerManager.constructor | Assets/Scripts/TimerManager.cs:21-24 | a timer starts at the full duration, neither running nor paused |
| Timer.TimerManager.Update | Assets/Scripts/TimerManager.cs:26-39 | not counting down: nothing changes; otherwise the time drops by the frame, or reaches 0, stops and raises completion exactly once |
| Timer.TimerManager.StartTimer | Assets/Scripts/TimerManager.cs:41-53 | afterwards running and not paused; raises start only from not running; the state changes exactly when the start button is enabled |
| Timer.TimerManager.PauseTimer | Assets/Scripts/TimerManager.cs:55-62 | pauses and raises pause only while counting down; the state changes exactly when the pause button is enabled |
| Timer.TimerManager.ResetTimer | Assets/Scripts/TimerManager.cs:64-70 | full duration, not running, not paused, reset raised |
| Timer.TimerManager.GetProgress | Assets/Scripts/TimerManager.cs:77-80 | elapsed fraction: in [0, 1], 0 exactly at the full duration, 1 exactly at 0, and times the duration equals the elapsed time |
| Timer.TimerManager.GetFormattedTime | Assets/Scripts/TimerManager.cs:82-87 | for a non-negative time the text parses back as minutes and seconds below 60 whose total is the whole seconds, with ':' before the last two characters, and the minutes start with a zero only when they are two characters |
| Timer.FiveSecondSession | Assets/Scripts/TimerManager.cs:26-53 | a 5-second session in 1-second frames raises start and then completion exactly once |
| Timer.RestartAfterCompletion | Assets/Scripts/TimerManager.cs:26-53 | after completion the time stays at 0, so a restart completes on the next frame of any length |
| Battle.Window | Assets/Scripts/BattleManager.cs:113-121 | definition: the last n entries of a sequence, or all of it when shorter; its properties are the lemmas below |
| Battle.WindowIsNewest | Assets/Scripts/BattleManager.cs:113-121 | the window holds min(length, n) entries, and they are the newest ones in order |
| Battle.WindowOfAppended | Assets/Scripts/BattleManager.cs:113-121 | evicting as entries arrive keeps exactly the newest entries of everything appended |
| Battle.EvictOne | Assets/Scripts/BattleManager.cs:113-121 | one append and eviction on a window is the window of the extended history |
| Battle.AddToWindow | Assets/Scripts/BattleManager.cs:113-121 | after an append the log is within capacity and ends with the new entry; its oldest entry is dropped exactly when it was full |
| Battle.Text | Assets/Scripts/BattleManager.cs:103-110 | the text of a log line; a reward line is its prefix followed by digits that read back as the amount |
| Battle.DefaultTexts | Assets/Scripts/BattleManager.cs:103-110 | the reward lines read "経験値 +10" and "ゴールド +5", and the level-up line for level 2 reads the message then " レベル 2 になりました！" |
| Battle.Rewarded | Assets/Scripts/BattleManager.cs:96-97 | definition: the record after AddExperience then AddGold; its properties are in RewardedLevelsUp |
| Battle.RewardedLevelsUp | Assets/Scripts/BattleManager.cs:96-104 | the rewarded record keeps the session count, never loses a level and ends below the next threshold; the level rises exactly when the new experience reaches the next threshold, and then to a reached threshold |
| Battle.BattleEntries | Assets/Scripts/BattleManager.cs:88-110 | definition: the entries one battle appends; its layout is BattleEntriesLayout |
| Battle.BattleEntriesLayout | Assets/Scripts/BattleManager.cs:88-110 | attack and victory first, the optional level-up line next, then the two reward lines and the blank line; five entries without a level-up |
| Battle.HistoryOfBattle | Assets/Scripts/BattleManager.cs:88-110 | appending the entries one call at a time, as the battle does, appends exactly BattleEntries |
| Battle.BattleManager.constructor | Assets/Scripts/BattleManager.cs:46-49 | a stopped simulator with an empty log that has seen the store's current level |
| Battle.BattleManager.StartBattle | Assets/Scripts/BattleManager.cs:51-58 | the simulator is active afterwards, whatever it was before |
| Battle.BattleManager.StopBattle | Assets/Scripts/BattleManager.cs:60-70 | the simulator is stopped afterwards, whatever it was before |
| Battle.BattleManager.IntervalTick | Assets/Scripts/BattleManager.cs:72-83 | nothing changes while stopped; while active, one battle's rewards, entries and level cache |
| Battle.BattleManager.PerformBattle | Assets/Scripts/BattleManager.cs:85-111 | the store gains the rewards and saves; the log gains attack, victory, a level-up line only when the level rose above the cached one, the reward lines and a blank; the cache follows |
| Battle.BattleManager.AddBattleLog | Assets/Scripts/BattleManager.cs:113-124 | the entry joins the history and the log becomes the last 50 entries of the old log plus the entry |
| Battle.BattleManager.ClearBattleLog | Assets/Scripts/BattleManager.cs:141-145 | the log and its history are empty |
| Battle.BattleWithoutLevelUpMessages | Assets/Scripts/BattleManager.cs:85-111 | with no level-up messages configured, a battle without a level-up still logs its five entries |
| Battle.FirstBattle | Assets/Scripts/BattleManager.cs:85-111 | a new player's first battle logs five entries and leaves level 1, 10 experience and 5 gold; a tick after stopping changes nothing |

## Left out

- Unity lifecycle and wiring are not modelled: the singleton `Instance`, `DontDestroyOnLoad`, destroying duplicates, and the event listeners registered by the view.
- The save system (ES3) is modelled only as one save slot; serialisation and file I/O are left out.
- The coroutine and its `WaitForSeconds(battleInterval)` are left out. One interval is `IntervalTick`, and the timing between intervals is not modelled.
- `Random.Range` is left out: the chosen message indices are parameters.
- `Debug.Log` output, the colour markup of the log lines, `UpdateBattleLogDisplay` (the joined text and scrolling) and the completion banner the view appends are left out. `Text` gives a line's text without markup.
- `GetCurrentTime` and the `Level`/`Experience`/`Gold`/`TotalFocusSessions` getters only return a field and have no members of their own.
- The rest of `UIManager` (display refresh, button handlers, scene loading) and `TitleManager` are not part of this model.
- Progression.ExpRequiredForLevel: computes with the exact fraction, not with 32-bit floats. For large levels, float rounding can differ from the exact value. Beyond `int.MaxValue` the program also loses termination; the model does not.
  - With the defaults, threshold(44) = round(100 · 1.5^42) ≈ 2.49 · 10^9, above `int.MaxValue`.
  - From level 43 on (experience at least 1,658,599,848) the guard of `CheckLevelUp` compares against `Mathf.RoundToInt`'s out-of-range float-to-int conversion, whose result C# leaves unspecified.
  - Where that result is `int.MinValue`, the guard never fails again and the loop does not terminate.
- Progression.PlayerStats.AddExperience: does not model 32-bit `int` wrap-around of experience, gold or level.
- Progression.PlayerStats.constructor: requires settings with `baseExpRequired >= 1` and a multiplier above 1. The other settings are left out because the level-up loop need not terminate under them (see Findings):
  - With a multiplier in [0, 1] and a non-negative base, it never exits once the experience reaches the base.
  - With `baseExpRequired <= 0` and a non-negative multiplier, it never exits from a non-negative experience.
  - Negative multipliers and the remaining negative-base cases are left out with these. They can terminate: base −100 with multiplier −1.5 stops at level 2.
- Timer.TimerManager.constructor: requires a positive duration, because `GetProgress` divides by it.
- Timer.TimerManager.Update: requires a non-negative frame time, because Unity's `Time.deltaTime` is never negative.
- Timer.TimerManager.GetFormattedTime: states nothing for a negative remaining time, which no operation produces.
- Timer.TimerManager.Update: time is exact `real` arithmetic, not `float`.
- Battle.BattleManager.PerformBattle: requires the attack and victory indices to be valid, so an empty `attackMessages` or `victoryMessages` is not modelled. There `Random.Range(0, 0)` returns 0 and the indexing throws before any reward is granted, ending the battle coroutine.
- Battle.BattleManager.PerformBattle: requires a valid level-up index when the battle levels up, so an empty `levelUpMessages` on a level-up is not modelled. There the indexing throws after the rewards were granted and saved, leaving the cached level behind and ending the coroutine.
- Battle.BattleManager.IntervalTick: the same requirements as PerformBattle while active, for the same reason.

## Findings

| source | as written | input that shows it | evidently intended | confidence | as-written member | corrected member |
|---|---|---|---|---|---|---|
| Assets/Scripts/PlayerStats.cs:67-84 | `CheckLevelUp` loops while the experience reaches the next level's threshold. With `0 <= expMultiplier <= 1` and `baseExpRequired >= 0` no threshold exceeds `baseExpRequired`. | `expMultiplier = 1`, `baseExpRequired = 100`, `AddExperience(100)` on a new record: every threshold from level 2 on is 100, so the guard always holds | the loop stops at the highest reachable level, which requires a multiplier above 1 | medium; not executed | Progression.NoGrowthNeverExits | Progression.LevelBound |
