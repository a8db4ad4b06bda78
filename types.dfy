/** Shared data model of the game: the enums, records and constants that the
    progression store, the track and the vocabulary table all use. */
module GameTypes {

  datatype Option<+T> = None | Some(value: T)

  /** The screens the game can be on. */
  datatype GameStatus = Menu | Playing | Shop | Quiz | GameOver | Victory

  /** The two languages an orb can show. */
  datatype Lang = En | Jp

  /** The other language: a held English orb is matched by a Japanese one and back. */
  function Opposite(l: Lang): Lang
  {
    if l == En then Jp else En
  }

  datatype Category =
    | Animals | Food | Colors | Numbers | Nature
    | Body | Greetings | People | Objects | Verbs

  /** How Japanese words are shown: kanji (or kana), hiragana only, or romaji. */
  datatype WritingMode = Kanji | Hiragana | Romaji

  /** One vocabulary entry; `mastery` counts correct matches within a run. */
  datatype WordData = WordData(
    id: string,
    en: string,
    jp: string,
    hiragana: string,
    romaji: string,
    category: Category,
    difficulty: int,
    mastery: int)

  /** The eight achievement ids ("first_match", "word_warrior", "perfect_streak",
      "quiz_master", "speed_demon", "gem_collector", "combo_king", "polyglot"). */
  datatype AchievementId =
    | FirstMatch | WordWarrior | PerfectStreak | QuizMaster
    | SpeedDemon | GemCollector | ComboKing | Polyglot

  /** An achievement's identity and unlock state (its name, description and icon are display text only). */
  datatype Achievement = Achievement(id: AchievementId, unlocked: bool, unlockedAt: Option<int>)

  /** Lifetime statistics; they survive a restart. */
  datatype PlayerStats = PlayerStats(
    totalWordsLearned: int,
    totalMatches: int,
    totalCorrectQuizzes: int,
    highestCombo: int,
    highestStreak: int,
    totalPlayTime: int,
    gemsCollected: int,
    levelsCompleted: int)

  const InitialStats: PlayerStats := PlayerStats(0, 0, 0, 0, 0, 0, 0, 0)

  /** Units per frame step; speed moves in steps of 0.5, so it is a real. */
  const RunSpeedBase: real := 20.0
  const LaneWidth: real := 2.2
  const SpawnDistance: real := 120.0
  const RemoveDistance: real := 20.0

  /** The eight achievements in their fixed list order, all locked. */
  const AchievementCatalog: seq<Achievement> := [
    Achievement(FirstMatch, false, None),
    Achievement(WordWarrior, false, None),
    Achievement(PerfectStreak, false, None),
    Achievement(QuizMaster, false, None),
    Achievement(SpeedDemon, false, None),
    Achievement(GemCollector, false, None),
    Achievement(ComboKing, false, None),
    Achievement(Polyglot, false, None)
  ]
}
