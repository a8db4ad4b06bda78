/** The game's progression store: one record of run and lifetime state and the
    fixed set of actions that change it (word pairing, combo and streak
    scoring, lives and game over, the quiz checkpoint, level progression, shop
    purchases and achievement unlocking).

    Each action is specified by a pure function from the old record to the new
    one; the `Store` class at the end holds the record as fields and proves each
    of its methods against that function. `Date.now()` is a `now` argument,
    `Math.random` is an injected draw (see module Choice), and the two timers
    become the explicit actions `ExpireImmortality` and `ClearPopupIfStill`. */
module Progression {
  import opened GameTypes
  import opened Choice
  import opened Vocabulary

  const MatchesToAdvance: int := 5
  const ComboTimeout: int := 4000   // milliseconds within which a match extends the combo
  const MaxComboTier: int := 10
  const BasePoints: int := 200
  const MismatchPenalty: int := 50
  const QuizBonus: int := 500
  const SpeedStep: real := 0.5
  const StartingLives: int := 3
  const StartingWordCount: int := 5
  const StartingMaxDifficulty: int := 2
  const QuizNewWordCount: int := 3
  const Placeholder: string := "?"
  const DefaultCategories: seq<Category> := [Animals, Food, Nature]

  /** The orb the player carries while looking for its translation. */
  datatype HeldWord = HeldWord(id: string, text: string, lang: Lang)

  datatype ShopItem = DoubleJump | MaxLife | Heal | Immortal

  /** The random draws one quiz start consumes: the question index, the order of
      the candidate distractors, and the order of the three options. */
  datatype QuizDraw = QuizDraw(question: nat, distractors: seq<nat>, options: seq<nat>)

  datatype GameState = GameState(
    status: GameStatus,
    score: int,
    lives: int,
    maxLives: int,
    speed: real,
    level: int,
    laneCount: int,
    gemsCollected: int,
    distance: real,
    activeWords: seq<WordData>,
    learnedWords: seq<WordData>,
    holdingWord: Option<HeldWord>,
    matchesMade: int,
    selectedCategories: seq<Category>,
    writingMode: WritingMode,
    combo: int,
    maxCombo: int,
    streak: int,
    lastMatchTime: int,
    achievements: seq<Achievement>,
    newAchievement: Option<Achievement>,
    playerStats: PlayerStats,
    quizQuestion: Option<WordData>,
    quizOptions: seq<string>,
    quizzesCompleted: int,
    hasDoubleJump: bool,
    hasImmortality: bool,
    isImmortalityActive: bool)

  const InitialState: GameState := GameState(
    Menu, 0, StartingLives, StartingLives, 0.0, 1, 3, 0, 0.0,
    [], [], None, 0,
    DefaultCategories, Kanji,
    0, 0, 0, 0,
    AchievementCatalog, None, InitialStats,
    None, [], 0,
    false, false, false)

  function Min(a: int, b: int): int { if a < b then a else b }
  function Max(a: int, b: int): int { if a < b then b else a }

  // ---------------------------------------------------------------------------
  // Invariant of the record

  /** Achievements keep the catalogue's ids in its order, and an entry carries a
      timestamp exactly when it is unlocked. */
  ghost predicate AchievementsWellFormed(achs: seq<Achievement>)
  {
    && |achs| == |AchievementCatalog|
    && (forall i :: 0 <= i < |achs| ==> achs[i].id == AchievementCatalog[i].id)
    && (forall i :: 0 <= i < |achs| ==> (achs[i].unlocked <==> achs[i].unlockedAt.Some?))
  }

  ghost predicate Inv(s: GameState)
  {
    && 0 <= s.lives <= s.maxLives
    && StartingLives <= s.maxLives
    && 0 <= s.combo <= s.maxCombo <= MaxComboTier
    && s.combo <= s.playerStats.highestCombo <= MaxComboTier
    && 0 <= s.streak <= s.playerStats.highestStreak
    && 0 <= s.matchesMade
    && 1 <= s.level
    && s.speed >= 0.0
    && s.laneCount == 3
    && AchievementsWellFormed(s.achievements)
    && (s.newAchievement.Some? ==> s.newAchievement.value in s.achievements && s.newAchievement.value.unlocked)
  }

  lemma InitialStateValid()
    ensures Inv(InitialState)
  {
  }

  // ---------------------------------------------------------------------------
  // Display text

  /** The text a word is shown with under a writing mode. */
  function GetDisplayText(word: WordData, mode: WritingMode): (text: string)
    ensures text == word.jp || text == word.hiragana || text == word.romaji
    ensures mode == Hiragana ==> text == word.hiragana
    ensures mode == Romaji ==> text == word.romaji
    ensures mode == Kanji ==> text == word.jp
  {
    match mode
    case Hiragana => word.hiragana
    case Romaji => word.romaji
    case Kanji => word.jp
  }

  function DisplayTexts(ws: seq<WordData>, mode: WritingMode): (r: seq<string>)
    ensures |r| == |ws|
    ensures forall i :: 0 <= i < |ws| ==> r[i] == GetDisplayText(ws[i], mode)
  {
    seq(|ws|, i requires 0 <= i < |ws| => GetDisplayText(ws[i], mode))
  }

  // ---------------------------------------------------------------------------
  // startGame

  /** A new run: five words of difficulty at most 2 from the selected categories,
      and every run-scoped field back to its starting value. Lifetime statistics,
      achievements, the lives ceiling and the settings carry over. */
  function Started(s: GameState, table: seq<WordData>, now: int, draws: seq<nat>): GameState
  {
    s.(status := Playing, score := 0, lives := StartingLives, speed := RunSpeedBase, level := 1, laneCount := 3,
       activeWords := RandomWords(table, s.selectedCategories, StartingWordCount, StartingMaxDifficulty, draws),
       learnedWords := [], holdingWord := None, matchesMade := 0, combo := 0, streak := 0,
       lastMatchTime := now, hasDoubleJump := false, hasImmortality := false, newAchievement := None)
  }

  /** A restart resets the run whatever state the previous run ended in, and
      starts with up to five distinct, unmastered words of the selected
      categories at difficulty 1 or 2. */
  lemma StartResetsRun(s: GameState, table: seq<WordData>, now: int, draws: seq<nat>)
    requires WellFormedTable(table)
    ensures var t := Started(s, table, now, draws);
      && t.status == Playing && t.score == 0 && t.lives == StartingLives && t.speed == RunSpeedBase
      && t.matchesMade == 0 && t.holdingWord == None && t.combo == 0 && t.streak == 0 && t.level == 1
      && |t.activeWords| == Min(StartingWordCount, |Pool(table, s.selectedCategories, StartingMaxDifficulty)|)
      && (forall i :: 0 <= i < |t.activeWords| ==>
            && t.activeWords[i].category in s.selectedCategories
            && 1 <= t.activeWords[i].difficulty <= StartingMaxDifficulty
            && t.activeWords[i].mastery == 0)
      && DistinctBy(t.activeWords, IdOf)
      && t.playerStats == s.playerStats && t.achievements == s.achievements && t.maxLives == s.maxLives
  {
    var words := RandomWords(table, s.selectedCategories, StartingWordCount, StartingMaxDifficulty, draws);
    RandomWordsDistinct(table, s.selectedCategories, StartingWordCount, StartingMaxDifficulty, draws);
    forall i | 0 <= i < |words|
      ensures 1 <= words[i].difficulty && words[i].mastery == 0
    {
      var k :| 0 <= k < |table| && table[k] == words[i];
    }
  }

  lemma StartedKeepsInv(s: GameState, table: seq<WordData>, now: int, draws: seq<nat>)
    requires Inv(s)
    ensures Inv(Started(s, table, now, draws))
  {
  }

  // ---------------------------------------------------------------------------
  // takeDamage

  function Damaged(s: GameState): GameState
  {
    if s.isImmortalityActive then s
    else if s.lives > 1 then s.(combo := 0, streak := 0, lives := s.lives - 1, holdingWord := None)
    else s.(combo := 0, streak := 0, lives := 0, status := GameOver, speed := 0.0)
  }

  /** Damage while immortal changes nothing; otherwise it breaks the combo and
      streak and costs a life, and the last life ends the run with the held word
      left in place. */
  lemma DamageRules(s: GameState)
    ensures s.isImmortalityActive ==> Damaged(s) == s
    ensures !s.isImmortalityActive ==> Damaged(s).combo == 0 && Damaged(s).streak == 0
    ensures !s.isImmortalityActive && s.lives > 1 ==>
      && Damaged(s).lives == s.lives - 1 && Damaged(s).holdingWord == None
      && Damaged(s).status == s.status && Damaged(s).speed == s.speed
    ensures !s.isImmortalityActive && s.lives <= 1 ==>
      && Damaged(s).lives == 0 && Damaged(s).status == GameOver && Damaged(s).speed == 0.0
      && Damaged(s).holdingWord == s.holdingWord
    ensures Damaged(s).score == s.score && Damaged(s).matchesMade == s.matchesMade
  {
  }

  lemma DamagedKeepsInv(s: GameState)
    requires Inv(s)
    ensures Inv(Damaged(s))
    ensures Damaged(s).lives == 0 <==> (!s.isImmortalityActive && s.lives <= 1) || s.lives == 0
  {
  }

  // ---------------------------------------------------------------------------
  // checkAchievements

  /** The unlock test of each achievement; "speed_demon" and "combo_king"
      share one test, and "polyglot" counts the selected categories. */
  function ShouldUnlock(id: AchievementId, s: GameState): bool
  {
    match id
    case FirstMatch => s.playerStats.totalMatches >= 1
    case WordWarrior => s.playerStats.totalMatches >= 50
    case PerfectStreak => s.streak >= 10
    case QuizMaster => s.playerStats.totalCorrectQuizzes >= 10
    case SpeedDemon => s.combo >= 5
    case GemCollector => s.playerStats.gemsCollected >= 500
    case ComboKing => s.combo >= 5
    case Polyglot => |s.selectedCategories| >= 10
  }

  predicate NewlyUnlocks(a: Achievement, s: GameState)
  {
    !a.unlocked && ShouldUnlock(a.id, s)
  }

  function Unlock(a: Achievement, s: GameState, now: int): Achievement
  {
    if NewlyUnlocks(a, s) then a.(unlocked := true, unlockedAt := Some(now)) else a
  }

  /** Every entry evaluated once. */
  function Evaluated(achs: seq<Achievement>, s: GameState, now: int): (r: seq<Achievement>)
    ensures |r| == |achs|
    ensures forall i :: 0 <= i < |achs| ==> r[i] == Unlock(achs[i], s, now)
  {
    seq(|achs|, i requires 0 <= i < |achs| => Unlock(achs[i], s, now))
  }

  /** The unlock test of one entry in a pass over state `s`. */
  function DueIn(s: GameState): Achievement -> bool
  {
    (a: Achievement) => NewlyUnlocks(a, s)
  }

  /** The unlocked copy of the last entry, in list order, that unlocks in this pass. */
  function LastUnlock(achs: seq<Achievement>, s: GameState, now: int): Option<Achievement>
  {
    match LastWhere(achs, DueIn(s))
    case None => None
    case Some(k) => Some(Unlock(achs[k], s, now))
  }

  /** A pass publishes an entry exactly when some entry unlocks, and it is the
      last such entry in list order, unlocked now. */
  lemma LastUnlockIsLast(achs: seq<Achievement>, s: GameState, now: int)
    ensures LastUnlock(achs, s, now).Some? <==> exists k :: 0 <= k < |achs| && NewlyUnlocks(achs[k], s)
    ensures LastUnlock(achs, s, now).Some? ==>
      exists k :: 0 <= k < |achs| && NewlyUnlocks(achs[k], s) && LastUnlock(achs, s, now).value == Unlock(achs[k], s, now)
        && (forall j :: k < j < |achs| ==> !NewlyUnlocks(achs[j], s))
  {
    var last := LastWhere(achs, DueIn(s));
    if last.Some? {
      assert DueIn(s)(achs[last.value]);
    } else {
      assert forall j :: 0 <= j < |achs| ==> !DueIn(s)(achs[j]);
    }
  }

  /** The state with an updated achievement list and the popup showing `shown`. */
  function Published(s: GameState, achs: seq<Achievement>, shown: Achievement): GameState
  {
    s.(achievements := achs, newAchievement := Some(shown))
  }

  /** A pass stores the updated list only when something unlocked. */
  function AchievementsChecked(s: GameState, now: int): GameState
  {
    match LastUnlock(s.achievements, s, now)
    case None => s
    case Some(a) => Published(s, Evaluated(s.achievements, s, now), a)
  }

  /** A pass changes nothing but the achievement list and the popup. */
  lemma AchievementsCheckedFrame(s: GameState, now: int)
    ensures var t := AchievementsChecked(s, now);
      t == s.(achievements := t.achievements, newAchievement := t.newAchievement)
  {
  }

  /** Unlocking is monotonic: an unlocked entry is never touched, a locked one
      changes only when its test holds, and then it becomes unlocked at `now`;
      the popup changes only when something unlocked in this pass. */
  lemma AchievementsMonotonic(s: GameState, now: int)
    ensures var t := AchievementsChecked(s, now);
      && |t.achievements| == |s.achievements|
      && (forall i :: 0 <= i < |s.achievements| && s.achievements[i].unlocked ==>
            t.achievements[i] == s.achievements[i])
      && (forall i :: 0 <= i < |s.achievements| && t.achievements[i] != s.achievements[i] ==>
            NewlyUnlocks(s.achievements[i], s)
            && t.achievements[i] == s.achievements[i].(unlocked := true, unlockedAt := Some(now)))
      && (t.newAchievement != s.newAchievement ==>
            exists k :: 0 <= k < |s.achievements| && NewlyUnlocks(s.achievements[k], s))
  {
    LastUnlockIsLast(s.achievements, s, now);
  }

  /** When entries unlock in a pass the popup shows the last of them, as
      stored in the updated list. */
  lemma PopupShowsLastUnlock(s: GameState, now: int)
    requires exists k :: 0 <= k < |s.achievements| && NewlyUnlocks(s.achievements[k], s)
    ensures var t := AchievementsChecked(s, now);
      && t.newAchievement.Some?
      && exists k :: 0 <= k < |s.achievements| && NewlyUnlocks(s.achievements[k], s)
           && t.newAchievement.value == t.achievements[k]
           && (forall j :: k < j < |s.achievements| ==> !NewlyUnlocks(s.achievements[j], s))
  {
    LastUnlockIsLast(s.achievements, s, now);
  }

  lemma AchievementsCheckedKeepsInv(s: GameState, now: int)
    requires Inv(s)
    ensures Inv(AchievementsChecked(s, now))
  {
    var t := AchievementsChecked(s, now);
    LastUnlockIsLast(s.achievements, s, now);
    if LastUnlock(s.achievements, s, now).Some? {
      var k :| 0 <= k < |s.achievements| && NewlyUnlocks(s.achievements[k], s)
        && LastUnlock(s.achievements, s, now).value == Unlock(s.achievements[k], s, now);
      assert t.achievements[k] == t.newAchievement.value;
    }
  }

  /** One pass over a copy of the achievement list in `s`, unlocking in place
      and remembering the last entry unlocked. */
  method EvaluateAchievements(s: GameState, now: int) returns (updated: seq<Achievement>, newUnlock: Option<Achievement>)
    ensures updated == Evaluated(s.achievements, s, now)
    ensures newUnlock == LastUnlock(s.achievements, s, now)
  {
    updated := s.achievements;
    newUnlock := None;
    var i := 0;
    while i < |updated|
      invariant 0 <= i <= |updated| == |s.achievements|
      invariant forall k :: 0 <= k < i ==> updated[k] == Unlock(s.achievements[k], s, now)
      invariant forall k :: i <= k < |updated| ==> updated[k] == s.achievements[k]
      invariant newUnlock == LastUnlock(s.achievements[..i], s, now)
    {
      var ach := updated[i];
      ghost var prefix := s.achievements[..i + 1];
      assert prefix[..i] == s.achievements[..i] && prefix[i] == ach;
      assert DueIn(s)(ach) == NewlyUnlocks(ach, s);
      if !ach.unlocked && ShouldUnlock(ach.id, s) {
        updated := updated[i := ach.(unlocked := true, unlockedAt := Some(now))];
        newUnlock := Some(updated[i]);
      }
      i := i + 1;
    }
    assert s.achievements[..i] == s.achievements;
  }

  // ---------------------------------------------------------------------------
  // collectGem

  /** The bookkeeping of a gem, before the achievement pass. */
  function GemAdded(s: GameState, value: int): GameState
  {
    s.(score := s.score + value, gemsCollected := s.gemsCollected + 1,
       playerStats := s.playerStats.(gemsCollected := s.playerStats.gemsCollected + 1))
  }

  lemma GemAddedKeepsInv(s: GameState, value: int)
    requires Inv(s)
    ensures Inv(GemAdded(s, value))
  {
  }

  function GemCollected(s: GameState, value: int, now: int): GameState
  {
    AchievementsChecked(GemAdded(s, value), now)
  }

  /** A gem adds its value to the score and counts once in the run and once
      in the lifetime statistics; the invariant holds after the achievement pass. */
  lemma GemCollectedKeepsInv(s: GameState, value: int, now: int)
    requires Inv(s)
    ensures Inv(GemCollected(s, value, now))
    ensures GemCollected(s, value, now).score == s.score + value
    ensures GemCollected(s, value, now).gemsCollected == s.gemsCollected + 1
    ensures GemCollected(s, value, now).playerStats.gemsCollected == s.playerStats.gemsCollected + 1
  {
    var s1 := GemAdded(s, value);
    GemAddedKeepsInv(s, value);
    AchievementsCheckedKeepsInv(s1, now);
    AchievementsCheckedFrame(s1, now);
  }

  // ---------------------------------------------------------------------------
  // collectWord

  /** A held orb and a collected one form a pair when they are the two
      languages of the same word. */
  predicate IsMatch(held: HeldWord, id: string, lang: Lang)
  {
    held.id == id && held.lang != lang
  }

  /** The combo after a match at `now`: one more (at most 10) within the combo
      window of the previous match, otherwise 1. */
  function NextCombo(combo: int, lastMatchTime: int, now: int): int
  {
    if now - lastMatchTime < ComboTimeout then Min(combo + 1, MaxComboTier) else 1
  }

  /** `floor(200 * (1 + (combo - 1) * 0.25))`. */
  function ComboPoints(combo: int): int
  {
    (BasePoints as real * (1.0 + (combo - 1) as real * 0.25)).Floor
  }

  /** The combo formula is exact: 150 + 50 per tier. */
  lemma ComboPointsExact(combo: int)
    ensures ComboPoints(combo) == 150 + 50 * combo
  {
    assert BasePoints as real * (1.0 + (combo - 1) as real * 0.25) == (150 + 50 * combo) as real;
  }

  /** A match's combo lies in 1..10, so it is worth between 200 and 650 points. */
  lemma ComboBounds(combo: int, lastMatchTime: int, now: int)
    requires 0 <= combo <= MaxComboTier
    ensures 1 <= NextCombo(combo, lastMatchTime, now) <= MaxComboTier
    ensures 200 <= ComboPoints(NextCombo(combo, lastMatchTime, now)) <= 650
    ensures now - lastMatchTime >= ComboTimeout ==> NextCombo(combo, lastMatchTime, now) == 1
    ensures now - lastMatchTime < ComboTimeout && combo < MaxComboTier ==>
      NextCombo(combo, lastMatchTime, now) == combo + 1
  {
    ComboPointsExact(NextCombo(combo, lastMatchTime, now));
  }

  /** Every active word with the matched id gains one mastery point. */
  function AddMastery(words: seq<WordData>, id: string): (r: seq<WordData>)
    ensures |r| == |words|
    ensures forall i :: 0 <= i < |words| ==> r[i].mastery == words[i].mastery + (if words[i].id == id then 1 else 0)
    ensures forall i :: 0 <= i < |words| ==> r[i].(mastery := words[i].mastery) == words[i]
  {
    seq(|words|, i requires 0 <= i < |words| =>
      if words[i].id == id then words[i].(mastery := words[i].mastery + 1) else words[i])
  }

  /** The bookkeeping of a correct pair, before achievements and the quiz check. */
  function Matched(s: GameState, id: string, now: int): GameState
  {
    var newCombo := NextCombo(s.combo, s.lastMatchTime, now);
    var newStreak := s.streak + 1;
    s.(holdingWord := None,
       score := s.score + ComboPoints(newCombo),
       activeWords := AddMastery(s.activeWords, id),
       matchesMade := s.matchesMade + 1,
       speed := s.speed + SpeedStep,
       combo := newCombo,
       maxCombo := Max(s.maxCombo, newCombo),
       streak := newStreak,
       lastMatchTime := now,
       playerStats := s.playerStats.(
         totalMatches := s.playerStats.totalMatches + 1,
         highestCombo := Max(s.playerStats.highestCombo, newCombo),
         highestStreak := Max(s.playerStats.highestStreak, newStreak)))
  }

  function WordCollected(s: GameState, id: string, text: string, lang: Lang, now: int, draw: QuizDraw): GameState
  {
    match s.holdingWord
    case None => s.(holdingWord := Some(HeldWord(id, text, lang)))
    case Some(held) =>
      if IsMatch(held, id, lang) then
        var checked := AchievementsChecked(Matched(s, id, now), now);
        if s.matchesMade + 1 >= MatchesToAdvance then QuizStarted(checked, draw) else checked
      else
        s.(holdingWord := None, combo := 0, streak := 0, score := Max(0, s.score - MismatchPenalty))
  }

  /** With empty hands a collected orb is only remembered. */
  lemma FirstHalfIsHeld(s: GameState, id: string, text: string, lang: Lang, now: int, draw: QuizDraw)
    requires s.holdingWord == None
    ensures WordCollected(s, id, text, lang, now, draw) == s.(holdingWord := Some(HeldWord(id, text, lang)))
  {
  }

  /** With a word held, the second orb counts as a match exactly when it is the
      same word in the other language; everything else is a mismatch that drops
      the held word, breaks combo and streak, and costs 50 points without going
      below zero. */
  lemma MatchIffSameWordOtherLanguage(s: GameState, id: string, text: string, lang: Lang, now: int, draw: QuizDraw)
    requires s.holdingWord.Some?
    ensures var t := WordCollected(s, id, text, lang, now, draw);
      && (t.matchesMade == s.matchesMade + 1 <==> IsMatch(s.holdingWord.value, id, lang))
      && (!IsMatch(s.holdingWord.value, id, lang) ==>
            && t == s.(holdingWord := None, combo := 0, streak := 0, score := Max(0, s.score - MismatchPenalty))
            && t.score >= 0 && t.matchesMade == s.matchesMade)
  {
    if IsMatch(s.holdingWord.value, id, lang) {
      var m := Matched(s, id, now);
      AchievementsCheckedFrame(m, now);
    }
  }

  /** A match clears the hand, adds the combo's points, one match, one streak
      step and half a speed unit (unless the quiz it triggers stops the run),
      raises the combo records, counts one lifetime match, and gives one
      mastery point to the matched word only. It enters the quiz exactly when
      this is the fifth match and there is a word to ask about. */
  lemma MatchBookkeeping(s: GameState, id: string, text: string, lang: Lang, now: int, draw: QuizDraw)
    requires Inv(s)
    requires s.holdingWord.Some? && IsMatch(s.holdingWord.value, id, lang)
    ensures var t := WordCollected(s, id, text, lang, now, draw);
      var newCombo := NextCombo(s.combo, s.lastMatchTime, now);
      var quiz := s.matchesMade + 1 >= MatchesToAdvance && |s.activeWords| + |s.learnedWords| > 0;
      && t.holdingWord == None
      && t.score == s.score + 150 + 50 * newCombo
      && 1 <= t.combo == newCombo <= MaxComboTier
      && t.matchesMade == s.matchesMade + 1
      && t.streak == s.streak + 1
      && t.maxCombo == Max(s.maxCombo, newCombo) && t.maxCombo >= t.combo
      && t.playerStats.highestCombo >= newCombo && t.playerStats.highestStreak >= s.streak + 1
      && t.playerStats.totalMatches == s.playerStats.totalMatches + 1
      && t.activeWords == AddMastery(s.activeWords, id)
      && t.lastMatchTime == now
      && (quiz ==> t.status == Quiz && t.speed == 0.0 && t.quizQuestion.Some?)
      && (!quiz ==> t.status == s.status && t.speed == s.speed + SpeedStep && t.quizQuestion == s.quizQuestion)
  {
    var m := Matched(s, id, now);
    ComboBounds(s.combo, s.lastMatchTime, now);
    ComboPointsExact(NextCombo(s.combo, s.lastMatchTime, now));
    AchievementsCheckedFrame(m, now);
  }

  lemma WordCollectedKeepsInv(s: GameState, id: string, text: string, lang: Lang, now: int, draw: QuizDraw)
    requires Inv(s)
    ensures Inv(WordCollected(s, id, text, lang, now, draw))
  {
    if s.holdingWord.Some? && IsMatch(s.holdingWord.value, id, lang) {
      var m := Matched(s, id, now);
      ComboBounds(s.combo, s.lastMatchTime, now);
      assert Inv(m);
      AchievementsCheckedKeepsInv(m, now);
      QuizStartedKeepsInv(AchievementsChecked(m, now), draw);
    }
  }

  // ---------------------------------------------------------------------------
  // startQuiz

  function OtherId(id: string): WordData -> bool
  {
    (w: WordData) => w.id != id
  }

  /** Pads a list of at most two distractors with "?" up to two. */
  function Padded(wrongs: seq<string>): (r: seq<string>)
    requires |wrongs| <= 2
    decreases 2 - |wrongs|
  {
    if |wrongs| >= 2 then wrongs else Padded(wrongs + [Placeholder])
  }

  lemma {:induction false} PaddedShape(wrongs: seq<string>)
    requires |wrongs| <= 2
    ensures |Padded(wrongs)| == 2
    ensures Padded(wrongs)[..|wrongs|] == wrongs
    ensures forall i :: |wrongs| <= i < 2 ==> Padded(wrongs)[i] == Placeholder
    decreases 2 - |wrongs|
  {
    if |wrongs| < 2 {
      PaddedShape(wrongs + [Placeholder]);
      assert Padded(wrongs)[..|wrongs| + 1][..|wrongs|] == wrongs;
    }
  }

  /** Up to two display texts of pool words other than the question, in random
      order: two whenever the pool holds two such words, all of them otherwise. */
  function Distractors(pool: seq<WordData>, question: WordData, mode: WritingMode, order: seq<nat>): (r: seq<string>)
    ensures |r| <= 2
    ensures var n := |Filter(pool, OtherId(question.id))|; |r| == if n < 2 then n else 2
  {
    Take(Shuffle(DisplayTexts(Filter(pool, OtherId(question.id)), mode), order), 2)
  }

  function QuizOptions(pool: seq<WordData>, question: WordData, mode: WritingMode, draw: QuizDraw): seq<string>
  {
    Shuffle([GetDisplayText(question, mode)] + Padded(Distractors(pool, question, mode, draw.distractors)), draw.options)
  }

  function QuizStarted(s: GameState, draw: QuizDraw): GameState
  {
    var pool := s.activeWords + s.learnedWords;
    if |pool| == 0 then s
    else
      var question := pool[draw.question % |pool|];
      s.(status := Quiz, quizQuestion := Some(question),
         quizOptions := QuizOptions(pool, question, s.writingMode, draw), speed := 0.0)
  }

  /** Every distractor is the display text of a pool word with another id. */
  lemma DistractorsFromOtherWords(pool: seq<WordData>, question: WordData, mode: WritingMode, order: seq<nat>)
    ensures forall i :: 0 <= i < |Distractors(pool, question, mode, order)| ==>
      exists w :: w in pool && w.id != question.id && Distractors(pool, question, mode, order)[i] == GetDisplayText(w, mode)
  {
    var others := Filter(pool, OtherId(question.id));
    var texts := DisplayTexts(others, mode);
    var shuffled := Shuffle(texts, order);
    var d := Distractors(pool, question, mode, order);
    assert d == Take(shuffled, 2);
    ShuffleSameMembers(texts, order);
    forall i | 0 <= i < |d|
      ensures exists w :: w in pool && w.id != question.id && d[i] == GetDisplayText(w, mode)
    {
      assert d[i] in texts by {
        assert d[i] == shuffled[i];
      }
      var k :| 0 <= k < |texts| && texts[k] == d[i];
      assert others[k] in pool && OtherId(question.id)(others[k]);
    }
  }

  /** An option drawn from the pool: the question's own text or the text of a
      pool word with another id. */
  ghost predicate DrawnOption(pool: seq<WordData>, question: WordData, mode: WritingMode, o: string)
  {
    || o == GetDisplayText(question, mode)
    || exists w :: w in pool && w.id != question.id && o == GetDisplayText(w, mode)
  }

  /** A quiz option that is fair to show: one drawn from the pool, or "?". */
  ghost predicate FairOption(pool: seq<WordData>, question: WordData, mode: WritingMode, o: string)
  {
    DrawnOption(pool, question, mode, o) || o == Placeholder
  }

  /** The two padded distractors are each "?" or the text of a pool word with
      another id, and "?" pads only when the pool has fewer than two such words. */
  lemma PaddedDistractors(pool: seq<WordData>, question: WordData, mode: WritingMode, order: seq<nat>)
    ensures var padded := Padded(Distractors(pool, question, mode, order));
      && |padded| == 2
      && forall x :: x in padded ==>
           || (x == Placeholder && |Filter(pool, OtherId(question.id))| < 2)
           || exists w :: w in pool && w.id != question.id && x == GetDisplayText(w, mode)
  {
    var d := Distractors(pool, question, mode, order);
    PaddedShape(d);
    DistractorsFromOtherWords(pool, question, mode, order);
    var padded := Padded(d);
    forall x | x in padded
      ensures || (x == Placeholder && |Filter(pool, OtherId(question.id))| < 2)
              || exists w :: w in pool && w.id != question.id && x == GetDisplayText(w, mode)
    {
      var k :| 0 <= k < 2 && padded[k] == x;
      if k < |d| {
        assert padded[k] == padded[..|d|][k];
      }
    }
  }

  /** Every entry of the unshuffled options is fair, and drawn from the pool when
      the pool has two other words. */
  lemma ListedOptionsFair(pool: seq<WordData>, question: WordData, mode: WritingMode, order: seq<nat>)
    ensures var listed := [GetDisplayText(question, mode)] + Padded(Distractors(pool, question, mode, order));
      forall o :: o in listed ==>
        && FairOption(pool, question, mode, o)
        && (|Filter(pool, OtherId(question.id))| >= 2 ==> DrawnOption(pool, question, mode, o))
  {
    var correct := GetDisplayText(question, mode);
    var padded := Padded(Distractors(pool, question, mode, order));
    PaddedDistractors(pool, question, mode, order);
    forall o | o in [correct] + padded
      ensures FairOption(pool, question, mode, o)
      ensures |Filter(pool, OtherId(question.id))| >= 2 ==> DrawnOption(pool, question, mode, o)
    {
      if o != correct {
        assert o in padded;
      }
    }
  }

  /** There are exactly three options, the question's own text among them, and
      every option is fair: the question's text, "?", or the text of a pool word
      with another id. With two or more other words in the pool, no "?" is padded in. */
  lemma OptionsShape(pool: seq<WordData>, question: WordData, mode: WritingMode, draw: QuizDraw)
    ensures var options := QuizOptions(pool, question, mode, draw);
      && |options| == 3
      && GetDisplayText(question, mode) in options
      && (forall o :: o in options ==> FairOption(pool, question, mode, o))
      && (|Filter(pool, OtherId(question.id))| >= 2 ==>
            forall o :: o in options ==> DrawnOption(pool, question, mode, o))
  {
    var correct := GetDisplayText(question, mode);
    var padded := Padded(Distractors(pool, question, mode, draw.distractors));
    var listed := [correct] + padded;
    var options := QuizOptions(pool, question, mode, draw);
    assert options == Shuffle(listed, draw.options);
    ShuffleSameMembers(listed, draw.options);
    assert |options| == 3 by {
      PaddedShape(Distractors(pool, question, mode, draw.distractors));
    }
    assert correct in options by {
      assert listed[0] == correct;
    }
    ListedOptionsFair(pool, question, mode, draw.distractors);
  }

  /** An empty pool leaves the run as it is; otherwise the run stops in the
      quiz screen on a question from the pool with its options, and nothing
      else changes (the match counter in particular). */
  lemma QuizShape(s: GameState, draw: QuizDraw)
    ensures var pool := s.activeWords + s.learnedWords;
      var t := QuizStarted(s, draw);
      && (|pool| == 0 ==> t == s)
      && (|pool| > 0 ==>
            && t.quizQuestion.Some? && t.quizQuestion.value in pool
            && t.quizOptions == QuizOptions(pool, t.quizQuestion.value, s.writingMode, draw)
            && t == s.(status := Quiz, quizQuestion := t.quizQuestion, quizOptions := t.quizOptions, speed := 0.0))
  {
  }

  /** With a pool of two words with different ids, asked about the first, the
      only distractor is the second's text. */
  lemma PairDistractor(a: WordData, b: WordData, mode: WritingMode)
    requires a.id != b.id
    ensures Distractors([a, b], a, mode, []) == [GetDisplayText(b, mode)]
  {
    var pool := [a, b];
    assert Filter([b], OtherId(a.id)) == [b] by {
      assert [b][1..] == [];
    }
    assert Filter(pool, OtherId(a.id)) == [b] by {
      assert pool[1..] == [b];
    }
    assert DisplayTexts([b], mode) == [GetDisplayText(b, mode)];
  }

  /** When those two words share their text (other than "?"), the options offer it twice. */
  lemma PairOptions(a: WordData, b: WordData, mode: WritingMode)
    requires a.id != b.id && GetDisplayText(a, mode) == GetDisplayText(b, mode) != Placeholder
    ensures multiset(QuizOptions([a, b], a, mode, QuizDraw(0, [], [])))[GetDisplayText(a, mode)] == 2
  {
    var text := GetDisplayText(a, mode);
    PairDistractor(a, b, mode);
    var d := Distractors([a, b], a, mode, []);
    assert Padded(d) == [text, Placeholder];
    var listed := [text] + Padded(d);
    assert listed == [text, text, Placeholder];
    assert multiset(Shuffle(listed, [])) == multiset(listed);
  }

  /** A quiz started on such a pool with the first draw asks about the first
      word and offers its text twice. */
  lemma PairQuizRepeats(s: GameState, a: WordData, b: WordData)
    requires s.activeWords + s.learnedWords == [a, b]
    requires a.id != b.id && GetDisplayText(a, s.writingMode) == GetDisplayText(b, s.writingMode) != Placeholder
    ensures var t := QuizStarted(s, QuizDraw(0, [], []));
      t.quizQuestion == Some(a) && multiset(t.quizOptions)[GetDisplayText(a, s.writingMode)] == 2
  {
    PairOptions(a, b, s.writingMode);
    var pool := s.activeWords + s.learnedWords;
    assert pool[0 % |pool|] == a;
  }

  /** The fruit "Orange" (f8) and the colour "Orange" (c7) of the word table. */
  const OrangeFruit: WordData := VocabularyDatabase[22]
  const OrangeColour: WordData := VocabularyDatabase[36]

  /** Asked about the fruit "Orange" with the colour "Orange" in the pool, the
      only distractor is the colour's text, which is the question's own. */
  lemma OrangeDistractor()
    ensures Distractors([OrangeFruit, OrangeColour], OrangeFruit, Kanji, []) == ["オレンジ"]
  {
    SharedTextAcrossIds();
    PairDistractor(OrangeFruit, OrangeColour, Kanji);
  }

  /** The same pool yields the question's text twice among the options. */
  lemma OrangeOptions()
    ensures multiset(QuizOptions([OrangeFruit, OrangeColour], OrangeFruit, Kanji, QuizDraw(0, [], [])))["オレンジ"] == 2
  {
    SharedTextAcrossIds();
    PairOptions(OrangeFruit, OrangeColour, Kanji);
  }

  /** The distractors are filtered by id, not by text, so the correct text can
      be offered twice: the fruit "Orange" and the colour "Orange" share it. */
  lemma CorrectTextCanRepeat(s: GameState)
    requires s.activeWords + s.learnedWords == [OrangeFruit, OrangeColour] && s.writingMode == Kanji
    ensures var t := QuizStarted(s, QuizDraw(0, [], []));
      t.quizQuestion == Some(OrangeFruit) && multiset(t.quizOptions)["オレンジ"] == 2
  {
    SharedTextAcrossIds();
    PairQuizRepeats(s, OrangeFruit, OrangeColour);
  }

  lemma QuizStartedKeepsInv(s: GameState, draw: QuizDraw)
    requires Inv(s)
    ensures Inv(QuizStarted(s, draw))
  {
  }

  // ---------------------------------------------------------------------------
  // answerQuiz

  /** The difficulty ceiling for the words added on reaching `level`. */
  function NewWordCeiling(level: int): int
  {
    Min(3, level / 2 + 1)
  }

  function NotActive(active: seq<WordData>): WordData -> bool
  {
    (w: WordData) => forall k :: 0 <= k < |active| ==> active[k].id != w.id
  }

  /** The words a quiz passed at `level` adds: three drawn from `categories`
      at the next level's ceiling, less those already `active`. */
  function NewWords(table: seq<WordData>, categories: seq<Category>, level: int, active: seq<WordData>,
                    draws: seq<nat>): seq<WordData>
  {
    Filter(RandomWords(table, categories, QuizNewWordCount, NewWordCeiling(level + 1), draws), NotActive(active))
  }

  /** The state after a correct answer, before the achievement pass. */
  function Passed(s: GameState, newWords: seq<WordData>): GameState
  {
    s.(status := Playing, level := s.level + 1, activeWords := s.activeWords + newWords,
       matchesMade := 0, speed := RunSpeedBase + ((s.level + 1) * 2) as real,
       score := s.score + QuizBonus, quizzesCompleted := s.quizzesCompleted + 1,
       playerStats := s.playerStats.(
         totalCorrectQuizzes := s.playerStats.totalCorrectQuizzes + 1,
         levelsCompleted := s.playerStats.levelsCompleted + 1))
  }

  function QuizAnswered(s: GameState, table: seq<WordData>, answer: string, now: int, draws: seq<nat>): (GameState, bool)
  {
    match s.quizQuestion
    case None => (s, false)
    case Some(question) =>
      if answer == GetDisplayText(question, s.writingMode) then
        (AchievementsChecked(Passed(s, NewWords(table, s.selectedCategories, s.level, s.activeWords, draws)), now), true)
      else
        (Damaged(s), false)
  }

  /** Answering with no question does nothing and reports failure; otherwise
      the answer is accepted exactly when it is the question's display text,
      and a wrong answer is damage. */
  lemma AnswerOutcome(s: GameState, table: seq<WordData>, answer: string, now: int, draws: seq<nat>)
    ensures var (t, ok) := QuizAnswered(s, table, answer, now, draws);
      && (s.quizQuestion.None? ==> t == s && !ok)
      && (s.quizQuestion.Some? ==> (ok <==> answer == GetDisplayText(s.quizQuestion.value, s.writingMode)))
      && (s.quizQuestion.Some? && !ok ==> t == Damaged(s))
  {
  }

  /** The right answer resumes play one level up with the match counter
      cleared, 500 points, speed 20 + 2 per level, and one more passed quiz
      and completed level; the active words only grow. */
  lemma PassRewards(s: GameState, table: seq<WordData>, answer: string, now: int, draws: seq<nat>)
    requires s.quizQuestion.Some? && answer == GetDisplayText(s.quizQuestion.value, s.writingMode)
    ensures var (t, ok) := QuizAnswered(s, table, answer, now, draws);
      && ok
      && t.status == Playing && t.level == s.level + 1 && t.matchesMade == 0
      && t.score == s.score + QuizBonus && t.speed == RunSpeedBase + (2 * (s.level + 1)) as real
      && t.playerStats.totalCorrectQuizzes == s.playerStats.totalCorrectQuizzes + 1
      && t.playerStats.levelsCompleted == s.playerStats.levelsCompleted + 1
      && t.activeWords == s.activeWords + NewWords(table, s.selectedCategories, s.level, s.activeWords, draws)
  {
    AchievementsCheckedFrame(Passed(s, NewWords(table, s.selectedCategories, s.level, s.activeWords, draws)), now);
  }

  /** At most three words are added, each from the table, of a selected
      category, within the new level's difficulty ceiling and not already
      active. */
  lemma NewWordsRules(table: seq<WordData>, categories: seq<Category>, level: int, active: seq<WordData>,
                      draws: seq<nat>)
    ensures var added := NewWords(table, categories, level, active, draws);
      && |added| <= QuizNewWordCount
      && (forall i :: 0 <= i < |added| ==>
            && added[i] in table
            && added[i].category in categories
            && added[i].difficulty <= NewWordCeiling(level + 1)
            && forall k :: 0 <= k < |active| ==> active[k].id != added[i].id)
  {
    var drawn := RandomWords(table, categories, QuizNewWordCount, NewWordCeiling(level + 1), draws);
    var added := Filter(drawn, NotActive(active));
    forall i | 0 <= i < |added|
      ensures added[i] in drawn && NotActive(active)(added[i])
    {
    }
  }

  /** From a table without repeated ids, no id is added twice. */
  lemma NewWordsDistinct(table: seq<WordData>, categories: seq<Category>, level: int, active: seq<WordData>,
                         draws: seq<nat>)
    requires DistinctBy(table, IdOf)
    ensures DistinctBy(NewWords(table, categories, level, active, draws), IdOf)
  {
    var drawn := RandomWords(table, categories, QuizNewWordCount, NewWordCeiling(level + 1), draws);
    RandomWordsDistinct(table, categories, QuizNewWordCount, NewWordCeiling(level + 1), draws);
    FilterKeepsDistinct(drawn, NotActive(active), IdOf);
  }

  lemma PassedKeepsInv(s: GameState, newWords: seq<WordData>)
    requires Inv(s)
    ensures Inv(Passed(s, newWords))
  {
  }

  lemma QuizAnsweredKeepsInv(s: GameState, table: seq<WordData>, answer: string, now: int, draws: seq<nat>)
    requires Inv(s)
    ensures Inv(QuizAnswered(s, table, answer, now, draws).0)
  {
    if s.quizQuestion.Some? && answer == GetDisplayText(s.quizQuestion.value, s.writingMode) {
      var passed := Passed(s, NewWords(table, s.selectedCategories, s.level, s.activeWords, draws));
      PassedKeepsInv(s, NewWords(table, s.selectedCategories, s.level, s.activeWords, draws));
      AchievementsCheckedKeepsInv(passed, now);
    } else {
      DamagedKeepsInv(s);
    }
  }

  // ---------------------------------------------------------------------------
  // buyItem

  function ItemBought(s: GameState, item: ShopItem, cost: int): (GameState, bool)
  {
    if s.score >= cost then
      var paid := s.(score := s.score - cost);
      var t := match item
        case DoubleJump => paid.(hasDoubleJump := true)
        case MaxLife => paid.(maxLives := s.maxLives + 1, lives := s.lives + 1)
        case Heal => paid.(lives := Min(s.lives + 1, s.maxLives))
        case Immortal => paid.(hasImmortality := true);
      (t, true)
    else (s, false)
  }

  /** A purchase succeeds exactly when the score covers the cost; a failed one
      changes nothing, a successful one takes exactly the cost and grants the
      item: double jump, one more life and one more life slot, one life healed
      up to the ceiling, or the immortality ability. Lives stay within bounds. */
  lemma PurchaseRules(s: GameState, item: ShopItem, cost: int)
    requires Inv(s)
    ensures var (t, ok) := ItemBought(s, item, cost);
      && (ok <==> s.score >= cost)
      && (!ok ==> t == s)
      && (ok ==> t.score == s.score - cost && t.score >= 0)
      && (ok && item == DoubleJump ==> t == s.(score := t.score, hasDoubleJump := true))
      && (ok && item == MaxLife ==> t == s.(score := t.score, maxLives := s.maxLives + 1, lives := s.lives + 1))
      && (ok && item == Heal ==>
            t == s.(score := t.score, lives := t.lives) && t.lives == (if s.lives < s.maxLives then s.lives + 1 else s.maxLives))
      && (ok && item == Immortal ==> t == s.(score := t.score, hasImmortality := true))
      && Inv(t)
  {
  }

  // ---------------------------------------------------------------------------
  // activateImmortality and its timer

  function ImmortalityActivated(s: GameState): GameState
  {
    if s.hasImmortality && !s.isImmortalityActive then s.(isImmortalityActive := true) else s
  }

  /** The timer five seconds later clears the flag unconditionally. */
  function ImmortalityExpired(s: GameState): GameState
  {
    s.(isImmortalityActive := false)
  }

  /** Only an owned, inactive ability switches on; and while it is on, damage is ignored. */
  lemma ImmortalityRules(s: GameState)
    ensures ImmortalityActivated(s).isImmortalityActive <==> s.hasImmortality || s.isImmortalityActive
    ensures ImmortalityActivated(s) == s.(isImmortalityActive := ImmortalityActivated(s).isImmortalityActive)
    ensures s.hasImmortality ==> Damaged(ImmortalityActivated(s)) == ImmortalityActivated(s)
  {
  }

  // ---------------------------------------------------------------------------
  // toggleCategory and setSelectedCategories

  function NotCategory(c: Category): Category -> bool
  {
    (x: Category) => x != c
  }

  /** Adds a category that is not selected; removes one that is, unless it is the only entry. */
  function Toggled(cats: seq<Category>, c: Category): seq<Category>
  {
    if c in cats then (if |cats| > 1 then Filter(cats, NotCategory(c)) else cats)
    else cats + [c]
  }

  /** Toggling appends a new category, removes a selected one while keeping the
      others in order, and never empties a selection without repeats. */
  lemma ToggleRules(cats: seq<Category>, c: Category)
    ensures c !in cats ==> Toggled(cats, c) == cats + [c]
    ensures c in cats && |cats| > 1 ==>
      c !in Toggled(cats, c) && forall x :: x in cats && x != c ==> x in Toggled(cats, c)
    ensures c in cats && |cats| <= 1 ==> Toggled(cats, c) == cats
    ensures |cats| > 0 && DistinctBy(cats, (x: Category) => x) ==> |Toggled(cats, c)| > 0
  {
    if c in cats && |cats| > 1 {
      var r := Filter(cats, NotCategory(c));
      FilterComplete(cats, NotCategory(c));
      forall x | x in cats && x != c
        ensures x in r
      {
        var k :| 0 <= k < |cats| && cats[k] == x;
        assert NotCategory(c)(cats[k]);
      }
      if DistinctBy(cats, (x: Category) => x) {
        var k :| 0 <= k < |cats| && cats[k] == c;
        var j := if k == 0 then 1 else 0;
        assert cats[j] != c;
        assert cats[j] in r;
      }
    }
  }

  /** Toggling never repeats a category: a selection without repeats stays so. */
  lemma ToggleKeepsNoRepeats(cats: seq<Category>, c: Category)
    requires DistinctBy(cats, (x: Category) => x)
    ensures DistinctBy(Toggled(cats, c), (x: Category) => x)
  {
    if c in cats && |cats| > 1 {
      FilterKeepsDistinct(cats, NotCategory(c), (x: Category) => x);
    } else if c !in cats {
      var r := cats + [c];
      forall i, j | 0 <= i < j < |r|
        ensures r[i] != r[j]
      {
        if j == |cats| {
          assert r[i] == cats[i];
        }
      }
    }
  }

  /** The guard against removing the last category counts entries, not distinct
      categories, so a selection holding one category twice can be emptied.
      Only `setSelectedCategories` can put a repeat there; toggling never does
      (`ToggleKeepsNoRepeats`). */
  lemma ToggleCanEmptyRepeatedSelection()
    ensures Toggled([Food, Food], Food) == []
  {
    assert Filter([Food], NotCategory(Food)) == [];
  }

  function CategoryToggled(s: GameState, c: Category): GameState
  {
    s.(selectedCategories := Toggled(s.selectedCategories, c))
  }

  function CategoriesSet(s: GameState, cats: seq<Category>): GameState
  {
    if |cats| > 0 then s.(selectedCategories := cats) else s
  }

  // ---------------------------------------------------------------------------
  // The achievement popup timer

  /** The timer three seconds after an unlock clears the popup only if it still
      shows the achievement that started it. */
  function PopupCleared(s: GameState, id: AchievementId): GameState
  {
    if s.newAchievement.Some? && s.newAchievement.value.id == id then s.(newAchievement := None) else s
  }

  lemma PopupClearGuard(s: GameState, id: AchievementId)
    ensures PopupCleared(s, id).newAchievement == None <==>
      s.newAchievement == None || s.newAchievement.value.id == id
    ensures PopupCleared(s, id) == s.(newAchievement := PopupCleared(s, id).newAchievement)
  {
  }

  // ---------------------------------------------------------------------------
  // The store object

  /** The store holds one immutable snapshot of the game state; every action
      replaces it with an updated copy, as a zustand `set` merges a partial
      object into a new snapshot, and reads the current one as `get()` does. */
  class Store {
    /** The vocabulary table the store draws from. */
    const vocabulary: seq<WordData>
    var state: GameState

    ghost predicate Valid()
      reads this
    {
      Inv(state)
    }

    constructor (vocabulary: seq<WordData>)
      ensures Valid() && state == InitialState && this.vocabulary == vocabulary
    {
      this.vocabulary := vocabulary;
      state := InitialState;
    }

    method StartGame(now: int, draws: seq<nat>)
      requires Valid()
      modifies this
      ensures Valid() && state == Started(old(state), vocabulary, now, draws)
    {
      StartedKeepsInv(state, vocabulary, now, draws);
      var startingWords := RandomWords(vocabulary, state.selectedCategories, StartingWordCount, StartingMaxDifficulty, draws);
      state := state.(status := Playing, score := 0, lives := StartingLives, speed := RunSpeedBase, level := 1, laneCount := 3,
                      activeWords := startingWords, learnedWords := [], holdingWord := None, matchesMade := 0,
                      combo := 0, streak := 0, lastMatchTime := now,
                      hasDoubleJump := false, hasImmortality := false, newAchievement := None);
    }

    method RestartGame(now: int, draws: seq<nat>)
      requires Valid()
      modifies this
      ensures Valid() && state == Started(old(state), vocabulary, now, draws)
    {
      StartGame(now, draws);
    }

    method TakeDamage()
      requires Valid()
      modifies this
      ensures Valid() && state == Damaged(old(state))
    {
      DamagedKeepsInv(state);
      if state.isImmortalityActive {
        return;
      }
      if state.lives > 1 {
        state := state.(combo := 0, streak := 0, lives := state.lives - 1, holdingWord := None);
      } else {
        state := state.(combo := 0, streak := 0, lives := 0, status := GameOver, speed := 0.0);
      }
    }

    method AddScore(amount: int)
      requires Valid()
      modifies this
      ensures Valid() && state == old(state).(score := old(state).score + amount)
    {
      state := state.(score := state.score + amount);
    }

    method CollectGem(value: int, now: int)
      requires Valid()
      modifies this
      ensures Valid() && state == GemCollected(old(state), value, now)
    {
      GemAddedKeepsInv(state, value);
      state := GemAdded(state, value);
      CheckAchievements(now);
    }

    method CollectWord(id: string, text: string, lang: Lang, now: int, draw: QuizDraw)
      requires Valid()
      modifies this
      ensures Valid() && state == WordCollected(old(state), id, text, lang, now, draw)
    {
      var s := state;
      if s.holdingWord.None? {
        state := s.(holdingWord := Some(HeldWord(id, text, lang)));
        return;
      }
      if IsMatch(s.holdingWord.value, id, lang) {
        var newCombo := NextCombo(s.combo, s.lastMatchTime, now);
        var points := ComboPoints(newCombo);
        var newStreak := s.streak + 1;
        var newMatches := s.matchesMade + 1;
        ComboBounds(s.combo, s.lastMatchTime, now);
        state := s.(holdingWord := None,
                    score := s.score + points,
                    activeWords := AddMastery(s.activeWords, id),
                    matchesMade := newMatches,
                    speed := s.speed + SpeedStep,
                    combo := newCombo,
                    maxCombo := Max(s.maxCombo, newCombo),
                    streak := newStreak,
                    lastMatchTime := now,
                    playerStats := s.playerStats.(
                      totalMatches := s.playerStats.totalMatches + 1,
                      highestCombo := Max(s.playerStats.highestCombo, newCombo),
                      highestStreak := Max(s.playerStats.highestStreak, newStreak)));
        assert state == Matched(s, id, now);
        CheckAchievements(now);
        if newMatches >= MatchesToAdvance {
          StartQuiz(draw);
        }
      } else {
        state := s.(holdingWord := None, combo := 0, streak := 0, score := Max(0, s.score - MismatchPenalty));
      }
    }

    method StartQuiz(draw: QuizDraw)
      requires Valid()
      modifies this
      ensures Valid() && state == QuizStarted(old(state), draw)
    {
      QuizStartedKeepsInv(state, draw);
      var pool := state.activeWords + state.learnedWords;
      if |pool| == 0 {
        return;
      }
      var question := pool[draw.question % |pool|];
      var correct := GetDisplayText(question, state.writingMode);
      var wrongs := Distractors(pool, question, state.writingMode, draw.distractors);
      ghost var drawn := wrongs;
      while |wrongs| < 2
        invariant |wrongs| <= 2
        invariant Padded(wrongs) == Padded(drawn)
        decreases 2 - |wrongs|
      {
        wrongs := wrongs + [Placeholder];
      }
      var options := Shuffle([correct] + wrongs, draw.options);
      state := state.(status := Quiz, quizQuestion := Some(question), quizOptions := options, speed := 0.0);
    }

    method AnswerQuiz(answer: string, now: int, draws: seq<nat>) returns (correct: bool)
      requires Valid()
      modifies this
      ensures Valid() && (state, correct) == QuizAnswered(old(state), vocabulary, answer, now, draws)
    {
      var s := state;
      if s.quizQuestion.None? {
        return false;
      }
      if answer == GetDisplayText(s.quizQuestion.value, s.writingMode) {
        var newWords := NewWords(vocabulary, s.selectedCategories, s.level, s.activeWords, draws);
        PassedKeepsInv(s, newWords);
        state := Passed(s, newWords);
        CheckAchievements(now);
        return true;
      } else {
        TakeDamage();
        return false;
      }
    }

    method SetDistance(dist: real)
      requires Valid()
      modifies this
      ensures Valid() && state == old(state).(distance := dist)
    {
      state := state.(distance := dist);
    }

    method OpenShop()
      requires Valid()
      modifies this
      ensures Valid() && state == old(state).(status := Shop)
    {
      state := state.(status := Shop);
    }

    method CloseShop()
      requires Valid()
      modifies this
      ensures Valid() && state == old(state).(status := Playing)
    {
      state := state.(status := Playing);
    }

    method BuyItem(item: ShopItem, cost: int) returns (bought: bool)
      requires Valid()
      modifies this
      ensures Valid() && (state, bought) == ItemBought(old(state), item, cost)
    {
      PurchaseRules(state, item, cost);
      if state.score < cost {
        return false;
      }
      var s := state.(score := state.score - cost);
      match item {
        case DoubleJump => state := s.(hasDoubleJump := true);
        case MaxLife => state := s.(maxLives := s.maxLives + 1, lives := s.lives + 1);
        case Heal => state := s.(lives := Min(s.lives + 1, s.maxLives));
        case Immortal => state := s.(hasImmortality := true);
      }
      return true;
    }

    method ActivateImmortality()
      requires Valid()
      modifies this
      ensures Valid() && state == ImmortalityActivated(old(state))
    {
      if state.hasImmortality && !state.isImmortalityActive {
        state := state.(isImmortalityActive := true);
      }
    }

    /** The deferred callback of `ActivateImmortality`. */
    method ExpireImmortality()
      requires Valid()
      modifies this
      ensures Valid() && state == ImmortalityExpired(old(state))
    {
      state := state.(isImmortalityActive := false);
    }

    method SetStatus(newStatus: GameStatus)
      requires Valid()
      modifies this
      ensures Valid() && state == old(state).(status := newStatus)
    {
      state := state.(status := newStatus);
    }

    method SetWritingMode(mode: WritingMode)
      requires Valid()
      modifies this
      ensures Valid() && state == old(state).(writingMode := mode)
    {
      state := state.(writingMode := mode);
    }

    method ToggleCategory(category: Category)
      requires Valid()
      modifies this
      ensures Valid() && state == CategoryToggled(old(state), category)
    {
      var newCategories := state.selectedCategories;
      if category in state.selectedCategories {
        if |state.selectedCategories| > 1 {
          newCategories := Filter(state.selectedCategories, NotCategory(category));
        }
      } else {
        newCategories := state.selectedCategories + [category];
      }
      state := state.(selectedCategories := newCategories);
    }

    method SetSelectedCategories(categories: seq<Category>)
      requires Valid()
      modifies this
      ensures Valid() && state == CategoriesSet(old(state), categories)
    {
      if |categories| > 0 {
        state := state.(selectedCategories := categories);
      }
    }

    method CheckAchievements(now: int)
      requires Valid()
      modifies this
      ensures Valid() && state == AchievementsChecked(old(state), now)
    {
      var s := state;
      AchievementsCheckedKeepsInv(s, now);
      var updated, newUnlock := EvaluateAchievements(s, now);
      if newUnlock.Some? {
        state := Published(s, updated, newUnlock.value);
      }
    }

    /** The deferred popup callback started by an unlock of achievement `id`. */
    method ClearPopupIfStill(id: AchievementId)
      requires Valid()
      modifies this
      ensures Valid() && state == PopupCleared(old(state), id)
    {
      if state.newAchievement.Some? && state.newAchievement.value.id == id {
        state := state.(newAchievement := None);
      }
    }

    method ClearNewAchievement()
      requires Valid()
      modifies this
      ensures Valid() && state == old(state).(newAchievement := None)
    {
      state := state.(newAchievement := None);
    }
  }
}
