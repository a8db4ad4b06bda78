/** The vocabulary catalogue and the three queries the game makes of it:
    by category, by difficulty ceiling, and a random sample. */
module Vocabulary {
  import opened GameTypes
  import opened Choice

  /** Every entry has a difficulty tier of 1, 2 or 3 and starts unmastered,
      and no two entries share an id. */
  ghost predicate WellFormedTable(table: seq<WordData>)
  {
    && (forall i :: 0 <= i < |table| ==> 1 <= table[i].difficulty <= 3 && table[i].mastery == 0)
    && DistinctBy(table, IdOf)
  }

  function IdOf(w: WordData): string
  {
    w.id
  }

  function HasCategory(category: Category): WordData -> bool
  {
    (w: WordData) => w.category == category
  }

  function AtMost(difficulty: int): WordData -> bool
  {
    (w: WordData) => w.difficulty <= difficulty
  }

  function InPool(categories: seq<Category>, maxDifficulty: int): WordData -> bool
  {
    (w: WordData) => w.category in categories && w.difficulty <= maxDifficulty
  }

  /** The entries with the given category, in table order. */
  function WordsByCategory(table: seq<WordData>, category: Category): (r: seq<WordData>)
    ensures forall i :: 0 <= i < |r| ==> r[i].category == category && r[i] in table
    ensures forall i :: 0 <= i < |table| && table[i].category == category ==> table[i] in r
  {
    FilterComplete(table, HasCategory(category));
    Filter(table, HasCategory(category))
  }

  /** Selection keeps table order: the words of a category drawn from two
      consecutive parts of a table are those of the first part, then those of the second. */
  lemma WordsByCategoryKeepsOrder(a: seq<WordData>, b: seq<WordData>, category: Category)
    ensures WordsByCategory(a + b, category) == WordsByCategory(a, category) + WordsByCategory(b, category)
  {
    FilterAppend(a, b, HasCategory(category));
  }

  /** The entries at or below a difficulty ceiling (the parameter is typed `1 | 2 | 3`), in table order. */
  function WordsByDifficulty(table: seq<WordData>, difficulty: int): (r: seq<WordData>)
    requires 1 <= difficulty <= 3
    ensures forall i :: 0 <= i < |r| ==> r[i].difficulty <= difficulty && r[i] in table
    ensures forall i :: 0 <= i < |table| && table[i].difficulty <= difficulty ==> table[i] in r
  {
    FilterComplete(table, AtMost(difficulty));
    Filter(table, AtMost(difficulty))
  }

  lemma WordsByDifficultyKeepsOrder(a: seq<WordData>, b: seq<WordData>, difficulty: int)
    requires 1 <= difficulty <= 3
    ensures WordsByDifficulty(a + b, difficulty) == WordsByDifficulty(a, difficulty) + WordsByDifficulty(b, difficulty)
  {
    FilterAppend(a, b, AtMost(difficulty));
  }

  /** Raising the ceiling to 3 selects the whole of a well-formed table. */
  /** The ceiling a caller of `getRandomWords` gets when it leaves `maxDifficulty` out. */
  const DefaultMaxDifficulty: int := 3

  lemma TopDifficultyIsWholeTable(table: seq<WordData>)
    requires WellFormedTable(table)
    ensures WordsByDifficulty(table, DefaultMaxDifficulty) == table
  {
    FilterAllKept(table, AtMost(DefaultMaxDifficulty));
  }

  /** The candidates of a random draw: the entries of the chosen categories at or below the ceiling. */
  function Pool(table: seq<WordData>, categories: seq<Category>, maxDifficulty: int): seq<WordData>
  {
    Filter(table, InPool(categories, maxDifficulty))
  }

  /** `count` words drawn without repetition from the pool: the first `count` of a
      random permutation of it (JavaScript's `slice(0, count)`). */
  function RandomWords(table: seq<WordData>, categories: seq<Category>, count: int, maxDifficulty: int,
                       draws: seq<nat>): (r: seq<WordData>)
    ensures forall i :: 0 <= i < |r| ==> r[i].category in categories && r[i].difficulty <= maxDifficulty && r[i] in table
    ensures |r| == SliceEnd(|Pool(table, categories, maxDifficulty)|, count)
    ensures count >= 0 ==> |r| == if count < |Pool(table, categories, maxDifficulty)| then count
                                 else |Pool(table, categories, maxDifficulty)|
    ensures multiset(r) <= multiset(Pool(table, categories, maxDifficulty))
  {
    var pool := Pool(table, categories, maxDifficulty);
    var shuffled := Shuffle(pool, draws);
    forall i | 0 <= i < |shuffled|
      ensures shuffled[i] in pool
    {
      assert shuffled[i] in multiset(shuffled);
    }
    Take(shuffled, count)
  }

  /** A draw from a table without repeated ids never repeats an id. */
  lemma RandomWordsDistinct(table: seq<WordData>, categories: seq<Category>, count: int, maxDifficulty: int,
                            draws: seq<nat>)
    requires DistinctBy(table, IdOf)
    ensures DistinctBy(RandomWords(table, categories, count, maxDifficulty, draws), IdOf)
  {
    FilterKeepsDistinct(table, InPool(categories, maxDifficulty), IdOf);
    ShuffleKeepsDistinct(Pool(table, categories, maxDifficulty), draws, IdOf);
  }

  // ---------------------------------------------------------------------------
  // The table itself, one constant per category section, in source order.

  const AnimalWords: seq<WordData> := [
      WordData("a1", "Cat", "猫", "ねこ", "neko", Animals, 1, 0),
      WordData("a2", "Dog", "犬", "いぬ", "inu", Animals, 1, 0),
      WordData("a3", "Bird", "鳥", "とり", "tori", Animals, 1, 0),
      WordData("a4", "Fish", "魚", "さかな", "sakana", Animals, 1, 0),
      WordData("a5", "Rabbit", "兎", "うさぎ", "usagi", Animals, 2, 0),
      WordData("a6", "Horse", "馬", "うま", "uma", Animals, 1, 0),
      WordData("a7", "Cow", "牛", "うし", "ushi", Animals, 1, 0),
      WordData("a8", "Pig", "豚", "ぶた", "buta", Animals, 2, 0),
      WordData("a9", "Monkey", "猿", "さる", "saru", Animals, 2, 0),
      WordData("a10", "Bear", "熊", "くま", "kuma", Animals, 2, 0),
      WordData("a11", "Tiger", "虎", "とら", "tora", Animals, 2, 0),
      WordData("a12", "Elephant", "象", "ぞう", "zou", Animals, 2, 0),
      WordData("a13", "Mouse", "鼠", "ねずみ", "nezumi", Animals, 2, 0),
      WordData("a14", "Frog", "蛙", "かえる", "kaeru", Animals, 2, 0),
      WordData("a15", "Snake", "蛇", "へび", "hebi", Animals, 2, 0)
  ]

  const FoodWords: seq<WordData> := [
      WordData("f1", "Rice", "米", "こめ", "kome", Food, 1, 0),
      WordData("f2", "Water", "水", "みず", "mizu", Food, 1, 0),
      WordData("f3", "Tea", "お茶", "おちゃ", "ocha", Food, 1, 0),
      WordData("f4", "Meat", "肉", "にく", "niku", Food, 1, 0),
      WordData("f5", "Egg", "卵", "たまご", "tamago", Food, 2, 0),
      WordData("f6", "Bread", "パン", "パン", "pan", Food, 1, 0),
      WordData("f7", "Apple", "林檎", "りんご", "ringo", Food, 2, 0),
      WordData("f8", "Orange", "オレンジ", "オレンジ", "orenji", Food, 1, 0),
      WordData("f9", "Banana", "バナナ", "バナナ", "banana", Food, 1, 0),
      WordData("f10", "Sushi", "寿司", "すし", "sushi", Food, 2, 0),
      WordData("f11", "Ramen", "ラーメン", "ラーメン", "raamen", Food, 1, 0),
      WordData("f12", "Milk", "牛乳", "ぎゅうにゅう", "gyuunyuu", Food, 3, 0),
      WordData("f13", "Vegetable", "野菜", "やさい", "yasai", Food, 2, 0),
      WordData("f14", "Fruit", "果物", "くだもの", "kudamono", Food, 2, 0),
      WordData("f15", "Cake", "ケーキ", "ケーキ", "keeki", Food, 1, 0)
  ]

  const ColorWords: seq<WordData> := [
      WordData("c1", "Red", "赤", "あか", "aka", Colors, 1, 0),
      WordData("c2", "Blue", "青", "あお", "ao", Colors, 1, 0),
      WordData("c3", "Green", "緑", "みどり", "midori", Colors, 1, 0),
      WordData("c4", "Yellow", "黄色", "きいろ", "kiiro", Colors, 2, 0),
      WordData("c5", "White", "白", "しろ", "shiro", Colors, 1, 0),
      WordData("c6", "Black", "黒", "くろ", "kuro", Colors, 1, 0),
      WordData("c7", "Orange", "オレンジ", "オレンジ", "orenji", Colors, 1, 0),
      WordData("c8", "Pink", "ピンク", "ピンク", "pinku", Colors, 1, 0),
      WordData("c9", "Purple", "紫", "むらさき", "murasaki", Colors, 2, 0),
      WordData("c10", "Brown", "茶色", "ちゃいろ", "chairo", Colors, 2, 0),
      WordData("c11", "Gray", "灰色", "はいいろ", "haiiro", Colors, 2, 0),
      WordData("c12", "Gold", "金色", "きんいろ", "kiniro", Colors, 2, 0)
  ]

  const NumberWords: seq<WordData> := [
      WordData("n1", "One", "一", "いち", "ichi", Numbers, 1, 0),
      WordData("n2", "Two", "二", "に", "ni", Numbers, 1, 0),
      WordData("n3", "Three", "三", "さん", "san", Numbers, 1, 0),
      WordData("n4", "Four", "四", "よん", "yon", Numbers, 1, 0),
      WordData("n5", "Five", "五", "ご", "go", Numbers, 1, 0),
      WordData("n6", "Six", "六", "ろく", "roku", Numbers, 1, 0),
      WordData("n7", "Seven", "七", "なな", "nana", Numbers, 1, 0),
      WordData("n8", "Eight", "八", "はち", "hachi", Numbers, 1, 0),
      WordData("n9", "Nine", "九", "きゅう", "kyuu", Numbers, 1, 0),
      WordData("n10", "Ten", "十", "じゅう", "juu", Numbers, 1, 0),
      WordData("n11", "Hundred", "百", "ひゃく", "hyaku", Numbers, 2, 0),
      WordData("n12", "Thousand", "千", "せん", "sen", Numbers, 2, 0)
  ]

  const NatureWords: seq<WordData> := [
      WordData("na1", "Sun", "太陽", "たいよう", "taiyou", Nature, 2, 0),
      WordData("na2", "Moon", "月", "つき", "tsuki", Nature, 1, 0),
      WordData("na3", "Star", "星", "ほし", "hoshi", Nature, 1, 0),
      WordData("na4", "Mountain", "山", "やま", "yama", Nature, 1, 0),
      WordData("na5", "River", "川", "かわ", "kawa", Nature, 1, 0),
      WordData("na6", "Ocean", "海", "うみ", "umi", Nature, 1, 0),
      WordData("na7", "Tree", "木", "き", "ki", Nature, 1, 0),
      WordData("na8", "Flower", "花", "はな", "hana", Nature, 1, 0),
      WordData("na9", "Fire", "火", "ひ", "hi", Nature, 1, 0),
      WordData("na10", "Rain", "雨", "あめ", "ame", Nature, 1, 0),
      WordData("na11", "Snow", "雪", "ゆき", "yuki", Nature, 1, 0),
      WordData("na12", "Wind", "風", "かぜ", "kaze", Nature, 1, 0),
      WordData("na13", "Sky", "空", "そら", "sora", Nature, 1, 0),
      WordData("na14", "Earth", "地球", "ちきゅう", "chikyuu", Nature, 3, 0),
      WordData("na15", "Forest", "森", "もり", "mori", Nature, 2, 0)
  ]

  const BodyWords: seq<WordData> := [
      WordData("b1", "Head", "頭", "あたま", "atama", Body, 2, 0),
      WordData("b2", "Eye", "目", "め", "me", Body, 1, 0),
      WordData("b3", "Ear", "耳", "みみ", "mimi", Body, 1, 0),
      WordData("b4", "Nose", "鼻", "はな", "hana", Body, 2, 0),
      WordData("b5", "Mouth", "口", "くち", "kuchi", Body, 1, 0),
      WordData("b6", "Hand", "手", "て", "te", Body, 1, 0),
      WordData("b7", "Foot", "足", "あし", "ashi", Body, 1, 0),
      WordData("b8", "Heart", "心", "こころ", "kokoro", Body, 2, 0),
      WordData("b9", "Face", "顔", "かお", "kao", Body, 2, 0),
      WordData("b10", "Finger", "指", "ゆび", "yubi", Body, 2, 0)
  ]

  const GreetingWords: seq<WordData> := [
      WordData("g1", "Hello", "こんにちは", "こんにちは", "konnichiwa", Greetings, 1, 0),
      WordData("g2", "Good morning", "おはよう", "おはよう", "ohayou", Greetings, 1, 0),
      WordData("g3", "Good evening", "こんばんは", "こんばんは", "konbanwa", Greetings, 2, 0),
      WordData("g4", "Goodbye", "さようなら", "さようなら", "sayounara", Greetings, 2, 0),
      WordData("g5", "Thank you", "ありがとう", "ありがとう", "arigatou", Greetings, 1, 0),
      WordData("g6", "Sorry", "ごめんなさい", "ごめんなさい", "gomen nasai", Greetings, 2, 0),
      WordData("g7", "Please", "お願いします", "おねがいします", "onegaishimasu", Greetings, 3, 0),
      WordData("g8", "Yes", "はい", "はい", "hai", Greetings, 1, 0),
      WordData("g9", "No", "いいえ", "いいえ", "iie", Greetings, 1, 0),
      WordData("g10", "Nice to meet you", "はじめまして", "はじめまして", "hajimemashite", Greetings, 2, 0)
  ]

  const PeopleWords: seq<WordData> := [
      WordData("p1", "Person", "人", "ひと", "hito", People, 1, 0),
      WordData("p2", "Friend", "友達", "ともだち", "tomodachi", People, 2, 0),
      WordData("p3", "Mother", "お母さん", "おかあさん", "okaasan", People, 2, 0),
      WordData("p4", "Father", "お父さん", "おとうさん", "otousan", People, 2, 0),
      WordData("p5", "Child", "子供", "こども", "kodomo", People, 2, 0),
      WordData("p6", "Teacher", "先生", "せんせい", "sensei", People, 2, 0),
      WordData("p7", "Student", "学生", "がくせい", "gakusei", People, 2, 0),
      WordData("p8", "Boy", "男の子", "おとこのこ", "otokonoko", People, 2, 0),
      WordData("p9", "Girl", "女の子", "おんなのこ", "onnanoko", People, 2, 0),
      WordData("p10", "Family", "家族", "かぞく", "kazoku", People, 2, 0)
  ]

  const ObjectWords: seq<WordData> := [
      WordData("o1", "Book", "本", "ほん", "hon", Objects, 1, 0),
      WordData("o2", "Car", "車", "くるま", "kuruma", Objects, 2, 0),
      WordData("o3", "House", "家", "いえ", "ie", Objects, 1, 0),
      WordData("o4", "Door", "ドア", "ドア", "doa", Objects, 1, 0),
      WordData("o5", "Window", "窓", "まど", "mado", Objects, 2, 0),
      WordData("o6", "Table", "テーブル", "テーブル", "teeburu", Objects, 1, 0),
      WordData("o7", "Chair", "椅子", "いす", "isu", Objects, 2, 0),
      WordData("o8", "Phone", "電話", "でんわ", "denwa", Objects, 2, 0),
      WordData("o9", "Computer", "パソコン", "パソコン", "pasokon", Objects, 1, 0),
      WordData("o10", "Clock", "時計", "とけい", "tokei", Objects, 2, 0)
  ]

  const VerbWords: seq<WordData> := [
      WordData("v1", "To eat", "食べる", "たべる", "taberu", Verbs, 2, 0),
      WordData("v2", "To drink", "飲む", "のむ", "nomu", Verbs, 2, 0),
      WordData("v3", "To go", "行く", "いく", "iku", Verbs, 2, 0),
      WordData("v4", "To come", "来る", "くる", "kuru", Verbs, 2, 0),
      WordData("v5", "To see", "見る", "みる", "miru", Verbs, 2, 0),
      WordData("v6", "To hear", "聞く", "きく", "kiku", Verbs, 2, 0),
      WordData("v7", "To speak", "話す", "はなす", "hanasu", Verbs, 2, 0),
      WordData("v8", "To read", "読む", "よむ", "yomu", Verbs, 2, 0),
      WordData("v9", "To write", "書く", "かく", "kaku", Verbs, 2, 0),
      WordData("v10", "To run", "走る", "はしる", "hashiru", Verbs, 2, 0),
      WordData("v11", "To sleep", "寝る", "ねる", "neru", Verbs, 2, 0),
      WordData("v12", "To play", "遊ぶ", "あそぶ", "asobu", Verbs, 2, 0)
  ]

  const VocabularyDatabase: seq<WordData> :=
    AnimalWords + FoodWords + ColorWords + NumberWords + NatureWords +
    BodyWords + GreetingWords + PeopleWords + ObjectWords + VerbWords

  /** A section of the table: every entry has the section's category, a tier
      of 1 to 3 and no mastery, ids are distinct, and every id starts with the
      section's letter ("na" for nature, so it differs from the numbers' "n"). */
  ghost predicate Section(ws: seq<WordData>, category: Category, letter: char, secondIsA: bool)
  {
    && (forall i :: 0 <= i < |ws| ==>
          && ws[i].category == category
          && 1 <= ws[i].difficulty <= 3 && ws[i].mastery == 0
          && |ws[i].id| >= 2 && ws[i].id[0] == letter && (ws[i].id[1] == 'a') == secondIsA)
    && DistinctBy(ws, IdOf)
  }

  /** Every id of `ws` starts with one of the prefixes in `prefixes`. */
  ghost predicate PrefixesIn(ws: seq<WordData>, prefixes: set<(char, bool)>)
  {
    forall i :: 0 <= i < |ws| ==> |ws[i].id| >= 2 && (ws[i].id[0], ws[i].id[1] == 'a') in prefixes
  }

  /** Appending a well-formed section whose id prefix is new keeps a table well formed. */
  lemma AppendSection(acc: seq<WordData>, prefixes: set<(char, bool)>,
                      ws: seq<WordData>, category: Category, letter: char, secondIsA: bool)
    requires WellFormedTable(acc) && PrefixesIn(acc, prefixes)
    requires Section(ws, category, letter, secondIsA) && (letter, secondIsA) !in prefixes
    ensures WellFormedTable(acc + ws) && PrefixesIn(acc + ws, prefixes + {(letter, secondIsA)})
  {
    var t := acc + ws;
    forall i, j | 0 <= i < j < |t|
      ensures IdOf(t[i]) != IdOf(t[j])
    {
      if j < |acc| {
        assert t[i] == acc[i] && t[j] == acc[j];
      } else if i >= |acc| {
        assert t[i] == ws[i - |acc|] && t[j] == ws[j - |acc|];
      } else {
        assert t[i] == acc[i] && t[j] == ws[j - |acc|];
        assert (t[i].id[0], t[i].id[1] == 'a') in prefixes;
      }
    }
  }

  lemma AnimalWordsEntries()
    ensures forall i :: 0 <= i < |AnimalWords| ==>
      && AnimalWords[i].category == Animals
      && 1 <= AnimalWords[i].difficulty <= 3 && AnimalWords[i].mastery == 0
      && |AnimalWords[i].id| >= 2 && AnimalWords[i].id[0] == 'a' && (AnimalWords[i].id[1] == 'a') == false
  {
  }

  lemma AnimalWordsIds()
    ensures forall i, j :: 0 <= i < j < |AnimalWords| ==> AnimalWords[i].id != AnimalWords[j].id
  {
  }

  lemma AnimalWordsWellFormed()
    ensures Section(AnimalWords, Animals, 'a', false)
  {
    AnimalWordsEntries();
    AnimalWordsIds();
  }

  lemma FoodWordsEntries()
    ensures forall i :: 0 <= i < |FoodWords| ==>
      && FoodWords[i].category == Food
      && 1 <= FoodWords[i].difficulty <= 3 && FoodWords[i].mastery == 0
      && |FoodWords[i].id| >= 2 && FoodWords[i].id[0] == 'f' && (FoodWords[i].id[1] == 'a') == false
  {
  }

  lemma FoodWordsIds()
    ensures forall i, j :: 0 <= i < j < |FoodWords| ==> FoodWords[i].id != FoodWords[j].id
  {
  }

  lemma FoodWordsWellFormed()
    ensures Section(FoodWords, Food, 'f', false)
  {
    FoodWordsEntries();
    FoodWordsIds();
  }

  lemma ColorWordsEntries()
    ensures forall i :: 0 <= i < |ColorWords| ==>
      && ColorWords[i].category == Colors
      && 1 <= ColorWords[i].difficulty <= 3 && ColorWords[i].mastery == 0
      && |ColorWords[i].id| >= 2 && ColorWords[i].id[0] == 'c' && (ColorWords[i].id[1] == 'a') == false
  {
  }

  lemma ColorWordsIds()
    ensures forall i, j :: 0 <= i < j < |ColorWords| ==> ColorWords[i].id != ColorWords[j].id
  {
  }

  lemma ColorWordsWellFormed()
    ensures Section(ColorWords, Colors, 'c', false)
  {
    ColorWordsEntries();
    ColorWordsIds();
  }

  lemma NumberWordsEntries()
    ensures forall i :: 0 <= i < |NumberWords| ==>
      && NumberWords[i].category == Numbers
      && 1 <= NumberWords[i].difficulty <= 3 && NumberWords[i].mastery == 0
      && |NumberWords[i].id| >= 2 && NumberWords[i].id[0] == 'n' && (NumberWords[i].id[1] == 'a') == false
  {
  }

  lemma NumberWordsIds()
    ensures forall i, j :: 0 <= i < j < |NumberWords| ==> NumberWords[i].id != NumberWords[j].id
  {
  }

  lemma NumberWordsWellFormed()
    ensures Section(NumberWords, Numbers, 'n', false)
  {
    NumberWordsEntries();
    NumberWordsIds();
  }

  lemma NatureWordsEntries()
    ensures forall i :: 0 <= i < |NatureWords| ==>
      && NatureWords[i].category == Nature
      && 1 <= NatureWords[i].difficulty <= 3 && NatureWords[i].mastery == 0
      && |NatureWords[i].id| >= 2 && NatureWords[i].id[0] == 'n' && (NatureWords[i].id[1] == 'a') == true
  {
  }

  lemma NatureWordsIds()
    ensures forall i, j :: 0 <= i < j < |NatureWords| ==> NatureWords[i].id != NatureWords[j].id
  {
  }

  lemma NatureWordsWellFormed()
    ensures Section(NatureWords, Nature, 'n', true)
  {
    NatureWordsEntries();
    NatureWordsIds();
  }

  lemma BodyWordsEntries()
    ensures forall i :: 0 <= i < |BodyWords| ==>
      && BodyWords[i].category == Body
      && 1 <= BodyWords[i].difficulty <= 3 && BodyWords[i].mastery == 0
      && |BodyWords[i].id| >= 2 && BodyWords[i].id[0] == 'b' && (BodyWords[i].id[1] == 'a') == false
  {
  }

  lemma BodyWordsIds()
    ensures forall i, j :: 0 <= i < j < |BodyWords| ==> BodyWords[i].id != BodyWords[j].id
  {
  }

  lemma BodyWordsWellFormed()
    ensures Section(BodyWords, Body, 'b', false)
  {
    BodyWordsEntries();
    BodyWordsIds();
  }

  lemma GreetingWordsEntries()
    ensures forall i :: 0 <= i < |GreetingWords| ==>
      && GreetingWords[i].category == Greetings
      && 1 <= GreetingWords[i].difficulty <= 3 && GreetingWords[i].mastery == 0
      && |GreetingWords[i].id| >= 2 && GreetingWords[i].id[0] == 'g' && (GreetingWords[i].id[1] == 'a') == false
  {
  }

  lemma GreetingWordsIds()
    ensures forall i, j :: 0 <= i < j < |GreetingWords| ==> GreetingWords[i].id != GreetingWords[j].id
  {
  }

  lemma GreetingWordsWellFormed()
    ensures Section(GreetingWords, Greetings, 'g', false)
  {
    GreetingWordsEntries();
    GreetingWordsIds();
  }

  lemma PeopleWordsEntries()
    ensures forall i :: 0 <= i < |PeopleWords| ==>
      && PeopleWords[i].category == People
      && 1 <= PeopleWords[i].difficulty <= 3 && PeopleWords[i].mastery == 0
      && |PeopleWords[i].id| >= 2 && PeopleWords[i].id[0] == 'p' && (PeopleWords[i].id[1] == 'a') == false
  {
  }

  lemma PeopleWordsIds()
    ensures forall i, j :: 0 <= i < j < |PeopleWords| ==> PeopleWords[i].id != PeopleWords[j].id
  {
  }

  lemma PeopleWordsWellFormed()
    ensures Section(PeopleWords, People, 'p', false)
  {
    PeopleWordsEntries();
    PeopleWordsIds();
  }

  lemma ObjectWordsEntries()
    ensures forall i :: 0 <= i < |ObjectWords| ==>
      && ObjectWords[i].category == Objects
      && 1 <= ObjectWords[i].difficulty <= 3 && ObjectWords[i].mastery == 0
      && |ObjectWords[i].id| >= 2 && ObjectWords[i].id[0] == 'o' && (ObjectWords[i].id[1] == 'a') == false
  {
  }

  lemma ObjectWordsIds()
    ensures forall i, j :: 0 <= i < j < |ObjectWords| ==> ObjectWords[i].id != ObjectWords[j].id
  {
  }

  lemma ObjectWordsWellFormed()
    ensures Section(ObjectWords, Objects, 'o', false)
  {
    ObjectWordsEntries();
    ObjectWordsIds();
  }

  lemma VerbWordsEntries()
    ensures forall i :: 0 <= i < |VerbWords| ==>
      && VerbWords[i].category == Verbs
      && 1 <= VerbWords[i].difficulty <= 3 && VerbWords[i].mastery == 0
      && |VerbWords[i].id| >= 2 && VerbWords[i].id[0] == 'v' && (VerbWords[i].id[1] == 'a') == false
  {
  }

  lemma VerbWordsIds()
    ensures forall i, j :: 0 <= i < j < |VerbWords| ==> VerbWords[i].id != VerbWords[j].id
  {
  }

  lemma VerbWordsWellFormed()
    ensures Section(VerbWords, Verbs, 'v', false)
  {
    VerbWordsEntries();
    VerbWordsIds();
  }

  /** The first four sections form a well-formed table. */
  lemma EarlySectionsWellFormed()
    ensures WellFormedTable(AnimalWords + FoodWords + ColorWords + NumberWords)
    ensures PrefixesIn(AnimalWords + FoodWords + ColorWords + NumberWords,
                       {('a', false), ('f', false), ('c', false), ('n', false)})
  {
    AnimalWordsWellFormed();
    FoodWordsWellFormed();
    ColorWordsWellFormed();
    NumberWordsWellFormed();
    var t := AnimalWords;
    var p := {('a', false)};
    AppendSection(t, p, FoodWords, Food, 'f', false);
    t, p := t + FoodWords, p + {('f', false)};
    AppendSection(t, p, ColorWords, Colors, 'c', false);
    t, p := t + ColorWords, p + {('c', false)};
    AppendSection(t, p, NumberWords, Numbers, 'n', false);
  }

  /** The next three sections keep the table well formed. */
  lemma MiddleSectionsWellFormed()
    ensures WellFormedTable(AnimalWords + FoodWords + ColorWords + NumberWords + NatureWords + BodyWords + GreetingWords)
    ensures PrefixesIn(AnimalWords + FoodWords + ColorWords + NumberWords + NatureWords + BodyWords + GreetingWords,
                       {('a', false), ('f', false), ('c', false), ('n', false), ('n', true), ('b', false), ('g', false)})
  {
    EarlySectionsWellFormed();
    NatureWordsWellFormed();
    BodyWordsWellFormed();
    GreetingWordsWellFormed();
    var t := AnimalWords + FoodWords + ColorWords + NumberWords;
    var p := {('a', false), ('f', false), ('c', false), ('n', false)};
    AppendSection(t, p, NatureWords, Nature, 'n', true);
    t, p := t + NatureWords, p + {('n', true)};
    AppendSection(t, p, BodyWords, Body, 'b', false);
    t, p := t + BodyWords, p + {('b', false)};
    AppendSection(t, p, GreetingWords, Greetings, 'g', false);
  }

  /** The shipped table is well formed. */
  lemma DatabaseWellFormed()
    ensures WellFormedTable(VocabularyDatabase)
  {
    MiddleSectionsWellFormed();
    PeopleWordsWellFormed();
    ObjectWordsWellFormed();
    VerbWordsWellFormed();
    var t := AnimalWords + FoodWords + ColorWords + NumberWords + NatureWords + BodyWords + GreetingWords;
    var p := {('a', false), ('f', false), ('c', false), ('n', false), ('n', true), ('b', false), ('g', false)};
    AppendSection(t, p, PeopleWords, People, 'p', false);
    t, p := t + PeopleWords, p + {('p', false)};
    AppendSection(t, p, ObjectWords, Objects, 'o', false);
    t, p := t + ObjectWords, p + {('o', false)};
    AppendSection(t, p, VerbWords, Verbs, 'v', false);
  }

  /** Distinct ids can still share their Japanese text: the fruit "Orange" (f8)
      and the colour "Orange" (c7) are both written オレンジ. */
  lemma SharedTextAcrossIds()
    ensures VocabularyDatabase[22].id == "f8" && VocabularyDatabase[36].id == "c7"
    ensures VocabularyDatabase[22].jp == VocabularyDatabase[36].jp == "オレンジ"
    ensures exists i, j ::
              && 0 <= i < j < |VocabularyDatabase|
              && VocabularyDatabase[i].id != VocabularyDatabase[j].id
              && VocabularyDatabase[i].jp == VocabularyDatabase[j].jp
  {
    assert VocabularyDatabase[22].id == "f8" && VocabularyDatabase[36].id == "c7";
  }
}
