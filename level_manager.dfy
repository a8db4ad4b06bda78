/** The track: the per-frame tick that moves the spawned objects towards the
    player, tests them against the player's box, culls the ones that have
    passed, dispatches hits into the progression store, and spawns at most one
    new object, biased by the word the player is holding.

    The source keeps the object list in React state and the distance, the next
    spawn threshold and the id counter in refs; here they are the fields of a
    `Track`. The frame is proved against pure functions: `Sweep` (move, collide,
    cull), `Dispatched` (what the hits do to the store) and `Spawn`. Randomness
    (`Math.random`), the clock's frame delta, the player's position and the bob
    of the floating objects are parameters. */
module LevelManager {
  import opened GameTypes
  import opened Choice
  import opened Progression

  const ObstacleHeight: real := 1.6
  /** Half the depth and half the width of the collision window around the player. */
  const HitHalfDepth: real := 0.8
  const HitHalfWidth: real := 0.8
  /** How far above or below the player a gem or orb can still be picked up. */
  const PickupReach: real := 1.3
  /** Resting height of gems and orbs, and the amplitude of their bob. */
  const OrbHeight: real := 1.2
  const Bob: real := 0.1
  const MaxObjects: nat := 50
  /** Longest frame step, whatever the clock reports. */
  const MaxStep: real := 0.05
  const GemValue: int := 50
  const FirstSpawnDistance: real := 10.0

  datatype ObjectKind = Obstacle | Gem | WordOrb(wordId: string, text: string, lang: Lang)

  /** A spawned object; `id` is the counter value behind its `obj_<n>` name. */
  datatype GameObject = GameObject(id: nat, kind: ObjectKind, x: real, y: real, z: real)

  /** What a hit dispatches: the window's `player-hit` event, `collectWord`, or `collectGem`. */
  datatype Event = PlayerHit | WordTouched(wordId: string, text: string, lang: Lang) | GemTouched

  /** The random numbers one spawn consumes, each in [0, 1): the lane, the kind
      (match-or-obstacle while holding, word-or-not otherwise), the language of
      a fresh orb, the word it shows, gem-or-obstacle, and the gap to the next spawn. */
  datatype SpawnRolls = SpawnRolls(lane: real, kind: real, lang: real, pick: real, gem: real, gap: real)

  datatype SpawnOutcome = Spawned(obj: GameObject) | NoSpawn | Thrown

  datatype Swept = Swept(kept: seq<GameObject>, events: seq<Event>)

  function Abs(r: real): real
  {
    if r < 0.0 then -r else r
  }

  function IdKey(o: GameObject): int
  {
    o.id
  }

  predicate RollsInRange(r: SpawnRolls)
  {
    && 0.0 <= r.lane < 1.0 && 0.0 <= r.kind < 1.0 && 0.0 <= r.lang < 1.0
    && 0.0 <= r.pick < 1.0 && 0.0 <= r.gem < 1.0 && 0.0 <= r.gap < 1.0
  }

  // ---------------------------------------------------------------------------
  // Moving, colliding and culling

  /** The frame step: the clock's delta, clamped. */
  function Step(delta: real): (dt: real)
    ensures dt <= MaxStep && dt <= delta
    ensures dt == delta || dt == MaxStep
    ensures delta >= 0.0 ==> dt >= 0.0
  {
    if delta < MaxStep then delta else MaxStep
  }

  lemma ScaleBelow(a: real, b: real, c: real)
    requires a >= 0.0 && 0.0 <= b <= c
    ensures 0.0 <= a * b <= a * c
  {
    assert a * (c - b) >= 0.0;
    assert a * (c - b) == a * c - a * b;
  }

  /** How far the track moves in one frame: speed times the clamped step, so
      never more than speed times 0.05, and never backwards while the speed
      and the clock's delta are not negative. */
  function Travel(speed: real, delta: real): (t: real)
    ensures speed >= 0.0 && delta >= 0.0 ==> 0.0 <= t <= speed * MaxStep
  {
    var dt := Step(delta);
    if speed >= 0.0 && delta >= 0.0 then
      ScaleBelow(speed, dt, MaxStep);
      speed * dt
    else speed * dt
  }

  function Moved(o: GameObject, travel: real): GameObject
  {
    o.(z := o.z + travel)
  }

  /** Gems and orbs bob around their resting height after the collision test. */
  function Bobbed(o: GameObject, sway: real): GameObject
  {
    if o.kind.Obstacle? then o else o.(y := OrbHeight + sway)
  }

  /** The collision test against the player at (pX, pY), on an object already moved. */
  predicate Hits(o: GameObject, pX: real, pY: real)
  {
    && -HitHalfDepth < o.z < HitHalfDepth
    && Abs(o.x - pX) < HitHalfWidth
    && if o.kind.Obstacle? then pY < ObstacleHeight else Abs(pY - o.y) < PickupReach
  }

  function EventOf(o: GameObject): Event
  {
    match o.kind
    case Obstacle => PlayerHit
    case Gem => GemTouched
    case WordOrb(wordId, text, lang) => WordTouched(wordId, text, lang)
  }

  /** One pass over the objects in list order: each is moved by `travel`; a hit
      one is dropped and reported, one past the removal line is dropped
      silently, and any other one stays, bobbed. */
  function Sweep(objects: seq<GameObject>, travel: real, pX: real, pY: real, sway: real): Swept
    decreases |objects|
  {
    if |objects| == 0 then Swept([], [])
    else
      var prior := Sweep(objects[..|objects| - 1], travel, pX, pY, sway);
      var o := Moved(objects[|objects| - 1], travel);
      if Hits(o, pX, pY) then Swept(prior.kept, prior.events + [EventOf(o)])
      else if o.z > RemoveDistance then prior
      else Swept(prior.kept + [Bobbed(o, sway)], prior.events)
  }

  /** The pass over one more object extends the pass over the ones before it. */
  lemma SweepStep(objects: seq<GameObject>, i: nat, travel: real, pX: real, pY: real, sway: real)
    requires i < |objects|
    ensures var prior := Sweep(objects[..i], travel, pX, pY, sway);
      var o := Moved(objects[i], travel);
      Sweep(objects[..i + 1], travel, pX, pY, sway)
        == if Hits(o, pX, pY) then Swept(prior.kept, prior.events + [EventOf(o)])
           else if o.z > RemoveDistance then prior
           else Swept(prior.kept + [Bobbed(o, sway)], prior.events)
  {
    assert objects[..i + 1][..i] == objects[..i];
  }

  function HitAt(travel: real, pX: real, pY: real): GameObject -> bool
  {
    (o: GameObject) => Hits(Moved(o, travel), pX, pY)
  }

  function Survives(travel: real, pX: real, pY: real): GameObject -> bool
  {
    (o: GameObject) => !Hits(Moved(o, travel), pX, pY) && Moved(o, travel).z <= RemoveDistance
  }

  /** The pass keeps, in order, exactly the objects that are neither hit nor
      past the removal line, each moved and bobbed. */
  lemma {:induction false} SweepKeepsSurvivors(objects: seq<GameObject>, travel: real, pX: real, pY: real, sway: real)
    ensures var r := Sweep(objects, travel, pX, pY, sway);
      var survivors := Filter(objects, Survives(travel, pX, pY));
      && |r.kept| == |survivors|
      && forall i :: 0 <= i < |survivors| ==> r.kept[i] == Bobbed(Moved(survivors[i], travel), sway)
    decreases |objects|
  {
    if |objects| > 0 {
      var n := |objects| - 1;
      var front, last := objects[..n], objects[n];
      var keep := Survives(travel, pX, pY);
      SweepKeepsSurvivors(front, travel, pX, pY, sway);
      SplitLast(objects);
      FilterAppend(front, [last], keep);
      assert [last][1..] == [];
      var prior := Sweep(front, travel, pX, pY, sway);
      if keep(last) {
        assert Filter([last], keep) == [last];
        assert Sweep(objects, travel, pX, pY, sway).kept == prior.kept + [Bobbed(Moved(last, travel), sway)];
      } else {
        assert Filter([last], keep) == [];
        assert Sweep(objects, travel, pX, pY, sway).kept == prior.kept;
      }
    }
  }

  /** The pass reports every hit object exactly once, in list order; an object
      culled at the removal line reports nothing. */
  lemma {:induction false} SweepReportsHits(objects: seq<GameObject>, travel: real, pX: real, pY: real, sway: real)
    ensures var r := Sweep(objects, travel, pX, pY, sway);
      var hit := Filter(objects, HitAt(travel, pX, pY));
      && |r.events| == |hit|
      && forall i :: 0 <= i < |hit| ==> r.events[i] == EventOf(Moved(hit[i], travel))
    decreases |objects|
  {
    if |objects| > 0 {
      var n := |objects| - 1;
      var front, last := objects[..n], objects[n];
      var hitAt := HitAt(travel, pX, pY);
      SweepReportsHits(front, travel, pX, pY, sway);
      SplitLast(objects);
      FilterAppend(front, [last], hitAt);
      assert [last][1..] == [];
      var prior := Sweep(front, travel, pX, pY, sway);
      if hitAt(last) {
        assert Filter([last], hitAt) == [last];
        assert Sweep(objects, travel, pX, pY, sway).events == prior.events + [EventOf(Moved(last, travel))];
      } else {
        assert Filter([last], hitAt) == [];
        assert Sweep(objects, travel, pX, pY, sway).events == prior.events;
      }
    }
  }

  /** A player in the air at obstacle height or above is never hit by an obstacle. */
  lemma JumpClearsObstacles(objects: seq<GameObject>, travel: real, pX: real, pY: real, sway: real)
    requires pY >= ObstacleHeight
    ensures forall k :: 0 <= k < |Sweep(objects, travel, pX, pY, sway).events| ==>
      Sweep(objects, travel, pX, pY, sway).events[k] != PlayerHit
  {
    SweepReportsHits(objects, travel, pX, pY, sway);
  }

  // ---------------------------------------------------------------------------
  // Dispatching hits into the store

  /** The quiz draw the k-th word collection of a frame uses. */
  function QuizDrawAt(draws: seq<QuizDraw>, k: nat): QuizDraw
  {
    if k < |draws| then draws[k] else QuizDraw(0, [], [])
  }

  /** What one hit does to the store. The obstacle's `player-hit` event is
      handled outside the store (by the player's damage handler). */
  function Applied(s: GameState, e: Event, now: int, draw: QuizDraw): GameState
  {
    match e
    case PlayerHit => s
    case WordTouched(wordId, text, lang) => WordCollected(s, wordId, text, lang, now, draw)
    case GemTouched => GemCollected(s, GemValue, now)
  }

  /** The store after a frame's hits, applied in order. */
  function Dispatched(s: GameState, events: seq<Event>, now: int, draws: seq<QuizDraw>): GameState
    decreases |events|
  {
    if |events| == 0 then s
    else
      var n := |events| - 1;
      Applied(Dispatched(s, events[..n], now, draws), events[n], now, QuizDrawAt(draws, n))
  }

  /** One more hit applies on top of the ones before it, with the next draw. */
  lemma DispatchedStep(s: GameState, events: seq<Event>, e: Event, now: int, draws: seq<QuizDraw>)
    ensures Dispatched(s, events + [e], now, draws)
         == Applied(Dispatched(s, events, now, draws), e, now, QuizDrawAt(draws, |events|))
  {
    assert (events + [e])[..|events|] == events;
  }

  /** However many hits a frame has, the store's invariant survives them. */
  lemma {:induction false} DispatchedKeepsInv(s: GameState, events: seq<Event>, now: int, draws: seq<QuizDraw>)
    requires Inv(s)
    ensures Inv(Dispatched(s, events, now, draws))
    decreases |events|
  {
    if |events| > 0 {
      var n := |events| - 1;
      DispatchedKeepsInv(s, events[..n], now, draws);
      var prior := Dispatched(s, events[..n], now, draws);
      match events[n]
      case PlayerHit =>
      case WordTouched(wordId, text, lang) =>
        WordCollectedKeepsInv(prior, wordId, text, lang, now, QuizDrawAt(draws, n));
      case GemTouched =>
        GemCollectedKeepsInv(prior, GemValue, now);
    }
  }

  // ---------------------------------------------------------------------------
  // Spawning

  lemma FloorBelow(r: real, n: int)
    requires 0.0 <= r < 1.0 && n >= 1
    ensures 0 <= (r * n as real).Floor < n
  {
    assert (1.0 - r) * (n as real) > 0.0;
  }

  /** The lane a roll picks among `laneCount` lanes, centred on lane 0. */
  function LaneOf(laneCount: int, roll: real): (lane: int)
    requires laneCount >= 1 && 0.0 <= roll < 1.0
    ensures -(laneCount / 2) <= lane <= laneCount - 1 - laneCount / 2
  {
    FloorBelow(roll, laneCount);
    (roll * laneCount as real).Floor - laneCount / 2
  }

  /** With three lanes the objects spawn on the left, middle or right lane. */
  lemma ThreeLanes(roll: real)
    requires 0.0 <= roll < 1.0
    ensures LaneOf(3, roll) in {-1, 0, 1}
    ensures LaneOf(3, roll) as real * LaneWidth in {-LaneWidth, 0.0, LaneWidth}
  {
  }

  /** The distance to the next spawn after a spawn. */
  function SpawnGap(roll: real): (gap: real)
    requires 0.0 <= roll < 1.0
    ensures 20.0 <= gap < 40.0
  {
    20.0 + roll * 20.0
  }

  /** The first active word with the given id (JavaScript's `find`). */
  function FindWord(words: seq<WordData>, id: string): (r: Option<WordData>)
    ensures r.Some? ==> r.value in words && r.value.id == id
    ensures r.Some? ==> exists i :: 0 <= i < |words| && words[i] == r.value && forall j :: 0 <= j < i ==> words[j].id != id
    ensures r.None? ==> forall i :: 0 <= i < |words| ==> words[i].id != id
  {
    if |words| == 0 then None
    else if words[0].id == id then Some(words[0])
    else FindWord(words[1..], id)
  }

  function TextIn(w: WordData, lang: Lang): string
  {
    if lang == En then w.en else w.jp
  }

  /** The object a spawn attempt creates. While a word is held, a roll below
      0.85 brings its partner (the same word in the other language) if the word
      is still active, and nothing otherwise; any other roll brings an
      obstacle. With nothing held, half the rolls bring an orb for a random
      active word (Japanese 95% of the time), which throws when there are no
      active words; the rest bring a gem (30%) or an obstacle. */
  function Spawn(held: Option<HeldWord>, active: seq<WordData>, laneCount: int, id: nat, r: SpawnRolls): SpawnOutcome
    requires laneCount >= 1 && RollsInRange(r)
  {
    var x := LaneOf(laneCount, r.lane) as real * LaneWidth;
    match held
    case Some(h) =>
      if r.kind < 0.85 then
        match FindWord(active, h.id)
        case None => NoSpawn
        case Some(w) =>
          var lang := Opposite(h.lang);
          Spawned(GameObject(id, WordOrb(w.id, TextIn(w, lang), lang), x, OrbHeight, -SpawnDistance))
      else Spawned(GameObject(id, Obstacle, x, ObstacleHeight / 2.0, -SpawnDistance))
    case None =>
      if r.kind < 0.5 then
        if |active| == 0 then Thrown
        else
          FloorBelow(r.pick, |active|);
          var w := active[(r.pick * |active| as real).Floor];
          var lang := if r.lang < 0.95 then Jp else En;
          Spawned(GameObject(id, WordOrb(w.id, TextIn(w, lang), lang), x, OrbHeight, -SpawnDistance))
      else if r.gem < 0.3 then Spawned(GameObject(id, Gem, x, OrbHeight, -SpawnDistance))
      else Spawned(GameObject(id, Obstacle, x, ObstacleHeight / 2.0, -SpawnDistance))
  }

  /** While a word is held, a match roll spawns an orb that completes the pair
      exactly when the held word is still active, with the active word's text
      in the other language; otherwise the attempt spawns nothing. */
  lemma HeldWordBringsPartner(h: HeldWord, active: seq<WordData>, laneCount: int, id: nat, r: SpawnRolls)
    requires laneCount >= 1 && RollsInRange(r) && r.kind < 0.85
    ensures var out := Spawn(Some(h), active, laneCount, id, r);
      && ((exists i :: 0 <= i < |active| && active[i].id == h.id) <==> out.Spawned?)
      && (out.Spawned? ==>
            && out.obj.kind.WordOrb?
            && IsMatch(h, out.obj.kind.wordId, out.obj.kind.lang)
            && exists w :: w in active && w.id == h.id && out.obj.kind.text == TextIn(w, Opposite(h.lang)))
  {
    var out := Spawn(Some(h), active, laneCount, id, r);
    match FindWord(active, h.id)
    case None =>
    case Some(w) =>
      assert w in active && w.id == h.id;
      var i :| 0 <= i < |active| && active[i] == w;
  }

  /** While a word is held, the other rolls spawn an obstacle. */
  lemma HeldWordOtherwiseObstacle(h: HeldWord, active: seq<WordData>, laneCount: int, id: nat, r: SpawnRolls)
    requires laneCount >= 1 && RollsInRange(r) && r.kind >= 0.85
    ensures Spawn(Some(h), active, laneCount, id, r).Spawned?
    ensures Spawn(Some(h), active, laneCount, id, r).obj.kind == Obstacle
  {
  }

  /** With nothing held a word roll spawns an orb for one of the active words,
      in Japanese below 0.95, and throws only when no word is active; any other
      roll spawns a gem below 0.3 and an obstacle from there on. */
  lemma FreshSpawnKinds(active: seq<WordData>, laneCount: int, id: nat, r: SpawnRolls)
    requires laneCount >= 1 && RollsInRange(r)
    ensures var out := Spawn(None, active, laneCount, id, r);
      && (out.Thrown? <==> r.kind < 0.5 && |active| == 0)
      && (r.kind < 0.5 && |active| > 0 ==>
            && out.Spawned? && out.obj.kind.WordOrb?
            && (out.obj.kind.lang == Jp <==> r.lang < 0.95)
            && exists w :: w in active && w.id == out.obj.kind.wordId && out.obj.kind.text == TextIn(w, out.obj.kind.lang))
      && (r.kind >= 0.5 ==> out.Spawned? && (out.obj.kind == Gem <==> r.gem < 0.3) && (out.obj.kind.Gem? || out.obj.kind.Obstacle?))
  {
    if r.kind < 0.5 && |active| > 0 {
      FloorBelow(r.pick, |active|);
      var w := active[(r.pick * |active| as real).Floor];
      assert w in active;
    }
  }

  // ---------------------------------------------------------------------------
  // The track invariant

  /** Where an object on the track can be: on one of the three lanes, between
      the spawn line and the removal line, obstacles on the ground and the
      others at their bobbing height. */
  ghost predicate Placed(o: GameObject)
  {
    && (o.x == -LaneWidth || o.x == 0.0 || o.x == LaneWidth)
    && -SpawnDistance <= o.z <= RemoveDistance
    && if o.kind.Obstacle? then o.y == ObstacleHeight / 2.0 else OrbHeight - Bob <= o.y <= OrbHeight + Bob
  }

  /** At most 50 objects, with ids that increase along the list and stay below
      the counter, all of them placed on the track. */
  ghost predicate TrackInv(objects: seq<GameObject>, counter: nat)
  {
    && |objects| <= MaxObjects
    && IncreasingBy(objects, IdKey)
    && forall i :: 0 <= i < |objects| ==> objects[i].id < counter && Placed(objects[i])
  }

  /** The pass keeps the track invariant and never lengthens the list. */
  lemma SweepKeepsTrack(objects: seq<GameObject>, counter: nat, travel: real, pX: real, pY: real, sway: real)
    requires TrackInv(objects, counter)
    requires travel >= 0.0 && -Bob <= sway <= Bob
    ensures |Sweep(objects, travel, pX, pY, sway).kept| <= |objects|
    ensures TrackInv(Sweep(objects, travel, pX, pY, sway).kept, counter)
  {
    var r := Sweep(objects, travel, pX, pY, sway);
    var survivors := Filter(objects, Survives(travel, pX, pY));
    SweepKeepsSurvivors(objects, travel, pX, pY, sway);
    FilterKeepsIncreasing(objects, Survives(travel, pX, pY), IdKey);
    forall i | 0 <= i < |r.kept|
      ensures r.kept[i].id < counter && Placed(r.kept[i])
    {
      assert survivors[i] in objects && Survives(travel, pX, pY)(survivors[i]);
      var j :| 0 <= j < |objects| && objects[j] == survivors[i];
      assert Placed(objects[j]);
    }
    forall i, j | 0 <= i < j < |r.kept|
      ensures IdKey(r.kept[i]) < IdKey(r.kept[j])
    {
      assert IdKey(survivors[i]) < IdKey(survivors[j]);
    }
  }

  /** Every object a spawn creates is placed on the track and carries the given id. */
  lemma SpawnPlaced(held: Option<HeldWord>, active: seq<WordData>, id: nat, r: SpawnRolls)
    requires RollsInRange(r)
    ensures var out := Spawn(held, active, 3, id, r);
      out.Spawned? ==> Placed(out.obj) && out.obj.id == id
  {
    ThreeLanes(r.lane);
  }

  /** Appending a freshly numbered object keeps the invariant while the list had room. */
  lemma SpawnKeepsTrack(kept: seq<GameObject>, counter: nat, o: GameObject)
    requires TrackInv(kept, counter) && |kept| < MaxObjects
    requires Placed(o) && o.id == counter
    ensures TrackInv(kept + [o], counter + 1)
  {
  }

  function Appended(out: SpawnOutcome): seq<GameObject>
  {
    if out.Spawned? then [out.obj] else []
  }

  // ---------------------------------------------------------------------------
  // The component

  /** The track of one run: the object list, the distance run, the distance at
      which the next spawn is due, and the counter that names objects. */
  class Track {
    const store: Store
    var objects: seq<GameObject>
    var distance: real
    var nextSpawnDist: real
    var objectCounter: nat

    ghost predicate Valid()
      reads this, store
    {
      store.Valid() && TrackInv(objects, objectCounter)
    }

    constructor (store: Store)
      requires store.Valid()
      ensures Valid() && this.store == store
      ensures objects == [] && distance == 0.0 && nextSpawnDist == FirstSpawnDistance && objectCounter == 0
    {
      this.store := store;
      objects := [];
      distance := 0.0;
      nextSpawnDist := FirstSpawnDistance;
      objectCounter := 0;
    }

    /** The effect run when the status changes: entering PLAYING clears the
        track; any other status leaves it as it is. */
    method StatusChanged()
      requires Valid()
      modifies this
      ensures Valid()
      ensures store.state.status == Playing ==>
        objects == [] && distance == 0.0 && nextSpawnDist == FirstSpawnDistance && objectCounter == 0
      ensures store.state.status != Playing ==> unchanged(this)
    {
      if store.state.status == Playing {
        objects := [];
        distance := 0.0;
        nextSpawnDist := FirstSpawnDistance;
        objectCounter := 0;
      }
    }

    /** A hit object's effect: an obstacle raises the `player-hit` event (no
        store call here), an orb collects its word, a gem collects 50 points. */
    method HandleCollision(o: GameObject, now: int, draw: QuizDraw)
      requires store.Valid()
      modifies store
      ensures store.Valid() && store.state == Applied(old(store.state), EventOf(o), now, draw)
    {
      match o.kind
      case Obstacle =>
      case WordOrb(wordId, text, lang) => store.CollectWord(wordId, text, lang, now, draw);
      case Gem => store.CollectGem(GemValue, now);
    }

    /** The object loop of a frame: moves, tests, dispatches and culls, in list order. */
    method SweepObjects(travel: real, pX: real, pY: real, sway: real, now: int, quizDraws: seq<QuizDraw>)
      returns (kept: seq<GameObject>, events: seq<Event>)
      requires store.Valid()
      modifies store
      ensures store.Valid()
      ensures Sweep(objects, travel, pX, pY, sway) == Swept(kept, events)
      ensures store.state == Dispatched(old(store.state), events, now, quizDraws)
    {
      kept, events := [], [];
      var i := 0;
      while i < |objects|
        invariant 0 <= i <= |objects|
        invariant Sweep(objects[..i], travel, pX, pY, sway) == Swept(kept, events)
        invariant store.Valid()
        invariant store.state == Dispatched(old(store.state), events, now, quizDraws)
      {
        SweepStep(objects, i, travel, pX, pY, sway);
        var o := Moved(objects[i], travel);
        if Hits(o, pX, pY) {
          HandleCollision(o, now, QuizDrawAt(quizDraws, |events|));
          DispatchedStep(old(store.state), events, EventOf(o), now, quizDraws);
          events := events + [EventOf(o)];
        } else if o.z <= RemoveDistance {
          kept := kept + [Bobbed(o, sway)];
        }
        i := i + 1;
      }
      assert objects[..i] == objects;
    }

    /** The spawn step that ends a frame, given the swept list and the length
        the list had when the frame began: when the distance has reached the
        threshold and that length is below 50, one attempt is made; the counter
        always advances, the object (if any) is appended, and the next
        threshold is set 20 to 40 ahead unless the attempt threw. */
    method SpawnStep(kept: seq<GameObject>, startLength: nat, active: seq<WordData>, rolls: SpawnRolls)
      returns (thrown: bool)
      requires store.Valid() && TrackInv(kept, objectCounter) && |kept| <= startLength
      requires RollsInRange(rolls)
      modifies this
      ensures Valid()
      ensures distance == old(distance)
      ensures if old(distance) >= old(nextSpawnDist) && startLength < MaxObjects then
          var out := Spawn(store.state.holdingWord, active, 3, old(objectCounter), rolls);
          && objectCounter == old(objectCounter) + 1
          && objects == kept + Appended(out)
          && thrown == out.Thrown?
          && nextSpawnDist == (if out.Thrown? then old(nextSpawnDist) else distance + SpawnGap(rolls.gap))
        else
          && objectCounter == old(objectCounter)
          && objects == kept
          && nextSpawnDist == old(nextSpawnDist)
          && !thrown
    {
      thrown := false;
      objects := kept;
      if distance >= nextSpawnDist && startLength < MaxObjects {
        var id := objectCounter;
        objectCounter := objectCounter + 1;
        var out := Spawn(store.state.holdingWord, active, store.state.laneCount, id, rolls);
        SpawnPlaced(store.state.holdingWord, active, id, rolls);
        match out {
          case Spawned(o) =>
            SpawnKeepsTrack(kept, id, o);
            objects := kept + [o];
          case NoSpawn =>
          case Thrown =>
            thrown := true;
        }
        if !thrown {
          nextSpawnDist := distance + SpawnGap(rolls.gap);
        }
      }
    }

    /** One frame. Outside PLAYING nothing happens. Otherwise the distance
        grows by speed times the clamped step, the object pass runs with its
        hits dispatched into the store, and the spawn step runs on the
        snapshot of the active words and the list length taken when the frame
        began. Returns the hits' events in order and whether the spawn threw. */
    method Frame(delta: real, pX: real, pY: real, sway: real, now: int, quizDraws: seq<QuizDraw>, rolls: SpawnRolls)
      returns (events: seq<Event>, thrown: bool)
      requires Valid()
      requires delta >= 0.0 && -Bob <= sway <= Bob && RollsInRange(rolls)
      modifies this, store
      ensures Valid()
      ensures old(store.state).status != Playing ==>
        unchanged(this) && store.state == old(store.state) && events == [] && !thrown
      ensures old(store.state).status == Playing ==>
        var travel := Travel(old(store.state).speed, delta);
        var swept := Sweep(old(objects), travel, pX, pY, sway);
        && distance == old(distance) + travel
        && events == swept.events
        && store.state == Dispatched(old(store.state), events, now, quizDraws)
        && if distance >= old(nextSpawnDist) && |old(objects)| < MaxObjects then
             var out := Spawn(store.state.holdingWord, old(store.state).activeWords, 3, old(objectCounter), rolls);
             && objectCounter == old(objectCounter) + 1
             && objects == swept.kept + Appended(out)
             && thrown == out.Thrown?
             && nextSpawnDist == (if out.Thrown? then old(nextSpawnDist) else distance + SpawnGap(rolls.gap))
           else
             && objectCounter == old(objectCounter)
             && objects == swept.kept
             && nextSpawnDist == old(nextSpawnDist)
             && !thrown
    {
      var s0 := store.state;
      if s0.status != Playing {
        return [], false;
      }
      var travel := Travel(s0.speed, delta);
      distance := distance + travel;
      var kept;
      kept, events := SweepObjects(travel, pX, pY, sway, now, quizDraws);
      SweepKeepsTrack(objects, objectCounter, travel, pX, pY, sway);
      thrown := SpawnStep(kept, |objects|, s0.activeWords, rolls);
    }
  }
}
