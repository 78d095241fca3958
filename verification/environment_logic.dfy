/**
 The environment-focused decisions of the game: the coin animation frame, coin
 collection, contact tests, the all-coins test, the per-stage background and
 enemy behaviour, and the coins that flee the player on the run-away stage.

 Coins and enemies are both framework sprites; here they share one record.
 Collision results and the sine/cosine of the angle towards the player are
 computed by the framework and arrive as parameters.
 */
module EnvironmentLogic {
  import opened PlayerLogic

  datatype Vec = Vec(x: real, y: real)
  {
    function Scale(k: real): Vec { Vec(k * x, k * y) }
  }

  const Still: Vec := Vec(0.0, 0.0)

  /** A coin or enemy sprite: identity, centre, velocity per frame and texture slot. */
  datatype Sprite = Sprite(id: int, x: real, y: real, velocity: Vec, texture: nat)

  datatype Color =
    | DarkBrown | DarkOliveGreen | Gray | SkyBlue
    | DesertSand | BabyPink | YellowOrange | Blueberry

  /** Number of coin animation frames; the clock cycles through them once per second. */
  const CoinFrames: nat := 4

  /**
   Coin frame for the animation clock: a quarter of a second per frame over
   `[0, 1)`, frame 0 from one second on (and for a negative clock).
   */
  function CoinFrame(clock: real): (frame: nat)
    ensures frame < CoinFrames
    ensures 0.0 <= clock < 1.0 ==> frame == (clock * CoinFrames as real).Floor
    ensures clock < 0.0 || 1.0 <= clock ==> frame == 0
  {
    if clock < 0.25 then 0
    else if clock < 0.5 then 1
    else if clock < 0.75 then 2
    else if clock < 1.0 then 3
    else 0
  }

  /** Every sprite shows texture `frame`; nothing else changes. */
  function SetTextures(sprites: seq<Sprite>, frame: nat): seq<Sprite>
  {
    seq(|sprites|, i requires 0 <= i < |sprites| => sprites[i].(texture := frame))
  }

  /** One step of the framework's sprite update: the sprite moves by its velocity. */
  function Step(s: Sprite): Sprite {
    s.(x := s.x + s.velocity.x, y := s.y + s.velocity.y)
  }

  /** Every sprite of the list takes one step. */
  function Drift(sprites: seq<Sprite>): seq<Sprite> {
    seq(|sprites|, i requires 0 <= i < |sprites| => Step(sprites[i]))
  }

  /** The coins whose id the player's collision test reported, in list order. */
  function Touched(coins: seq<Sprite>, hits: set<int>): (r: seq<Sprite>)
    ensures forall c :: c in r ==> c in coins && c.id in hits
  {
    if coins == [] then []
    else if coins[0].id in hits then [coins[0]] + Touched(coins[1..], hits)
    else Touched(coins[1..], hits)
  }

  /** The coins the player did not touch, in list order. */
  function Untouched(coins: seq<Sprite>, hits: set<int>): (r: seq<Sprite>)
    ensures |r| <= |coins|
    ensures forall c :: c in r ==> c in coins && c.id !in hits
    ensures forall c :: c in coins && c.id !in hits ==> c in r
  {
    if coins == [] then []
    else if coins[0].id in hits then Untouched(coins[1..], hits)
    else [coins[0]] + Untouched(coins[1..], hits)
  }

  /** Every coin is either touched or untouched, exactly once. */
  lemma {:induction false} CoinsPartition(coins: seq<Sprite>, hits: set<int>)
    ensures multiset(Touched(coins, hits)) + multiset(Untouched(coins, hits)) == multiset(coins)
    ensures |Touched(coins, hits)| + |Untouched(coins, hits)| == |coins|
  {
    if coins != [] {
      CoinsPartition(coins[1..], hits);
      assert coins == [coins[0]] + coins[1..];
      assert multiset(coins) == multiset{coins[0]} + multiset(coins[1..]);
    }
    assert |multiset(Touched(coins, hits))| == |Touched(coins, hits)|;
    assert |multiset(Untouched(coins, hits))| == |Untouched(coins, hits)|;
  }

  /** Without any hit among them, every coin stays. */
  lemma {:induction false} NothingTouched(coins: seq<Sprite>, hits: set<int>)
    requires forall c :: c in coins ==> c.id !in hits
    ensures Untouched(coins, hits) == coins
    ensures Touched(coins, hits) == []
  {
    if coins != [] {
      assert coins[0] in coins;
      assert forall c :: c in coins[1..] ==> c in coins;
      NothingTouched(coins[1..], hits);
    }
  }

  /** Remaining coins and the updated collected counter. */
  datatype Collection = Collection(remaining: seq<Sprite>, collected: int)

  /**
   Coin pickup: every touched coin is removed and counted once; untouched
   coins stay, in order.
   */
  function CollectCoin(coins: seq<Sprite>, hits: set<int>, collected: int): (r: Collection)
    ensures r.collected + |r.remaining| == collected + |coins|
    ensures r.collected == collected + |Touched(coins, hits)|
    ensures forall c :: c in r.remaining ==> c in coins && c.id !in hits
    ensures forall c :: c in coins && c.id !in hits ==> c in r.remaining
    ensures multiset(r.remaining) + multiset(Touched(coins, hits)) == multiset(coins)
    ensures (forall c :: c in coins ==> c.id !in hits) ==> r == Collection(coins, collected)
  {
    CoinsPartition(coins, hits);
    var r := Collection(Untouched(coins, hits), collected + |Touched(coins, hits)|);
    if forall c :: c in coins ==> c.id !in hits then NothingTouched(coins, hits); r else r
  }

  /** The player touches a zone exactly when the collision test reports some sprite of it. */
  function InContact(hits: set<int>): bool {
    |hits| != 0
  }

  /** All coins of the stage are collected exactly when the counters agree. */
  function CoinsCollected(collected: int, toCollect: int): bool {
    collected == toCollect
  }

  /** Enemy speeds of the floating-enemy stages. */
  const FloatSpeeds: map<int, real> := map[4 := 11.0, 10 := 3.0, 14 := 8.0]

  /** Background colours of the stages that have one of their own. */
  const StageColors: map<int, Color> :=
    map[4 := DarkOliveGreen, 8 := Gray, 11 := SkyBlue, 14 := DesertSand,
        16 := BabyPink, 18 := YellowOrange, 20 := Blueberry]

  /** The stage whose enemies wear the coin animation. */
  const CoinEnemyStage: int := 15

  /**
   Floating enemies chase a moving player at `speed` along `bearing` (the
   sine and cosine of the angle towards the player); while the player's
   horizontal speed is at most 1 they all hover still.
   */
  function MoveFloatingEnemies(enemies: seq<Sprite>, playerChangeX: real, speed: real,
                               bearing: Sprite -> Vec): seq<Sprite>
  {
    seq(|enemies|, i requires 0 <= i < |enemies| =>
      if Abs(playerChangeX) > 1.0
      then enemies[i].(velocity := bearing(enemies[i]).Scale(speed))
      else enemies[i].(velocity := Still))
  }

  /** Background colour and enemies after a stage's special behaviour. */
  datatype StageEffect = StageEffect(background: Color, enemies: seq<Sprite>)

  /**
   Per-stage special behaviour: some stages paint their own background, three
   have floating enemies, and stage 15 animates its enemies as coins. Every
   other stage keeps the background it had.
   */
  function UniqueStageLogic(stage: int, playerChangeX: real, enemies: seq<Sprite>, clock: real,
                            background: Color, bearing: Sprite -> Vec): (r: StageEffect)
    ensures stage in StageColors ==> r.background == StageColors[stage]
    ensures stage !in StageColors ==> r.background == background
    ensures stage in FloatSpeeds ==>
      r.enemies == MoveFloatingEnemies(enemies, playerChangeX, FloatSpeeds[stage], bearing)
    ensures stage == CoinEnemyStage ==> r.enemies == SetTextures(enemies, CoinFrame(clock))
    ensures stage !in FloatSpeeds && stage != CoinEnemyStage ==> r.enemies == enemies
  {
    if stage == 4 then
      StageEffect(DarkOliveGreen, MoveFloatingEnemies(enemies, playerChangeX, 11.0, bearing))
    else if stage == 8 then StageEffect(Gray, enemies)
    else if stage == 10 then
      StageEffect(background, MoveFloatingEnemies(enemies, playerChangeX, 3.0, bearing))
    else if stage == 11 then StageEffect(SkyBlue, enemies)
    else if stage == 14 then
      StageEffect(DesertSand, MoveFloatingEnemies(enemies, playerChangeX, 8.0, bearing))
    else if stage == 15 then StageEffect(background, SetTextures(enemies, CoinFrame(clock)))
    else if stage == 16 then StageEffect(BabyPink, enemies)
    else if stage == 18 then StageEffect(YellowOrange, enemies)
    else if stage == 20 then StageEffect(Blueberry, enemies)
    else StageEffect(background, enemies)
  }

  /** Repeating the stage logic leaves the background where the first call put it. */
  lemma BackgroundSettles(stage: int, playerChangeX: real, enemies: seq<Sprite>, clock: real,
                          background: Color, bearing: Sprite -> Vec)
    ensures var once := UniqueStageLogic(stage, playerChangeX, enemies, clock, background, bearing);
      UniqueStageLogic(stage, playerChangeX, once.enemies, clock, once.background, bearing).background
        == once.background
  {
  }

  /** Coins flee the player at this speed ... */
  const FleeSpeed: real := 10.0
  /** ... once the player is closer than this distance. */
  const FleeRadius: real := 100.0

  /** The distance between the two points is below the flee radius (compared squared). */
  predicate Near(px: real, py: real, c: Sprite) {
    (c.x - px) * (c.x - px) + (c.y - py) * (c.y - py) < FleeRadius * FleeRadius
  }

  /**
   Run-away coins: a coin near the player moves directly away from it; every
   other coin stops.
   */
  function CoinRunAway(coins: seq<Sprite>, px: real, py: real, bearing: Sprite -> Vec): seq<Sprite>
  {
    seq(|coins|, i requires 0 <= i < |coins| =>
      if Near(px, py, coins[i])
      then coins[i].(velocity := bearing(coins[i]).Scale(-1.0 * FleeSpeed))
      else coins[i].(velocity := Still))
  }
}
