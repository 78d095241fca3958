/**
 The player-focused decisions of the game: how fast and in which direction the
 player moves for the keys held, which texture it shows, the idle squash, the
 death counter, and the horizontal clamp with the fall-out test. The sprite is
 a plain record; the framework's properties `left` and `right` are derived
 from its centre and width.
 */
module PlayerLogic {
  import opened Keys

  /** Horizontal speeds, in pixels per frame. */
  const NormalVelocity: real := 4.0
  const SprintVelocity: real := 5.0
  const CrawlVelocity: real := 1.0

  /** Sprinting squashes the player, crawling stretches it. */
  const SprintHeightFactor: real := 0.8
  const CrawlHeightFactor: real := 1.2

  /** Horizontal speed kept per frame once neither A nor D is held. */
  const Damping: real := 0.9

  /** Below this horizontal speed the player counts as standing still. */
  const IdleSpeed: real := 0.1
  /** The idle animation shows the squashed height from this clock value on. */
  const IdleHalfCycle: real := 0.5
  const IdleSquash: real := 0.9

  /** The player has fallen out once its centre is this many heights below zero. */
  const FallDepth: real := 5.0

  /** Texture slots, in the order the player's textures are loaded. */
  const StandRight: nat := 0
  const StandLeft: nat := 1
  const JumpRight: nat := 2
  const JumpLeft: nat := 3
  const FallRight: nat := 4
  const FallLeft: nat := 5

  datatype Player = Player(
    centerX: real, centerY: real,
    width: real, height: real,
    changeX: real, changeY: real,
    texture: nat)
  {
    function Left(): real { centerX - width / 2.0 }
    function Right(): real { centerX + width / 2.0 }
  }

  function Abs(x: real): real {
    if x < 0.0 then -x else x
  }

  /** Speed and height that go together. */
  datatype Gait = Gait(velocity: real, height: real)

  /** Gait for the keys held: left shift sprints, else left control crawls, else walk. */
  function ChooseGait(keys: set<Key>, defaultHeight: real): (r: Gait)
    ensures LShift in keys ==> r == Gait(SprintVelocity, defaultHeight * SprintHeightFactor)
    ensures LShift !in keys && LCtrl in keys ==> r == Gait(CrawlVelocity, defaultHeight * CrawlHeightFactor)
    ensures LShift !in keys && LCtrl !in keys ==> r == Gait(NormalVelocity, defaultHeight)
    ensures r.velocity > 0.0
  {
    if LShift in keys then Gait(SprintVelocity, defaultHeight * SprintHeightFactor)
    else if LCtrl in keys then Gait(CrawlVelocity, defaultHeight * CrawlHeightFactor)
    else Gait(NormalVelocity, defaultHeight)
  }

  /** Only the two modifier keys decide the gait, and shift hides control. */
  lemma GaitDependsOnModifiersOnly(keys: set<Key>, defaultHeight: real)
    ensures ChooseGait(keys, defaultHeight) == ChooseGait(keys * {LShift, LCtrl}, defaultHeight)
    ensures LShift in keys ==> ChooseGait(keys, defaultHeight) == ChooseGait(keys - {LCtrl}, defaultHeight)
  {
  }

  /**
   One frame of keyboard movement. A left key sets the speed leftwards, a
   right key (tested second) rightwards; when neither A nor D is held the
   horizontal speed is damped, even while an arrow key is held.
   */
  function Movement(p: Player, defaultHeight: real, keys: set<Key>): (r: Player)
    ensures r == p.(height := r.height, changeX := r.changeX)
    ensures r.height == ChooseGait(keys, defaultHeight).height
    ensures var v := ChooseGait(keys, defaultHeight).velocity;
      && (D in keys ==> r.changeX == v)
      && (A in keys && D !in keys ==> r.changeX == if Right in keys then v else -v)
      && (A !in keys && D !in keys ==>
            r.changeX == Damping * (if Right in keys then v else if Left in keys then -v else p.changeX))
  {
    var gait := ChooseGait(keys, defaultHeight);
    var x1 := if A in keys || Left in keys then -1.0 * gait.velocity else p.changeX;
    var x2 := if D in keys || Right in keys then gait.velocity else x1;
    var x3 := if A !in keys && D !in keys then x2 * Damping else x2;
    p.(height := gait.height, changeX := x3)
  }

  /** With a key of each direction held, the right one wins. */
  lemma RightWins(p: Player, defaultHeight: real, keys: set<Key>)
    requires A in keys || Left in keys
    requires D in keys || Right in keys
    ensures Movement(p, defaultHeight, keys).changeX > 0.0
  {
  }

  /** `x` damped once per frame for `n` frames. */
  function Damped(x: real, n: nat): real {
    if n == 0 then x else Damping * Damped(x, n - 1)
  }

  /**
   The player after `n` keyboard steps with the same keys held. Only the
   keyboard part of an update is repeated: the physics step in between is
   left out, so this describes the keyboard's effect, not `n` whole frames.
   */
  function Glide(p: Player, defaultHeight: real, keys: set<Key>, n: nat): Player {
    if n == 0 then p else Movement(Glide(p, defaultHeight, keys, n - 1), defaultHeight, keys)
  }

  /**
   Without any direction key the keyboard step only damps: after `n`
   keyboard steps the speed is the starting speed damped `n` times, and
   never larger.
   */
  lemma {:induction false} GlideDecays(p: Player, defaultHeight: real, keys: set<Key>, n: nat)
    requires A !in keys && D !in keys && Left !in keys && Right !in keys
    ensures Glide(p, defaultHeight, keys, n).changeX == Damped(p.changeX, n)
    ensures Abs(Glide(p, defaultHeight, keys, n).changeX) <= Abs(p.changeX)
  {
    if n > 0 {
      GlideDecays(p, defaultHeight, keys, n - 1);
      var q := Glide(p, defaultHeight, keys, n - 1);
      assert Glide(p, defaultHeight, keys, n) == Movement(q, defaultHeight, keys);
      assert Abs(Damping * q.changeX) <= Abs(q.changeX);
    }
  }

  /**
   Texture for the player's motion: on the ground it faces the way it moves,
   in the air it shows the jump or fall texture for that direction. Standing
   still horizontally keeps the current texture.
   */
  function AnimatePlayer(p: Player, grounded: bool): (r: Player)
    ensures r == p.(texture := r.texture)
    ensures grounded && p.changeX > 0.0 ==> r.texture == StandRight
    ensures grounded && p.changeX < 0.0 ==> r.texture == StandLeft
    ensures !grounded && p.changeY > 0.0 && p.changeX > 0.0 ==> r.texture == JumpRight
    ensures !grounded && p.changeY > 0.0 && p.changeX < 0.0 ==> r.texture == JumpLeft
    ensures !grounded && p.changeY < 0.0 && p.changeX > 0.0 ==> r.texture == FallRight
    ensures !grounded && p.changeY < 0.0 && p.changeX < 0.0 ==> r.texture == FallLeft
    ensures p.changeX == 0.0 || (!grounded && p.changeY == 0.0) ==> r.texture == p.texture
    // a changed texture always faces the direction of motion: even slots face right
    ensures r.texture != p.texture ==> r.texture <= FallLeft && (r.texture % 2 == 0 <==> p.changeX > 0.0)
  {
    var t :=
      if grounded && p.changeX > 0.0 then StandRight
      else if grounded && p.changeX < 0.0 then StandLeft
      else if p.changeY > 0.0 && p.changeX > 0.0 then JumpRight
      else if p.changeY > 0.0 && p.changeX < 0.0 then JumpLeft
      else if p.changeY < 0.0 && p.changeX > 0.0 then FallRight
      else if p.changeY < 0.0 && p.changeX < 0.0 then FallLeft
      else p.texture;
    p.(texture := t)
  }

  /** Idle animation: a player standing still is squashed in the second half of the clock cycle. */
  function PlayerIdle(p: Player, clock: real): (r: Player)
    ensures r == p.(height := r.height)
    ensures Abs(p.changeX) >= IdleSpeed || clock < IdleHalfCycle ==> r == p
    ensures Abs(p.changeX) < IdleSpeed && clock >= IdleHalfCycle ==> r.height == IdleSquash * p.height
    ensures p.height >= 0.0 ==> 0.0 <= r.height <= p.height
  {
    var standing := p.height;
    var squashed := p.height * IdleSquash;
    if Abs(p.changeX) < IdleSpeed then
      if clock < IdleHalfCycle then p.(height := standing) else p.(height := squashed)
    else p
  }

  /** The death counter after one more death. */
  function DiesSequence(deaths: int): int {
    deaths + 1
  }

  /** A clamped player and whether it fell below the map. */
  datatype Bounded = Bounded(player: Player, fellOut: bool)

  /** Where `x` lands when pushed into `[lo, hi]`, with `hi` winning if the range is empty. */
  function Clamp(x: real, lo: real, hi: real): real {
    var raised := if x < lo then lo else x;
    if raised > hi then hi else raised
  }

  /**
   Keeps the player inside the screen horizontally (first the left edge, then
   the right edge) and reports whether it fell more than five heights below
   the bottom.
   */
  function OutOfBounds(p: Player, screenWidth: real): (r: Bounded)
    ensures r.player == p.(centerX := r.player.centerX)
    ensures p.width <= screenWidth ==> 0.0 <= r.player.Left() && r.player.Right() <= screenWidth
    ensures r.player.centerX == Clamp(p.centerX, p.width / 2.0, screenWidth - p.width / 2.0)
    ensures 0.0 <= p.Left() && p.Right() <= screenWidth ==> r.player == p
    ensures r.fellOut <==> p.centerY < -FallDepth * p.height
  {
    var p1 := if p.Left() < 0.0 then p.(centerX := 0.0 + p.width / 2.0) else p;
    var p2 := if p1.Right() > screenWidth then p1.(centerX := screenWidth - p1.width / 2.0) else p1;
    Bounded(p2, p.centerY < -FallDepth * p.height)
  }
}
