/**
 * The YuCoin background: two layers of coins drifting from right to left.
 * Foreground coins can be clicked; a clicked coin plays a collection
 * animation and is then respawned at the right edge of the viewport.
 *
 * Every `Math.random()` draw is a parameter in [0, 1), passed in the order
 * the component draws it. Positions are percentages, sizes pixels, times
 * seconds, angles degrees, all modelled exactly as `real`.
 */
module YuCoinBackground {

  datatype Coin = Coin(
    id: int,
    x: real,
    y: real,
    size: real,
    rotationStart: real,
    rotationEnd: real,
    duration: real,
    delay: real,
    respawnKey: int)

  /** A value `Math.random()` can return. */
  predicate IsDraw(r: real)
  {
    0.0 <= r < 1.0
  }

  /** The seven draws `generateCoins` makes for one coin, in the order it makes them. */
  datatype CoinDraws = CoinDraws(start: real, spin: real, speed: real, y: real, x: real, size: real, delay: real)

  predicate ValidCoinDraws(d: CoinDraws)
  {
    IsDraw(d.start) && IsDraw(d.spin) && IsDraw(d.speed) && IsDraw(d.y)
    && IsDraw(d.x) && IsDraw(d.size) && IsDraw(d.delay)
  }

  const CoinsPerLayer: nat := 16
  /** Foreground coins take 1.875 times the base duration. */
  const ForegroundMultiplier: real := 1.875
  /** Background coins take 2.34375 times the base duration. */
  const BackgroundMultiplier: real := 2.34375

  /** The ranges a freshly generated coin lies in, for duration multiplier `m`. */
  predicate InGeneratedRange(c: Coin, m: real)
  {
    && -30.0 <= c.rotationStart < 30.0
    && 360.0 <= c.rotationEnd - c.rotationStart < 540.0
    && -10.0 <= c.y < 110.0
    && 100.0 <= c.x < 110.0
    && 24.0 <= c.size < 50.0
    && 0.0 <= c.delay < 10.0
    && 10.0 * m <= c.duration < 20.0 * m
  }

  /**
   * Coin `i` of a layer, built from its draws: it carries id `i`, has not been
   * respawned, and with valid draws and a positive multiplier lies in the
   * generated ranges.
   */
  function NewCoin(i: nat, m: real, d: CoinDraws): (c: Coin)
    ensures c.id == i && c.respawnKey == 0
    ensures ValidCoinDraws(d) && m > 0.0 ==> InGeneratedRange(c, m)
  {
    var startRotation := -30.0 + d.start * 60.0;
    var rotationAmount := 360.0 + d.spin * 180.0;
    var baseDuration := 10.0 + d.speed * 10.0;
    var c := Coin(i, 100.0 + d.x * 10.0, -10.0 + d.y * 120.0, 24.0 + d.size * 26.0,
                  startRotation, startRotation + rotationAmount, baseDuration * m, d.delay * 10.0, 0);
    if ValidCoinDraws(d) && m > 0.0 then ScaledDuration(d.speed, m); c else c
  }

  /** A base duration in [10, 20) scaled by a positive multiplier lies in [10m, 20m). */
  lemma ScaledDuration(r: real, m: real)
    requires IsDraw(r) && m > 0.0
    ensures 10.0 * m <= (10.0 + r * 10.0) * m < 20.0 * m
  {
    assert (10.0 + r * 10.0) * m == 10.0 * m + 10.0 * (r * m);
    assert 0.0 <= r * m;
    assert r * m < m;
  }

  /** `generateCoins(count, m)`: `count` coins with ids 0 to count-1 in order, none respawned yet. */
  function GenerateCoins(count: nat, m: real, draws: seq<CoinDraws>): (coins: seq<Coin>)
    requires |draws| == count
    ensures |coins| == count
    ensures forall i :: 0 <= i < count ==> coins[i].id == i && coins[i].respawnKey == 0
  {
    seq(count, i requires 0 <= i < count => NewCoin(i, m, draws[i]))
  }

  /** With valid draws and a positive multiplier, every generated coin lies in the generated ranges. */
  lemma GeneratedCoinsInRange(count: nat, m: real, draws: seq<CoinDraws>)
    requires |draws| == count && m > 0.0
    requires forall i :: 0 <= i < count ==> ValidCoinDraws(draws[i])
    ensures forall c :: c in GenerateCoins(count, m, draws) ==> InGeneratedRange(c, m)
  {
    var coins := GenerateCoins(count, m, draws);
    forall c | c in coins
      ensures InGeneratedRange(c, m)
    {
      var i :| 0 <= i < count && coins[i] == c;
      assert c == NewCoin(i, m, draws[i]);
    }
  }

  /** The background layer takes 25% longer than the foreground one. */
  lemma BackgroundIsSlower()
    ensures BackgroundMultiplier == 1.25 * ForegroundMultiplier
    ensures BackgroundMultiplier > ForegroundMultiplier > 1.0
  {
  }

  /** Every coin sits at the index equal to its id. */
  predicate IdsAreIndices(coins: seq<Coin>)
  {
    forall i :: 0 <= i < |coins| ==> coins[i].id == i
  }

  /** The four draws of a respawn, in the order they are made. */
  datatype RespawnDraws = RespawnDraws(start: real, spin: real, y: real, size: real)

  predicate ValidRespawnDraws(d: RespawnDraws)
  {
    IsDraw(d.start) && IsDraw(d.spin) && IsDraw(d.y) && IsDraw(d.size)
  }

  /** A collected coin comes back at the right edge, at once, as a new element. */
  function RespawnCoin(c: Coin, d: RespawnDraws): (r: Coin)
    ensures r.id == c.id && r.duration == c.duration
    ensures r.x == 95.0 && r.delay == 0.0
    ensures r.respawnKey == c.respawnKey + 1
    ensures ValidRespawnDraws(d) ==>
              -30.0 <= r.rotationStart < 30.0 && 360.0 <= r.rotationEnd - r.rotationStart < 540.0
              && -10.0 <= r.y < 110.0 && 24.0 <= r.size < 50.0
  {
    var startRotation := -30.0 + d.start * 60.0;
    var rotationAmount := 360.0 + d.spin * 180.0;
    c.(y := -10.0 + d.y * 120.0,
       x := 95.0,
       size := 24.0 + d.size * 26.0,
       rotationStart := startRotation,
       rotationEnd := startRotation + rotationAmount,
       delay := 0.0,
       respawnKey := c.respawnKey + 1)
  }

  /** The `setForegroundCoins` update of `onComplete`: only the coin with `id` changes. */
  function Respawn(coins: seq<Coin>, id: int, d: RespawnDraws): (r: seq<Coin>)
    ensures |r| == |coins|
    ensures forall i :: 0 <= i < |coins| && coins[i].id != id ==> r[i] == coins[i]
    ensures forall i :: 0 <= i < |coins| && coins[i].id == id ==> r[i] == RespawnCoin(coins[i], d)
  {
    seq(|coins|, i requires 0 <= i < |coins| => if coins[i].id == id then RespawnCoin(coins[i], d) else coins[i])
  }

  /** Respawning keeps every coin at the index equal to its id. */
  lemma RespawnKeepsIds(coins: seq<Coin>, id: int, d: RespawnDraws)
    requires IdsAreIndices(coins)
    ensures IdsAreIndices(Respawn(coins, id, d))
  {
    var r := Respawn(coins, id, d);
    forall i | 0 <= i < |r|
      ensures r[i].id == i
    {
      if coins[i].id == id {
        assert r[i] == RespawnCoin(coins[i], d);
      }
    }
  }

  /** With ids equal to indices, exactly the coin at index `id` is respawned. */
  lemma RespawnHitsOneCoin(coins: seq<Coin>, id: int, d: RespawnDraws)
    requires IdsAreIndices(coins) && 0 <= id < |coins|
    ensures Respawn(coins, id, d)[id] == RespawnCoin(coins[id], d)
    ensures forall i :: 0 <= i < |coins| && i != id ==> Respawn(coins, id, d)[i] == coins[i]
  {
    var r := Respawn(coins, id, d);
    forall i | 0 <= i < |coins| && i != id
      ensures r[i] == coins[i]
    {
      assert coins[i].id == i;
    }
  }

  /** Respawning an id no coin carries changes nothing. */
  lemma RespawnUnknownId(coins: seq<Coin>, id: int, d: RespawnDraws)
    requires forall c :: c in coins ==> c.id != id
    ensures Respawn(coins, id, d) == coins
  {
    var r := Respawn(coins, id, d);
    forall i | 0 <= i < |coins|
      ensures r[i] == coins[i]
    {
      assert coins[i] in coins;
    }
  }

  /** The React key of a foreground coin, `fg-${id}-${respawnKey}`. */
  datatype ForegroundKey = ForegroundKey(id: int, respawnKey: int)

  /** A respawned coin gets a new key, so React mounts a new element and its animation restarts. */
  lemma RespawnRenewsKey(c: Coin, d: RespawnDraws)
    ensures ForegroundKey(RespawnCoin(c, d).id, RespawnCoin(c, d).respawnKey) != ForegroundKey(c.id, c.respawnKey)
  {
  }

  /** The element's CSS animation: none, or `floatCoin <duration>s linear <delay>s infinite`. */
  datatype Animation = NoAnimation | FloatCoin(duration: real, delay: real)

  datatype CoinStyle = CoinStyle(top: real, left: real, size: real, animation: Animation, opacity: real, zIndex: int)

  /** A foreground coin: paused and raised while it is being collected, floating otherwise. */
  function ForegroundStyle(c: Coin, collecting: set<int>): (s: CoinStyle)
    ensures c.id in collecting <==> s.animation == NoAnimation
    ensures c.id in collecting ==> s.zIndex == 3
    ensures c.id !in collecting ==> s.zIndex == 2 && s.animation == FloatCoin(c.duration, c.delay)
    ensures s.top == c.y && s.left == c.x && s.size == c.size && s.opacity == 1.0
  {
    var isCollecting := c.id in collecting;
    CoinStyle(c.y, c.x, c.size,
              if isCollecting then NoAnimation else FloatCoin(c.duration, c.delay),
              1.0,
              if isCollecting then 3 else 2)
  }

  /** A background coin always floats, half transparent, below the foreground. */
  function BackgroundStyle(c: Coin): (s: CoinStyle)
    ensures s.animation == FloatCoin(c.duration, c.delay)
    ensures s.opacity == 0.5 && s.zIndex == 1
    ensures s.zIndex < ForegroundStyle(c, {}).zIndex
  {
    CoinStyle(c.y, c.x, c.size, FloatCoin(c.duration, c.delay), 0.5, 1)
  }

  /** The component's state: both layers and the ids of the coins being collected. */
  class CoinField {
    var foreground: seq<Coin>
    var background: seq<Coin>
    var collecting: set<int>

    /** The first render: no coins yet, none collecting. */
    constructor ()
      ensures foreground == [] && background == [] && collecting == {}
    {
      foreground := [];
      background := [];
      collecting := {};
    }

    /** The mount effect: sixteen coins per layer, the background slower. */
    method Mount(fgDraws: seq<CoinDraws>, bgDraws: seq<CoinDraws>)
      requires |fgDraws| == CoinsPerLayer && |bgDraws| == CoinsPerLayer
      modifies this`foreground, this`background
      ensures foreground == GenerateCoins(CoinsPerLayer, ForegroundMultiplier, fgDraws)
      ensures background == GenerateCoins(CoinsPerLayer, BackgroundMultiplier, bgDraws)
      ensures IdsAreIndices(foreground) && IdsAreIndices(background)
    {
      foreground := GenerateCoins(CoinsPerLayer, ForegroundMultiplier, fgDraws);
      background := GenerateCoins(CoinsPerLayer, BackgroundMultiplier, bgDraws);
    }

    /** `handleCoinClick`: a coin already being collected ignores the click; otherwise it starts collecting. */
    method Click(id: int) returns (started: bool)
      modifies this`collecting
      ensures started <==> id !in old(collecting)
      ensures collecting == old(collecting) + {id}
      ensures !started ==> collecting == old(collecting)
    {
      if id in collecting {
        return false;
      }
      collecting := collecting + {id};
      started := true;
    }

    /** The timeline's `onComplete`: the coin stops collecting and is respawned; the background stays. */
    method Complete(id: int, d: RespawnDraws)
      modifies this`collecting, this`foreground
      ensures collecting == old(collecting) - {id}
      ensures foreground == Respawn(old(foreground), id, d)
    {
      collecting := collecting - {id};
      foreground := Respawn(foreground, id, d);
    }
  }

  /**
   * A click on a floating coin followed by the end of its collection
   * animation: the coin is no longer collecting, is back at the right edge
   * with a new key, every other coin and the background layer are as they
   * were, and a second click during the animation changed nothing.
   */
  method CollectOnce(field: CoinField, id: int, d: RespawnDraws)
    requires IdsAreIndices(field.foreground) && 0 <= id < |field.foreground|
    requires id !in field.collecting
    modifies field
    ensures field.collecting == old(field.collecting)
    ensures field.background == old(field.background)
    ensures |field.foreground| == old(|field.foreground|) && IdsAreIndices(field.foreground)
    ensures field.foreground[id] == RespawnCoin(old(field.foreground[id]), d)
    ensures field.foreground[id].x == 95.0
    ensures forall i :: 0 <= i < |field.foreground| && i != id ==> field.foreground[i] == old(field.foreground[i])
  {
    var started := field.Click(id);
    assert started && ForegroundStyle(field.foreground[id], field.collecting).zIndex == 3;
    var again := field.Click(id);
    assert !again;
    RespawnHitsOneCoin(field.foreground, id, d);
    RespawnKeepsIds(field.foreground, id, d);
    field.Complete(id, d);
  }
}
