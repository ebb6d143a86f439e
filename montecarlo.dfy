/** The counting side of the ensemble Monte Carlo (backend/engine.py,
    `run_ensemble_mc`): the block length and simulation budget, the trade
    sign, and the count of simulated paths that show a profit within one
    half-life. Parameter draws and noise come in as inputs. */
module MonteCarlo {
  import opened Rounding
  import opened Screening
  import opened Bootstrap

  const EnsembleM: int := 80
  const SimsPerDraw: int := 2000
  const MaxTotalSims: int := 400000
  const BlockLenFactor: real := 0.25
  const PhiBound: real := 0.999

  /** Bootstrap block length for half-life `hl`: a quarter of the half-life,
      at least one, rounded half to even. */
  function BlockLen(hl: int): (len: int)
    ensures len >= 1
  {
    var quarter := hl as real * BlockLenFactor;
    var n := RoundHalfEven(if quarter < 1.0 then 1.0 else quarter);
    if n < 1 then 1 else n
  }

  /** A block never outgrows the horizon it fills, and it is the nearest
      integer to a quarter of the half-life once that quarter reaches one. */
  lemma {:induction false} BlockLenBounds(hl: int)
    requires hl >= 1
    ensures 1 <= BlockLen(hl) <= hl
    ensures hl >= 4 ==> -2 <= 4 * BlockLen(hl) - hl <= 2
  {
    var quarter := hl as real * BlockLenFactor;
    if quarter >= 1.0 {
      var n := RoundHalfEven(quarter);
      assert quarter - 0.5 <= n as real <= quarter + 0.5;
      assert 4.0 * n as real <= hl as real + 2.0;
      assert (4 * n) as real <= (hl + 2) as real;
    } else {
      RoundHalfEvenOfInteger(1);
    }
  }

  /** Half-lives of at most four bars give blocks of one bar: a quarter of
      them is raised to one before rounding. */
  lemma {:induction false} BlockLenSmall(hl: int)
    requires hl <= 4
    ensures BlockLen(hl) == 1
  {
    RoundHalfEvenOfInteger(1);
  }

  /** A half-life of 4k + 2 bars puts a quarter of it halfway between k and
      k + 1, and the block length goes to the even one of the two. */
  lemma {:induction false} BlockLenTiesToEven(hl: int)
    requires hl >= 4 && hl % 4 == 2
    ensures BlockLen(hl) % 2 == 0
    ensures 4 * BlockLen(hl) == hl - 2 || 4 * BlockLen(hl) == hl + 2
  {
    var k := hl / 4;
    assert hl == 4 * k + 2;
    var quarter := hl as real * BlockLenFactor;
    assert quarter == k as real + 0.5;
    var n := RoundHalfEven(quarter);
    assert k as real <= n as real <= k as real + 1.0;
    assert n == k || n == k + 1;
  }

  /** Simulations per parameter draw: the configured count, unless the whole
      ensemble would exceed the cap, in which case the cap is shared out by
      floor division among the draws (at least one each). The divisor is
      positive, where Python's `//` and Dafny's `/` agree. */
  function SimsPerLocal(ensembleM: int, simsPerDraw: int, maxTotal: int): (sims: int)
    ensures ensembleM * simsPerDraw <= maxTotal ==> sims == simsPerDraw
    ensures ensembleM * simsPerDraw > maxTotal ==> sims >= 1
    ensures ensembleM * simsPerDraw > maxTotal && ensembleM >= 1 && maxTotal >= ensembleM
            ==> ensembleM * sims <= maxTotal < ensembleM * (sims + 1)
  {
    var total := ensembleM * simsPerDraw;
    if total > maxTotal then
      var m := if ensembleM < 1 then 1 else ensembleM;
      var share := maxTotal / m;
      if share < 1 then 1 else share
    else simsPerDraw
  }

  /** With the engine's constants the cap is not reached: 80 draws of 2000
      simulations each, 160000 in all. */
  lemma EngineSimsUnderCap()
    ensures SimsPerLocal(EnsembleM, SimsPerDraw, MaxTotalSims) == 2000
    ensures EnsembleM * SimsPerLocal(EnsembleM, SimsPerDraw, MaxTotalSims) <= MaxTotalSims
  {
  }

  /** Sampled AR(1) slopes are clipped to [-0.999, 0.999]. */
  function ClampPhi(phi: real): (p: real)
    ensures -PhiBound <= p <= PhiBound
    ensures -PhiBound <= phi <= PhiBound ==> p == phi
  {
    var upper := if phi < PhiBound then phi else PhiBound;
    if upper > -PhiBound then upper else -PhiBound
  }

  /** -1 (short the spread) when the spread is above its mean, else +1. */
  function TradeSign(z: real): (sign: int)
    ensures sign == -1 || sign == 1
  {
    if z > 0.0 then -1 else 1
  }

  /** The sign used in the simulation and the side on `x` written in the
      trade description follow the same test, z > 0: the sign is -1 exactly
      when `x` is sold, and a move of the spread then scores as a win exactly
      when it is a fall. */
  lemma {:induction false} TradeSignMatchesCombo(z: real, delta: real)
    ensures TradeSign(z) == -1 <==> XSide(z) == Sell
    ensures (TradeSign(z) as real * delta > 0.0)
            <==> (XSide(z) == Sell && delta < 0.0) || (XSide(z) == Buy && delta > 0.0)
  {
    if z > 0.0 {
      assert TradeSign(z) as real * delta == -delta;
    } else {
      assert TradeSign(z) as real * delta == delta;
    }
  }

  /** Some step within the first `hl` shows a positive profit for `sign`. */
  ghost predicate ProfitableWithin(path: seq<real>, r0: real, sign: int, hl: nat)
    requires hl < |path|
  {
    exists t :: 1 <= t <= hl && sign as real * (path[t] - r0) > 0.0
  }

  /** The number of noise sequences whose simulated path is profitable. */
  ghost function Wins(a: real, phi: real, r0: real, sign: int, hl: nat, noise: seq<seq<real>>): (w: nat)
    requires forall i :: 0 <= i < |noise| ==> |noise[i]| == hl
    ensures w <= |noise|
  {
    if noise == [] then 0
    else
      var last := noise[|noise| - 1];
      Wins(a, phi, r0, sign, hl, noise[..|noise| - 1])
        + (if ProfitableWithin(Ar1Path(a, phi, r0, last), r0, sign, hl) then 1 else 0)
  }

  /** The inner scan of one path: stops at the first profitable step. */
  method IsWin(path: seq<real>, r0: real, sign: int, hl: nat) returns (win: bool)
    requires hl < |path|
    ensures win == ProfitableWithin(path, r0, sign, hl)
  {
    win := false;
    for t := 1 to hl + 1
      invariant !win
      invariant forall s :: 1 <= s < t ==> sign as real * (path[s] - r0) <= 0.0
    {
      var delta := path[t] - r0;
      var pnl := sign as real * delta;
      if pnl > 0.0 {
        win := true;
        break;
      }
    }
  }

  /** The simulations of one parameter draw: each noise sequence drives an
      AR(1) path from `r0`, and a path that is profitable within `hl` steps
      counts one win. */
  method CountWins(a: real, phi: real, sigma: real, r0: real, sign: int, hl: nat,
                   noise: seq<seq<real>>) returns (wins: nat)
    requires forall i :: 0 <= i < |noise| ==> |noise[i]| == hl
    ensures wins == Wins(a, phi, r0, sign, hl, noise)
    ensures wins <= |noise|
  {
    wins := 0;
    for si := 0 to |noise|
      invariant wins == Wins(a, phi, r0, sign, hl, noise[..si])
    {
      var path := SimulatePathAr1(a, phi, sigma, r0, noise[si]);
      var win := IsWin(path, r0, sign, hl);
      if win {
        wins := wins + 1;
      }
      assert noise[..si + 1][..si] == noise[..si];
    }
    assert noise[..|noise|] == noise;
  }

  /** One parameter draw of the ensemble: intercept, slope (before clipping),
      innovation scale and the noise of each of its simulations. */
  datatype Draw = Draw(a: real, phi: real, sigma: real, noise: seq<seq<real>>)

  ghost predicate WellShaped(draws: seq<Draw>, sims: int, hl: nat)
  {
    forall m :: 0 <= m < |draws| ==>
      |draws[m].noise| == sims && forall i :: 0 <= i < sims ==> |draws[m].noise[i]| == hl
  }

  lemma FractionOfWins(w: nat, sims: int)
    requires 0 < sims && w <= sims
    ensures 0.0 <= w as real / sims as real <= 1.0
  {
    assert w as real / sims as real <= sims as real / sims as real;
  }

  /** The fraction of winning simulations of one draw. */
  ghost function WinRate(d: Draw, r0: real, z: real, hl: nat, sims: int): (p: real)
    requires |d.noise| == sims && forall i :: 0 <= i < sims ==> |d.noise[i]| == hl
    ensures 0.0 <= p <= 1.0
  {
    if sims > 0 then
      var w := Wins(d.a, ClampPhi(d.phi), r0, TradeSign(z), hl, d.noise);
      FractionOfWins(w, sims);
      w as real / sims as real
    else 0.0
  }

  /** The ensemble loop: one win rate per parameter draw, in draw order. */
  method EnsembleWinRates(r0: real, z: real, hl: nat, sims: int, draws: seq<Draw>)
    returns (pDraws: seq<real>)
    requires WellShaped(draws, sims, hl)
    ensures |pDraws| == |draws|
    ensures forall m :: 0 <= m < |draws| ==> pDraws[m] == WinRate(draws[m], r0, z, hl, sims)
    ensures forall m :: 0 <= m < |pDraws| ==> 0.0 <= pDraws[m] <= 1.0
  {
    pDraws := [];
    for m := 0 to |draws|
      invariant |pDraws| == m
      invariant forall j :: 0 <= j < m ==> pDraws[j] == WinRate(draws[j], r0, z, hl, sims)
    {
      var d := draws[m];
      var phi := ClampPhi(d.phi);
      var sign := TradeSign(z);
      var wins := CountWins(d.a, phi, d.sigma, r0, sign, hl, d.noise);
      var p := if sims > 0 then wins as real / sims as real else 0.0;
      pDraws := pDraws + [p];
    }
  }

  /** Profit of `qty` units of one leg whose price moves by `move`. */
  function LegPnl(side: Side, qty: real, move: real): real
  {
    match side
    case Buy => qty * move
    case Sell => -(qty * move)
  }

  /** Profit of `qty` units of `x` on `xSide` and one unit of `y` on the other
      side, when `x` moves by `dx` and `y` by `dy`. */
  function TradePnl(xSide: Side, qty: real, dx: real, dy: real): real
  {
    LegPnl(xSide, qty, dx) + LegPnl(xSide.Opposite(), 1.0, dy)
  }

  /** As written, the trade described for a pair with a non-negative hedge
      ratio `beta` (quantity `|beta|` of `x`) gains exactly what the simulation
      scores as a loss: the spread is `y - beta * x`, the described trade is
      long it when z > 0, and the simulation's sign is -1 then. */
  lemma {:induction false} ComboOpposesSimulation(z: real, beta: real, dx: real, dy: real)
    requires beta >= 0.0
    ensures TradePnl(XSide(z), beta, dx, dy) == -(TradeSign(z) as real * (dy - beta * dx))
    ensures TradeSign(z) as real * (dy - beta * dx) > 0.0 ==> TradePnl(XSide(z), beta, dx, dy) < 0.0
  {
    if z > 0.0 {
      assert TradePnl(XSide(z), beta, dx, dy) == -(beta * dx) + dy;
    } else {
      assert TradePnl(XSide(z), beta, dx, dy) == beta * dx - dy;
    }
  }

  /** The input that shows it: z = 2.5 and hedge ratio 1, `x` flat and `y`
      down by one. The spread falls by one, which the simulation counts as a
      win, while "Sell 1 of x & Buy 1 of y" loses one. */
  lemma ComboLosesOnSimulatedWin()
    ensures TradeSign(2.5) as real * (-1.0 - 1.0 * 0.0) > 0.0
    ensures Combo(2.5, "1.0", "X", "10.0", "Unknown", "Y", "10.0", "Unknown")[..4] == "Sell"
    ensures TradePnl(XSide(2.5), 1.0, 0.0, -1.0) == -1.0
  {
  }

  /** With the intended sides the described trade gains exactly what the
      simulation scores: it is short the spread when z > 0 and long otherwise. */
  lemma {:induction false} IntendedComboMatchesSimulation(z: real, beta: real, dx: real, dy: real)
    requires beta >= 0.0
    ensures TradePnl(IntendedXSide(z), beta, dx, dy) == TradeSign(z) as real * (dy - beta * dx)
    ensures TradeSign(z) as real * (dy - beta * dx) > 0.0 <==> TradePnl(IntendedXSide(z), beta, dx, dy) > 0.0
  {
    if z > 0.0 {
      assert TradePnl(IntendedXSide(z), beta, dx, dy) == beta * dx - dy;
    } else {
      assert TradePnl(IntendedXSide(z), beta, dx, dy) == -(beta * dx) + dy;
    }
  }
}
