/** Residual resampling and path simulation for the ensemble Monte Carlo
    (backend/engine.py, `_block_bootstrap_errors` and `_simulate_path_ar1`).
    The random generator is replaced by the sequence of values it would draw. */
module Bootstrap {

  /** The block drawn at `start`: `len` residuals from `start`, wrapping once
      past the end of `resid` into its beginning. */
  function Block(resid: seq<real>, start: nat, len: nat): (b: seq<real>)
    requires start < |resid| && 1 <= len
    ensures 1 <= |b|
  {
    var n, end := |resid|, start + len;
    if end <= n then resid[start..end] else resid[start..n] + resid[..end % n]
  }

  /** All residuals are legal start indices. */
  ghost predicate ValidStarts(resid: seq<real>, starts: seq<nat>)
  {
    forall i :: 0 <= i < |starts| ==> starts[i] < |resid|
  }

  /** The concatenation of the blocks drawn at `starts`, in draw order. */
  function Blocks(resid: seq<real>, len: nat, starts: seq<nat>): (s: seq<real>)
    requires 1 <= len && ValidStarts(resid, starts)
    ensures |s| >= |starts|
  {
    if starts == [] then []
    else Blocks(resid, len, starts[..|starts| - 1]) + Block(resid, starts[|starts| - 1], len)
  }

  lemma ModBelow(x: nat, n: nat)
    requires x < n
    ensures x % n == x
  {
  }

  lemma ModOnce(x: nat, n: nat)
    requires 0 < n <= x < 2 * n
    ensures x % n == x - n
  {
    assert x == n + (x - n);
  }

  /** A block no longer than the residual series is the circular window of
      `len` residuals starting at `start`. */
  lemma {:induction false} BlockIsCircularWindow(resid: seq<real>, start: nat, len: nat)
    requires start < |resid| && 1 <= len <= |resid|
    ensures |Block(resid, start, len)| == len
    ensures forall k :: 0 <= k < len ==> Block(resid, start, len)[k] == resid[(start + k) % |resid|]
  {
    var n, b := |resid|, Block(resid, start, len);
    if start + len <= n {
      forall k | 0 <= k < len ensures b[k] == resid[(start + k) % n] {
        ModBelow(start + k, n);
      }
    } else {
      ModOnce(start + len, n);
      assert |b| == len;
      forall k | 0 <= k < len ensures b[k] == resid[(start + k) % n] {
        if start + k < n {
          ModBelow(start + k, n);
        } else {
          ModOnce(start + k, n);
        }
      }
    }
  }

  /** The length of a block: `len` when it fits before the end, otherwise the
      tail from `start` plus a single wrap of `(start + len) % n` residuals. */
  lemma {:induction false} BlockLength(resid: seq<real>, start: nat, len: nat)
    requires start < |resid| && 1 <= len
    ensures |Block(resid, start, len)|
            == if start + len <= |resid| then len else |resid| - start + (start + len) % |resid|
  {
  }

  lemma ModBelowExcess(x: nat, n: nat)
    requires 0 < n && 2 * n <= x
    ensures x % n < x - n
  {
  }

  /** The block is computed with a single wrap, so it comes out shorter than
      `len` exactly when `start + len` reaches twice the number of residuals;
      with three residuals, a block of six drawn at 0 holds only the three. */
  lemma {:induction false} BlockShorterIff(resid: seq<real>, start: nat, len: nat)
    requires start < |resid| && 1 <= len
    ensures |Block(resid, start, len)| <= len
    ensures |Block(resid, start, len)| < len <==> start + len >= 2 * |resid|
  {
    var n, end := |resid|, start + len;
    BlockLength(resid, start, len);
    if end <= n {
    } else if end < 2 * n {
      ModOnce(end, n);
    } else {
      ModBelowExcess(end, n);
    }
  }

  lemma BlockFromResiduals(resid: seq<real>, start: nat, len: nat)
    requires start < |resid| && 1 <= len
    ensures forall k :: 0 <= k < |Block(resid, start, len)| ==> Block(resid, start, len)[k] in resid
  {
  }

  /** Every resampled value is one of the residuals. */
  lemma {:induction false} BlocksFromResiduals(resid: seq<real>, len: nat, starts: seq<nat>)
    requires 1 <= len && ValidStarts(resid, starts)
    ensures forall k :: 0 <= k < |Blocks(resid, len, starts)| ==> Blocks(resid, len, starts)[k] in resid
  {
    if starts != [] {
      BlocksFromResiduals(resid, len, starts[..|starts| - 1]);
      BlockFromResiduals(resid, starts[|starts| - 1], len);
    }
  }

  lemma PrefixFromResiduals(resid: seq<real>, len: nat, starts: seq<nat>, samples: seq<real>)
    requires 1 <= len && ValidStarts(resid, starts)
    requires samples <= Blocks(resid, len, starts)
    ensures forall k :: 0 <= k < |samples| ==> samples[k] in resid
  {
    BlocksFromResiduals(resid, len, starts);
  }

  /** Drawing one more start index appends its block. */
  lemma BlocksSnoc(resid: seq<real>, len: nat, starts: seq<nat>, i: nat)
    requires 1 <= len && ValidStarts(resid, starts) && i < |starts|
    ensures Blocks(resid, len, starts[..i + 1]) == Blocks(resid, len, starts[..i]) + Block(resid, starts[i], len)
  {
    assert starts[..i + 1][..i] == starts[..i];
  }

  /** A longer run of draws extends the samples of a shorter one. */
  lemma {:induction false} BlocksPrefix(resid: seq<real>, len: nat, starts: seq<nat>, i: nat)
    requires 1 <= len && ValidStarts(resid, starts) && i <= |starts|
    ensures Blocks(resid, len, starts[..i]) <= Blocks(resid, len, starts)
    decreases |starts| - i
  {
    if i < |starts| {
      BlocksPrefix(resid, len, starts[..|starts| - 1], i);
      assert starts[..|starts| - 1][..i] == starts[..i];
    } else {
      assert starts[..i] == starts;
    }
  }

  /** `_block_bootstrap_errors`: draws blocks until `horizon` residuals are
      collected and keeps the first `horizon`. `starts` are the generator's
      draws of a start index; `normals` are the standard normal draws it
      returns instead when there are no residuals. `used` is the number of
      start indices drawn. */
  method BlockBootstrapErrors(resid: seq<real>, horizon: int, starts: seq<nat>, blockLen: int,
                              normals: seq<real>)
    returns (samples: seq<real>, used: nat)
    requires ValidStarts(resid, starts)
    requires |resid| > 0 ==> horizon <= |starts|
    requires |resid| == 0 ==> 0 <= horizon <= |normals|
    ensures |samples| == (if horizon > 0 then horizon else 0)
    ensures |resid| == 0 ==> samples == normals[..horizon] && used == 0
    ensures |resid| > 0 ==> forall k :: 0 <= k < |samples| ==> samples[k] in resid
    ensures |resid| > 0 ==>
      var len := if blockLen < 1 then 1 else blockLen;
      && used <= |starts|
      && samples <= Blocks(resid, len, starts[..used])
      // the generator is asked for exactly as many blocks as the horizon needs
      && (used == 0 || |Blocks(resid, len, starts[..used - 1])| < horizon)
  {
    var n := |resid|;
    if n == 0 {
      return normals[..horizon], 0;
    }
    var len := if blockLen < 1 then 1 else blockLen;
    var drawn: seq<real> := [];
    used := 0;
    while |drawn| < horizon
      invariant used <= |drawn| && used <= |starts|
      invariant drawn == Blocks(resid, len, starts[..used])
      invariant used == 0 || |Blocks(resid, len, starts[..used - 1])| < horizon
      decreases horizon - |drawn|
    {
      var start := starts[used];
      var block := Block(resid, start, len);
      BlocksSnoc(resid, len, starts, used);
      drawn := drawn + block;
      used := used + 1;
    }
    samples := if horizon > 0 then drawn[..horizon] else [];
    assert samples <= drawn;
    PrefixFromResiduals(resid, len, starts[..used], samples);
  }

  /** One step of the AR(1) recurrence. */
  function Ar1Next(a: real, phi: real, prev: real, e: real): real
  {
    a + phi * prev + e
  }

  /** The AR(1) path driven by the noise sequence `eps`, started at `r0`. */
  function Ar1Path(a: real, phi: real, r0: real, eps: seq<real>): (path: seq<real>)
    ensures |path| == |eps| + 1 && path[0] == r0
  {
    if |eps| == 0 then [r0]
    else
      Ar1Path(a, phi, r0, eps[..|eps| - 1])
        + [Ar1Next(a, phi, Ar1Path(a, phi, r0, eps[..|eps| - 1])[|eps| - 1], eps[|eps| - 1])]
  }

  /** Each step of the path is the AR(1) recurrence applied to the previous point. */
  lemma {:induction false} Ar1PathStep(a: real, phi: real, r0: real, eps: seq<real>, t: nat)
    requires 1 <= t <= |eps|
    ensures Ar1Path(a, phi, r0, eps)[t] == a + phi * Ar1Path(a, phi, r0, eps)[t - 1] + eps[t - 1]
    decreases |eps|
  {
    if t < |eps| {
      var shorter := eps[..|eps| - 1];
      Ar1PathStep(a, phi, r0, shorter, t);
      assert shorter[t - 1] == eps[t - 1];
    }
  }

  /** Taking one more noise value appends one recurrence step to the path. */
  lemma Ar1PathSnoc(a: real, phi: real, r0: real, eps: seq<real>, t: nat)
    requires 1 <= t <= |eps|
    ensures Ar1Path(a, phi, r0, eps[..t])
         == Ar1Path(a, phi, r0, eps[..t - 1])
            + [Ar1Next(a, phi, Ar1Path(a, phi, r0, eps[..t - 1])[t - 1], eps[t - 1])]
  {
    assert eps[..t][..t - 1] == eps[..t - 1];
  }

  /** The path up to step `t` depends only on the first `t` noise values. */
  lemma {:induction false} Ar1PathCausal(a: real, phi: real, r0: real, eps: seq<real>, t: nat)
    requires t <= |eps|
    ensures Ar1Path(a, phi, r0, eps[..t]) == Ar1Path(a, phi, r0, eps)[..t + 1]
    decreases |eps|
  {
    if t < |eps| {
      var shorter := eps[..|eps| - 1];
      Ar1PathCausal(a, phi, r0, shorter, t);
      assert shorter[..t] == eps[..t];
    } else {
      assert eps[..t] == eps;
    }
  }

  /** Without noise, a path started at the process mean `a / (1 - phi)` stays there. */
  lemma {:induction false} Ar1PathAtMeanIsConstant(a: real, phi: real, r0: real, eps: seq<real>)
    requires r0 == a + phi * r0
    requires forall k :: 0 <= k < |eps| ==> eps[k] == 0.0
    ensures forall t :: 0 <= t < |Ar1Path(a, phi, r0, eps)| ==> Ar1Path(a, phi, r0, eps)[t] == r0
    decreases |eps|
  {
    if eps != [] {
      Ar1PathAtMeanIsConstant(a, phi, r0, eps[..|eps| - 1]);
    }
  }

  /** `_simulate_path_ar1`: fills a buffer of `|eps| + 1` points, the first
      `r0` and each later one `a + phi * previous + noise`. `sigma` is accepted
      and ignored, as in the source. */
  method SimulatePathAr1(a: real, phi: real, sigma: real, r0: real, eps: seq<real>)
    returns (path: seq<real>)
    ensures |path| == |eps| + 1 && path[0] == r0
    ensures forall t :: 1 <= t <= |eps| ==> path[t] == a + phi * path[t - 1] + eps[t - 1]
    ensures path == Ar1Path(a, phi, r0, eps)
  {
    var horizon := |eps|;
    var buf := new real[horizon + 1];
    buf[0] := r0;
    for t := 1 to horizon + 1
      invariant buf[..t] == Ar1Path(a, phi, r0, eps[..t - 1])
    {
      ghost var before := buf[..t];
      Ar1PathSnoc(a, phi, r0, eps, t);
      buf[t] := Ar1Next(a, phi, buf[t - 1], eps[t - 1]);
      assert buf[..t + 1] == before + [buf[t]];
    }
    assert eps[..horizon] == eps;
    path := buf[..];
    forall t | 1 <= t <= |eps| ensures path[t] == a + phi * path[t - 1] + eps[t - 1] {
      Ar1PathStep(a, phi, r0, eps, t);
    }
  }
}
