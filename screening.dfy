/** The discrete decisions of the cointegration screen (backend/engine.py,
    `screen_pair`) and of the labels it hands on: which test admitted the
    pair, the filters on z-score and Hurst exponent, the half-life rule, the
    display names of tickers, the trade description and the sector flag.
    The statistics themselves (OLS, Kalman filter, ADF, Johansen, rolling
    moments, Hurst exponent) are inputs. */
module Screening {
  import opened Wrappers
  import opened Rounding

  const MinRows: nat := 50
  const ZScoreLimit: real := 2.0
  const HurstLimit: real := 0.45

  /** The cointegration test(s) that admitted a pair. */
  datatype PassMethod = Cadf | Johansen | Both {
    function Name(): string {
      match this
      case Cadf => "CADF"
      case Johansen => "Johansen"
      case Both => "Both"
    }
  }

  /** The label of a pair, given whether CADF passed, whether Johansen passed,
      and whether the Kalman re-fit from the Johansen hedge ratio succeeded
      (it is only attempted when CADF failed). `None` means the pair is dropped. */
  function MethodLabel(cadfPass: bool, johansenPass: bool, refitOk: bool): (r: Option<PassMethod>)
    ensures r.Some? ==> cadfPass || johansenPass
    ensures r == Some(Both) <==> cadfPass && johansenPass
    ensures r == Some(Cadf) <==> cadfPass && !johansenPass
    ensures r == Some(Johansen) <==> !cadfPass && johansenPass && refitOk
  {
    if !(cadfPass || johansenPass) then None
    else if cadfPass then (if !johansenPass then Some(Cadf) else Some(Both))
    else if refitOk then Some(Johansen)
    else None
  }

  /** The three labels are distinct strings. */
  lemma {:induction false} MethodNamesDistinct(m1: PassMethod, m2: PassMethod)
    requires m1.Name() == m2.Name()
    ensures m1 == m2
  {
    assert m1.Name()[0] == m2.Name()[0];
  }

  /** The half-life in bars: `None` when the regression slope `b` is zero,
      otherwise `Some(-ln 2 / b)`, rounded and floored at one. */
  function HalfLife(decay: Option<real>): (hl: int)
    ensures hl >= 1
    ensures decay.Some? && RoundHalfEven(decay.value) >= 1 ==> hl == RoundHalfEven(decay.value)
    ensures decay.None? || RoundHalfEven(decay.value) < 1 ==> hl == 1
  {
    match decay
    case None => 1
    case Some(q) => var n := RoundHalfEven(q); if n < 1 then 1 else n
  }

  /** The screen's verdict on a pair. `rows` and `returnRows` count the aligned
      prices and returns; `z` is the current z-score rounded to one decimal
      and `hurst` the Hurst exponent, `None` standing for NaN. */
  function ScreenDecision(rows: nat, returnRows: nat, cadfPass: bool, johansenPass: bool,
                          refitOk: bool, z: Option<real>, hurst: Option<real>): (r: Option<PassMethod>)
    ensures r.Some? ==> rows >= MinRows && returnRows >= MinRows
    ensures r.Some? ==> r == MethodLabel(cadfPass, johansenPass, refitOk)
    ensures r.Some? ==> z.Some? && (z.value > ZScoreLimit || z.value < -ZScoreLimit)
    ensures r.Some? ==> hurst.Some? && hurst.value < HurstLimit
    ensures rows >= MinRows && returnRows >= MinRows && MethodLabel(cadfPass, johansenPass, refitOk).Some?
            && z.Some? && (z.value > ZScoreLimit || z.value < -ZScoreLimit)
            && hurst.Some? && hurst.value < HurstLimit
            ==> r.Some?
  {
    if rows < MinRows || returnRows < MinRows then None
    else
      var tag := MethodLabel(cadfPass, johansenPass, refitOk);
      if tag.None? then None
      else if z.None? || (-ZScoreLimit <= z.value <= ZScoreLimit) then None
      else if hurst.None? || hurst.value >= HurstLimit then None
      else tag
  }

  /** Python's `s.replace(pat, "")`: every occurrence of `pat`, found left to
      right without overlap, is removed. */
  function RemoveAll(s: string, pat: string): (r: string)
    requires |pat| > 0
    ensures |r| <= |s|
    decreases |s|
  {
    if |s| < |pat| then s
    else if s[..|pat|] == pat then RemoveAll(s[|pat|..], pat)
    else [s[0]] + RemoveAll(s[1..], pat)
  }

  ghost predicate OccursAt(s: string, pat: string, i: nat)
  {
    i + |pat| <= |s| && s[i..i + |pat|] == pat
  }

  ghost predicate Occurs(s: string, pat: string)
  {
    exists i: nat :: OccursAt(s, pat, i)
  }

  /** Removing a pattern that does not occur changes nothing. */
  lemma {:induction false} RemoveAllAbsent(s: string, pat: string)
    requires |pat| > 0 && !Occurs(s, pat)
    ensures RemoveAll(s, pat) == s
    decreases |s|
  {
    if |s| >= |pat| {
      assert !OccursAt(s, pat, 0);
      var t := s[1..];
      forall i: nat ensures !OccursAt(t, pat, i) {
        assert !OccursAt(s, pat, i + 1);
        if i + |pat| <= |t| {
          var u, v := s[i + 1..i + 1 + |pat|], t[i..i + |pat|];
          forall k | 0 <= k < |pat| ensures u[k] == v[k] {
            assert u[k] == s[i + 1 + k] && v[k] == t[i + k];
          }
          assert u == v;
        }
      }
      RemoveAllAbsent(t, pat);
      assert [s[0]] + t == s;
    }
  }

  /** Removal never introduces a character that was not there. */
  lemma {:induction false} RemoveAllKeepsAbsentChar(s: string, pat: string, c: char)
    requires |pat| > 0 && c !in s
    ensures c !in RemoveAll(s, pat)
    decreases |s|
  {
    if |s| >= |pat| {
      if s[..|pat|] == pat {
        RemoveAllKeepsAbsentChar(s[|pat|..], pat, c);
      } else {
        RemoveAllKeepsAbsentChar(s[1..], pat, c);
      }
    }
  }

  /** The ticker as displayed: every ".NS", then every ".BO" removed. */
  function DisplayName(ticker: string): (d: string)
    ensures |d| <= |ticker|
  {
    RemoveAll(RemoveAll(ticker, ".NS"), ".BO")
  }

  /** A ticker containing neither suffix is displayed unchanged. */
  lemma {:induction false} DisplayNameWithoutSuffixes(ticker: string)
    requires !Occurs(ticker, ".NS") && !Occurs(ticker, ".BO")
    ensures DisplayName(ticker) == ticker
  {
    RemoveAllAbsent(ticker, ".NS");
    RemoveAllAbsent(ticker, ".BO");
  }

  /** A ticker without a dot has no exchange suffix to strip. */
  lemma {:induction false} DisplayNameWithoutDot(ticker: string)
    requires '.' !in ticker
    ensures DisplayName(ticker) == ticker
  {
    NoDotNoOccurrence(ticker, ".NS");
    RemoveAllAbsent(ticker, ".NS");
    NoDotNoOccurrence(ticker, ".BO");
    RemoveAllAbsent(ticker, ".BO");
  }

  lemma NoDotNoOccurrence(s: string, pat: string)
    requires '.' !in s && |pat| > 0 && pat[0] == '.'
    ensures !Occurs(s, pat)
  {
    forall i: nat | i + |pat| <= |s| ensures !OccursAt(s, pat, i) {
      assert s[i] != '.';
    }
  }

  /** Stripping a suffix that ends a dot-free base. */
  lemma {:induction false} RemoveTrailingSuffix(base: string, suffix: string)
    requires '.' !in base && |suffix| > 0 && suffix[0] == '.'
    ensures RemoveAll(base + suffix, suffix) == base
    decreases |base|
  {
    var s := base + suffix;
    if base == [] {
      assert s[..|suffix|] == suffix && s[|suffix|..] == [];
    } else {
      assert s[..|suffix|] != suffix by { assert s[0] == base[0] != '.'; }
      assert s[1..] == base[1..] + suffix;
      RemoveTrailingSuffix(base[1..], suffix);
      assert [s[0]] + base[1..] == base;
    }
  }

  /** An NSE or BSE listing is displayed under its bare symbol. */
  lemma {:induction false} DisplayNameStripsExchange(base: string)
    requires '.' !in base
    ensures DisplayName(base + ".NS") == base
    ensures DisplayName(base + ".BO") == base
  {
    RemoveTrailingSuffix(base, ".NS");
    NoDotNoOccurrence(base, ".BO");
    RemoveAllAbsent(base, ".BO");
    // ".BO" is not removed by the first pass, and ".NS" does not occur in it
    NoNsInBoSuffixed(base);
    RemoveAllAbsent(base + ".BO", ".NS");
    RemoveTrailingSuffix(base, ".BO");
  }

  lemma NoNsInBoSuffixed(base: string)
    requires '.' !in base
    ensures !Occurs(base + ".BO", ".NS")
  {
    var s := base + ".BO";
    forall i: nat | i + 3 <= |s| ensures !OccursAt(s, ".NS", i) {
      if i < |base| {
        assert s[i] == base[i] != '.';
      } else {
        assert s[i + 1] == 'B';
      }
    }
  }

  /** The pair label, "X/Y" with both display names. */
  function PairLabel(x: string, y: string): (tag: string)
    ensures |tag| == |DisplayName(x)| + 1 + |DisplayName(y)|
  {
    DisplayName(x) + "/" + DisplayName(y)
  }

  /** For tickers without a slash the label determines both display names. */
  lemma {:induction false} PairLabelDeterminesNames(x: string, y: string, x': string, y': string)
    requires '/' !in x && '/' !in y && '/' !in x' && '/' !in y'
    requires PairLabel(x, y) == PairLabel(x', y')
    ensures DisplayName(x) == DisplayName(x') && DisplayName(y) == DisplayName(y')
  {
    var dx, dy, dx', dy' := DisplayName(x), DisplayName(y), DisplayName(x'), DisplayName(y');
    RemoveAllKeepsAbsentChar(x, ".NS", '/');
    RemoveAllKeepsAbsentChar(RemoveAll(x, ".NS"), ".BO", '/');
    RemoveAllKeepsAbsentChar(x', ".NS", '/');
    RemoveAllKeepsAbsentChar(RemoveAll(x', ".NS"), ".BO", '/');
    var tag := PairLabel(x, y);
    SlashAfter(dx, "/" + dy);
    SlashAfter(dx', "/" + dy');
    assert tag == dx + ("/" + dy) == dx' + ("/" + dy');
    assert |dx| == |dx'|;
    assert dx == tag[..|dx|] == dx';
    assert dy == tag[|dx| + 1..] == dy';
  }

  /** The position of the first `c` in `s`, or `|s|` when there is none. */
  function IndexOf(s: string, c: char): (i: nat)
    ensures i <= |s|
  {
    if s == [] then 0 else if s[0] == c then 0 else 1 + IndexOf(s[1..], c)
  }

  lemma {:induction false} SlashAfter(a: string, rest: string)
    requires '/' !in a && |rest| > 0 && rest[0] == '/'
    ensures IndexOf(a + rest, '/') == |a|
  {
    if a != [] {
      assert (a + rest)[1..] == a[1..] + rest;
      SlashAfter(a[1..], rest);
    }
  }

  /** The side taken on a leg of the spread trade. */
  datatype Side = Buy | Sell {
    function Name(): string {
      match this
      case Buy => "Buy"
      case Sell => "Sell"
    }
    function Opposite(): Side {
      match this
      case Buy => Sell
      case Sell => Buy
    }
  }

  /** The side taken on `x`: a spread above its mean is sold. */
  function XSide(z: real): (s: Side)
    ensures s == Sell <==> z > 0.0
  {
    if z > 0.0 then Sell else Buy
  }

  /** "<Side> <qty> of <name> (<price>, <industry>)"; numbers arrive already formatted. */
  function Leg(side: Side, qty: string, name: string, price: string, industry: string): string
  {
    side.Name() + " " + qty + " of " + name + " (" + price + ", " + industry + ")"
  }

  /** The trade description: `qty` of `x` on the side the z-score calls for,
      one unit of `y` on the other. */
  function Combo(z: real, qty: string, xName: string, px: string, ix: string,
                 yName: string, py: string, iy: string): (c: string)
    ensures |c| >= 4 && (c[..4] == "Sell" <==> z > 0.0)
    ensures var xLeg := Leg(if z > 0.0 then Sell else Buy, qty, xName, px, ix);
      && |xLeg| + 5 <= |c|
      && c[..|xLeg| + 5] == xLeg + "  &  "
      && c[|xLeg| + 5..] == Leg(if z > 0.0 then Buy else Sell, "1", yName, py, iy)
  {
    var c := TradeText(XSide(z), qty, xName, px, ix, yName, py, iy);
    assert if z > 0.0 then c[..4] == "Sell" else c[0] == 'B';
    c
  }

  /** `qty` of `x` on `xSide` and one unit of `y` on the other side. */
  function TradeText(xSide: Side, qty: string, xName: string, px: string, ix: string,
                     yName: string, py: string, iy: string): string
  {
    Leg(xSide, qty, xName, px, ix) + "  &  " + Leg(xSide.Opposite(), "1", yName, py, iy)
  }

  /** The side on `x` that shorts the spread `y - qty * x` when it is above its
      mean: `x` is bought and `y` sold when z > 0. */
  function IntendedXSide(z: real): (s: Side)
    ensures s == Buy <==> z > 0.0
    ensures s == XSide(z).Opposite()
  {
    if z > 0.0 then Buy else Sell
  }

  /** The trade description with the legs on the sides of `IntendedXSide`. */
  function IntendedCombo(z: real, qty: string, xName: string, px: string, ix: string,
                         yName: string, py: string, iy: string): (c: string)
    ensures |c| >= 3 && (c[..3] == "Buy" <==> z > 0.0)
    ensures var xLeg := Leg(if z > 0.0 then Buy else Sell, qty, xName, px, ix);
      && |xLeg| + 5 <= |c|
      && c[..|xLeg| + 5] == xLeg + "  &  "
      && c[|xLeg| + 5..] == Leg(if z > 0.0 then Sell else Buy, "1", yName, py, iy)
  {
    var c := TradeText(IntendedXSide(z), qty, xName, px, ix, yName, py, iy);
    assert if z > 0.0 then c[..3] == "Buy" else c[0] == 'S';
    c
  }

  /** The industry recorded for a ticker, "Unknown" when none was fetched. */
  function IndustryOf(industries: map<string, string>, ticker: string): (industry: string)
    ensures industry == "Unknown" || industry in industries.Values
    ensures ticker !in industries ==> industry == "Unknown"
  {
    if ticker in industries then industries[ticker] else "Unknown"
  }

  /** "Yes" when both legs share a known industry. */
  function SameSector(industryX: string, industryY: string): (flag: string)
    ensures flag == "Yes" || flag == "No"
  {
    if industryX != "Unknown" && industryX == industryY then "Yes" else "No"
  }

  /** The sector flag is "Yes" exactly when both legs have the same known
      industry; it does not depend on the order of the legs, and a pair with
      a leg of unknown industry is never in the same sector. */
  lemma {:induction false} SameSectorSymmetric(industries: map<string, string>, x: string, y: string)
    ensures SameSector(IndustryOf(industries, x), IndustryOf(industries, y))
         == SameSector(IndustryOf(industries, y), IndustryOf(industries, x))
    ensures x !in industries || y !in industries
            ==> SameSector(IndustryOf(industries, x), IndustryOf(industries, y)) == "No"
    ensures SameSector(IndustryOf(industries, x), IndustryOf(industries, y)) == "Yes"
            <==> x in industries && y in industries && industries[x] == industries[y]
                 && industries[x] != "Unknown"
  {
    var ix, iy := IndustryOf(industries, x), IndustryOf(industries, y);
    if ix == "Unknown" || iy == "Unknown" {
      assert SameSector(ix, iy) == "No";
    }
  }
}
