/** The engine's configuration and its scan pipeline (backend/engine.py,
    `OmniSpreadEngine.__init__`, the choice of download window in
    `fetch_data`, and `run_scan`). Screening and simulation are oracles: the
    screen of a pair gives a screened pair, gives nothing, or raises; the
    simulation of a pair gives a result or raises. The download itself is
    not part of this module; it supplies the surviving columns. */
module Scan {
  import opened Wrappers
  import opened Models

  /** The settings an engine is constructed with, with the constructor's defaults. */
  datatype EngineConfig = EngineConfig(
    tickers: seq<string>,
    startDate: Option<string> := None,
    endDate: Option<string> := None,
    period: string := "3y",
    interval: string := "1d",
    topN: int := 50)

  /** What the price download asks for. */
  datatype Window = DateRange(start: string, end: string) | Lookback(period: string)

  /** Python truthiness of an optional string: present and non-empty. */
  predicate Given(s: Option<string>)
  {
    s.Some? && s.value != ""
  }

  /** An explicit date range is used only when both ends are given. */
  function DownloadWindow(cfg: EngineConfig): (w: Window)
    ensures w.DateRange? <==> Given(cfg.startDate) && Given(cfg.endDate)
    ensures w.Lookback? ==> w.period == cfg.period
  {
    if Given(cfg.startDate) && Given(cfg.endDate) then DateRange(cfg.startDate.value, cfg.endDate.value)
    else Lookback(cfg.period)
  }

  /** The tickers kept after cleaning: those among `columns`, in the order
      they were requested (duplicates included, as the comprehension keeps them). */
  function ActiveTickers(tickers: seq<string>, columns: set<string>): (active: seq<string>)
    ensures |active| <= |tickers|
  {
    if tickers == [] then []
    else
      ActiveTickers(tickers[..|tickers| - 1], columns)
        + (if tickers[|tickers| - 1] in columns then [tickers[|tickers| - 1]] else [])
  }

  /** A ticker is active exactly when it was requested and survived cleaning. */
  lemma {:induction false} ActiveTickersMembers(tickers: seq<string>, columns: set<string>, t: string)
    ensures t in ActiveTickers(tickers, columns) <==> t in tickers && t in columns
  {
    if tickers != [] {
      var init := tickers[..|tickers| - 1];
      ActiveTickersMembers(init, columns, t);
      assert tickers == init + [tickers[|tickers| - 1]];
    }
  }

  /** The engine the API builds for a request: tickers, period and interval
      are forwarded; the dates and the pair limit are left at their defaults. */
  function EngineFor(request: ScanRequest): (cfg: EngineConfig)
    ensures cfg.tickers == request.tickers
    ensures cfg.period == request.period && cfg.interval == request.interval
    ensures cfg.startDate == None && cfg.endDate == None
    ensures cfg.topN == 50
  {
    EngineConfig(request.tickers, period := request.period, interval := request.interval)
  }

  /** A request's explicit dates never reach the download: the API's engine
      always downloads the request's lookback period. */
  lemma {:induction false} RequestDatesIgnored(request: ScanRequest)
    ensures DownloadWindow(EngineFor(request)) == Lookback(request.period)
  {
  }

  /** `itertools.combinations(s, 2)`: every pair of positions i < j, ordered
      by i and then by j. */
  function Pairs<T>(s: seq<T>): (ps: seq<(T, T)>)
    ensures |s| < 2 ==> ps == []
  {
    if |s| < 2 then []
    else seq(|s| - 1, j requires 0 <= j < |s| - 1 => (s[0], s[j + 1])) + Pairs(s[1..])
  }

  /** There are n(n-1)/2 pairs. */
  lemma {:induction false} PairsCount<T>(s: seq<T>)
    ensures 2 * |Pairs(s)| == |s| * (|s| - 1)
  {
    if |s| >= 2 {
      PairsCount(s[1..]);
    }
  }

  /** A pair is enumerated exactly when it is drawn from two positions in order. */
  lemma {:induction false} PairsMembers<T>(s: seq<T>, p: (T, T))
    ensures p in Pairs(s) <==> exists i, j :: 0 <= i < j < |s| && p == (s[i], s[j])
  {
    if |s| >= 2 {
      var head := seq(|s| - 1, j requires 0 <= j < |s| - 1 => (s[0], s[j + 1]));
      PairsMembers(s[1..], p);
      if p in Pairs(s) {
        if p in head {
          var j :| 0 <= j < |head| && head[j] == p;
          assert p == (s[0], s[j + 1]);
        } else {
          assert p in Pairs(s[1..]);
          var i, j :| 0 <= i < j < |s| - 1 && p == (s[1..][i], s[1..][j]);
          assert p == (s[i + 1], s[j + 1]);
        }
      }
      if exists i, j :: 0 <= i < j < |s| && p == (s[i], s[j]) {
        var i, j :| 0 <= i < j < |s| && p == (s[i], s[j]);
        if i == 0 {
          assert head[j - 1] == p;
        } else {
          assert p == (s[1..][i - 1], s[1..][j - 1]);
        }
      }
    }
  }

  /** What `screen_pair` did with one pair: a result, `None` (rejected), or an exception. */
  datatype Attempt<T> = Found(value: T) | Rejected | Raised(error: string)

  /** A pair that passed the screen, as handed to the simulation. */
  datatype ScreenedPair = ScreenedPair(x: string, y: string, methodLabel: string,
                                       combo: string, halfLife: int)

  /** Every pair the screen admits, in enumeration order. */
  function Admitted(pairs: seq<(string, string)>, screen: (string, string) -> Attempt<ScreenedPair>)
    : (s: seq<ScreenedPair>)
    ensures |s| <= |pairs|
  {
    if pairs == [] then []
    else
      var p := pairs[|pairs| - 1];
      Admitted(pairs[..|pairs| - 1], screen)
        + match screen(p.0, p.1) case Found(item) => [item] case _ => []
  }

  /** Screening more pairs only extends the admitted list. */
  lemma {:induction false} AdmittedPrefix(pairs: seq<(string, string)>,
                                          screen: (string, string) -> Attempt<ScreenedPair>, i: nat)
    requires i <= |pairs|
    ensures Admitted(pairs[..i], screen) <= Admitted(pairs, screen)
    decreases |pairs| - i
  {
    if i < |pairs| {
      AdmittedPrefix(pairs[..|pairs| - 1], screen, i);
      assert pairs[..|pairs| - 1][..i] == pairs[..i];
    } else {
      assert pairs[..i] == pairs;
    }
  }

  /** The first `n` elements (none for `n <= 0`, all when `n` exceeds the length). */
  function Take<T>(s: seq<T>, n: int): (t: seq<T>)
    ensures t <= s
    ensures |t| == if n <= 0 then 0 else if n < |s| then n else |s|
  {
    if n <= 0 then [] else if n < |s| then s[..n] else s
  }

  /** Every screened pair whose simulation returned, in order. */
  function Simulated(items: seq<ScreenedPair>, mc: ScreenedPair -> Result<PairResult>)
    : (rs: seq<PairResult>)
    ensures |rs| <= |items|
  {
    if items == [] then []
    else
      Simulated(items[..|items| - 1], mc)
        + match mc(items[|items| - 1]) case Ok(r) => [r] case Err(_) => []
  }

  /** Non-increasing in the probability of profit. */
  ghost predicate SortedByProb(rs: seq<PairResult>)
  {
    forall i, j :: 0 <= i < j < |rs| ==> rs[i].probProfit >= rs[j].probProfit
  }

  /** The results with a given probability of profit, in their order. */
  function WithProb(rs: seq<PairResult>, p: real): (out: seq<PairResult>)
  {
    if rs == [] then []
    else (if rs[0].probProfit == p then [rs[0]] else []) + WithProb(rs[1..], p)
  }

  /** Places `r` before the first element whose probability does not exceed its own. */
  function Insert(r: PairResult, rs: seq<PairResult>): (out: seq<PairResult>)
    ensures |out| == |rs| + 1
  {
    if rs == [] || rs[0].probProfit <= r.probProfit then [r] + rs
    else [rs[0]] + Insert(r, rs[1..])
  }

  /** `sorted(results, key=prob_profit, reverse=True)`: Python's sort is
      stable, also in reverse, so equal probabilities keep their order. */
  function SortByProb(rs: seq<PairResult>): (out: seq<PairResult>)
    ensures |out| == |rs|
  {
    if rs == [] then [] else Insert(rs[0], SortByProb(rs[1..]))
  }

  lemma {:induction false} InsertSorted(r: PairResult, rs: seq<PairResult>)
    requires SortedByProb(rs)
    ensures SortedByProb(Insert(r, rs))
    ensures multiset(Insert(r, rs)) == multiset(rs) + multiset{r}
  {
    if rs == [] || rs[0].probProfit <= r.probProfit {
    } else {
      InsertSorted(r, rs[1..]);
      var tail := Insert(r, rs[1..]);
      assert rs == [rs[0]] + rs[1..];
      assert multiset(tail) == multiset(rs[1..]) + multiset{r};
      forall k | 0 <= k < |tail| ensures rs[0].probProfit >= tail[k].probProfit {
        assert tail[k] in multiset(rs[1..]) + multiset{r};
        if tail[k] != r {
          assert tail[k] in rs[1..];
        }
      }
    }
  }

  /** The sorted results are ordered by probability and are a permutation of the input. */
  lemma {:induction false} SortByProbSorted(rs: seq<PairResult>)
    ensures SortedByProb(SortByProb(rs))
    ensures multiset(SortByProb(rs)) == multiset(rs)
  {
    if rs != [] {
      SortByProbSorted(rs[1..]);
      InsertSorted(rs[0], SortByProb(rs[1..]));
      assert rs == [rs[0]] + rs[1..];
    }
  }

  lemma {:induction false} InsertStable(r: PairResult, rs: seq<PairResult>, p: real)
    requires SortedByProb(rs)
    ensures WithProb(Insert(r, rs), p) == WithProb([r], p) + WithProb(rs, p)
  {
    if rs == [] || rs[0].probProfit <= r.probProfit {
      InsertHeadEqualFirst(r, rs, p);
    } else {
      InsertStable(r, rs[1..], p);
      var out := Insert(r, rs);
      assert out[1..] == Insert(r, rs[1..]);
      if r.probProfit == p {
        // rs[0] is strictly more probable than r, so it is not in the filter
        assert rs[0].probProfit != p;
      }
    }
  }

  lemma InsertHeadEqualFirst(r: PairResult, rs: seq<PairResult>, p: real)
    ensures WithProb([r] + rs, p) == WithProb([r], p) + WithProb(rs, p)
  {
    assert ([r] + rs)[1..] == rs;
    assert [r][1..] == [];
  }

  /** Sorting keeps the relative order of results with equal probability. */
  lemma {:induction false} SortByProbStable(rs: seq<PairResult>, p: real)
    ensures WithProb(SortByProb(rs), p) == WithProb(rs, p)
  {
    if rs != [] {
      SortByProbStable(rs[1..], p);
      SortByProbSorted(rs[1..]);
      InsertStable(rs[0], SortByProb(rs[1..]), p);
      InsertHeadEqualFirst(rs[0], rs[1..], p);
      assert rs == [rs[0]] + rs[1..];
    }
  }

  /** `run_scan` from the list of tickers that survived the download: enumerate
      pairs, screen them until `topN` are admitted, simulate each admitted pair
      (dropping those whose simulation raises), and sort by probability of profit. */
  method RunScan(active: seq<string>, topN: int,
                 screen: (string, string) -> Attempt<ScreenedPair>,
                 mc: ScreenedPair -> Result<PairResult>)
    returns (results: seq<PairResult>)
    ensures |active| < 2 ==> results == []
    ensures results == SortByProb(Simulated(Take(Admitted(Pairs(active), screen), topN), mc))
    ensures |results| <= (if topN < 0 then 0 else topN)
  {
    if |active| < 2 {
      return [];
    }
    var pairs := Pairs(active);
    var screened: seq<ScreenedPair> := [];
    var i := 0;
    while i < |pairs|
      invariant i <= |pairs|
      invariant screened == Admitted(pairs[..i], screen)
      invariant |screened| <= (if topN < 0 then 0 else topN)
    {
      if |screened| >= topN {
        break;
      }
      var (x, y) := pairs[i];
      var outcome := screen(x, y);
      if outcome.Found? {
        screened := screened + [outcome.value];
      }
      assert pairs[..i + 1][..i] == pairs[..i];
      i := i + 1;
    }
    AdmittedPrefix(pairs, screen, i);
    if i == |pairs| {
      assert pairs[..i] == pairs;
    }
    assert screened == Take(Admitted(pairs, screen), topN);

    var simulated: seq<PairResult> := [];
    for k := 0 to |screened|
      invariant simulated == Simulated(screened[..k], mc)
    {
      var outcome := mc(screened[k]);
      if outcome.Ok? {
        simulated := simulated + [outcome.value];
      }
      assert screened[..k + 1][..k] == screened[..k];
    }
    assert screened[..|screened|] == screened;
    results := SortByProb(simulated);
  }
}
