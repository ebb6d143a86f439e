/** The request and response records shared by the API and the engine
    (backend/models.py), with the defaults they declare. Python floats are
    modelled as reals. */
module Models {
  import opened Wrappers

  /** A scan as the client submits it. Nothing constrains the number of tickers;
      a scan over fewer than two usable tickers simply yields no pairs. */
  datatype ScanRequest = ScanRequest(
    tickers: seq<string>,
    period: string := "3y",
    interval: string := "1d",
    startDate: Option<string> := None,
    endDate: Option<string> := None)

  /** One point of the historical z-score series sent to the chart. */
  datatype ZScorePoint = ZScorePoint(time: string, value: real)

  /** One screened and simulated pair. */
  datatype PairResult = PairResult(
    pair: string,
    combo: string,
    methodLabel: string,   // the source field `method`
    priceCorr: real,
    zScore: real,
    halfLife: int,
    moveToMean: real,
    expReturn: real,
    unitPrice: real,
    hurst: real,
    probProfit: real,
    probProfitLow: real,
    probProfitHigh: real,
    sameSector: string,
    extremeZInHl: string,
    extremeZDetail: string,
    profitableSinceExtreme: string,
    pnlSinceExtreme: real,
    historicalZScores: seq<ZScorePoint> := [])

  datatype TaskResponse = TaskResponse(
    taskId: string,
    status: string,
    results: seq<PairResult> := [])

  /** A request that names only its tickers scans three years of daily bars over
      the whole period, and carries no explicit date range. */
  lemma {:induction false} ScanRequestDefaults(tickers: seq<string>)
    ensures ScanRequest(tickers).period == "3y"
    ensures ScanRequest(tickers).interval == "1d"
    ensures ScanRequest(tickers).startDate == None && ScanRequest(tickers).endDate == None
    ensures ScanRequest(tickers).tickers == tickers
  {
  }

  /** A response built without results carries the empty list. */
  lemma {:induction false} TaskResponseDefaults(id: string, status: string)
    ensures TaskResponse(id, status).results == []
  {
  }
}
