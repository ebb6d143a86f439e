/** The HTTP layer's in-memory task store and the background job that fills
    it (backend/main.py). A task is created as "processing" when a scan is
    submitted; the job later marks it "completed" with the engine's results
    or "failed" with the exception's text. Unknown ids read as "not_found",
    which is never stored. */
module Api {
  import opened Wrappers
  import opened Models
  import opened Scan

  /** The status of a task, with the strings the API sends. */
  datatype Status = Processing | Completed | Failed | NotFound {
    function Name(): string {
      match this
      case Processing => "processing"
      case Completed => "completed"
      case Failed => "failed"
      case NotFound => "not_found"
    }
  }

  /** Distinct statuses are sent as distinct strings. */
  lemma {:induction false} StatusNamesDistinct(s1: Status, s2: Status)
    requires s1.Name() == s2.Name()
    ensures s1 == s2
  {
    assert s1.Name()[0] == s2.Name()[0];
  }

  /** One entry of the store: `error` is only present after a failure. */
  datatype TaskRecord = TaskRecord(taskId: string, status: Status, results: seq<PairResult>,
                                   error: Option<string>)

  /** The reply to a submission. */
  datatype ScanStarted = ScanStarted(taskId: string)

  /** A stored record is consistent with its key and with its status. */
  ghost predicate Consistent(id: string, rec: TaskRecord)
  {
    && rec.taskId == id
    && rec.status != NotFound
    && (rec.status == Processing ==> rec.results == [] && rec.error == None)
    && (rec.status == Failed ==> rec.results == [] && rec.error.Some?)
    && (rec.status == Completed ==> rec.error == None)
  }

  /** The record a finished job leaves behind. */
  function Finished(rec: TaskRecord, outcome: Result<seq<PairResult>>): (done: TaskRecord)
    ensures done.taskId == rec.taskId
    ensures outcome.Ok? ==> done.status == Completed && done.results == outcome.value
    ensures outcome.Err? ==> done.status == Failed && done.error == Some(outcome.error)
                             && done.results == rec.results
  {
    match outcome
    case Ok(results) => rec.(results := results, status := Completed)
    case Err(msg) => rec.(status := Failed, error := Some(msg))
  }

  /** A job run on a fresh record leaves a consistent, terminal record. */
  lemma {:induction false} FinishedIsTerminal(id: string, rec: TaskRecord, outcome: Result<seq<PairResult>>)
    requires Consistent(id, rec) && rec.status == Processing
    ensures Consistent(id, Finished(rec, outcome))
    ensures Finished(rec, outcome).status == Completed || Finished(rec, outcome).status == Failed
  {
    match outcome
    case Ok(_) =>
    case Err(_) =>
  }

  /** The module-level `tasks` dictionary. */
  class TaskStore {
    var tasks: map<string, TaskRecord>

    ghost predicate Valid()
      reads this
    {
      forall id :: id in tasks ==> Consistent(id, tasks[id])
    }

    constructor ()
      ensures Valid() && tasks == map[]
    {
      tasks := map[];
    }

    /** `start_scan`, with the fresh UUID supplied by the caller: records the
        task as processing and replies with its id. The engine job is
        scheduled separately (see `RunEngine`). */
    method StartScan(id: string) returns (started: ScanStarted)
      requires Valid() && id !in tasks
      modifies this
      ensures Valid()
      ensures started.taskId == id
      ensures tasks == old(tasks)[id := TaskRecord(id, Processing, [], None)]
    {
      tasks := tasks[id := TaskRecord(id, Processing, [], None)];
      started := ScanStarted(id);
    }

    /** `get_results`: the stored record, or a "not_found" placeholder that
        is not stored. */
    method GetResults(id: string) returns (rec: TaskRecord)
      requires Valid()
      ensures id in tasks ==> rec == tasks[id] && rec.status != NotFound
      ensures id !in tasks ==> rec == TaskRecord(id, NotFound, [], None)
      ensures rec.taskId == id
    {
      if id in tasks {
        rec := tasks[id];
      } else {
        rec := TaskRecord(id, NotFound, [], None);
      }
    }

    /** The store update at the end of `run_engine`: the engine's outcome is
        written into this task's record and no other. The job runs once,
        after `StartScan`, so the record is still processing. */
    method Finish(id: string, outcome: Result<seq<PairResult>>)
      requires Valid() && id in tasks && tasks[id].status == Processing
      modifies this
      ensures Valid()
      ensures tasks == old(tasks)[id := Finished(old(tasks)[id], outcome)]
      ensures tasks.Keys == old(tasks).Keys
      ensures forall other :: other in tasks && other != id ==> tasks[other] == old(tasks)[other]
    {
      var rec := tasks[id];
      match outcome {
        case Ok(results) =>
          rec := rec.(results := results);
          rec := rec.(status := Completed);
        case Err(msg) =>
          rec := rec.(status := Failed);
          rec := rec.(error := Some(msg));
      }
      FinishedIsTerminal(id, tasks[id], outcome);
      tasks := tasks[id := rec];
    }
  }

  /** `run_engine`: builds the engine from the request, downloads prices
      (`fetch` gives the columns that survive cleaning, or the exception it
      raised), runs the scan on the active tickers and records the outcome
      in `store`. */
  method RunEngine(store: TaskStore, id: string, request: ScanRequest,
                   fetch: EngineConfig -> Result<set<string>>,
                   screen: (string, string) -> Attempt<ScreenedPair>,
                   mc: ScreenedPair -> Result<PairResult>)
    requires store.Valid() && id in store.tasks && store.tasks[id].status == Processing
    modifies store
    ensures store.Valid()
    ensures store.tasks.Keys == old(store.tasks).Keys
    ensures forall other :: other in store.tasks && other != id ==> store.tasks[other] == old(store.tasks)[other]
    ensures var cfg := EngineFor(request);
      match fetch(cfg)
      case Err(msg) =>
        store.tasks[id] == old(store.tasks)[id].(status := Failed, error := Some(msg))
      case Ok(columns) =>
        var active := ActiveTickers(request.tickers, columns);
        && store.tasks[id].status == Completed
        && store.tasks[id].results
           == SortByProb(Simulated(Take(Admitted(Pairs(active), screen), cfg.topN), mc))
        // too few usable tickers is a completed scan with no pairs, not a failure
        && (|active| < 2 ==> store.tasks[id] == old(store.tasks)[id].(status := Completed))
  {
    var cfg := EngineFor(request);
    var outcome: Result<seq<PairResult>>;
    match fetch(cfg) {
      case Err(msg) =>
        outcome := Err(msg);
      case Ok(columns) =>
        var active := ActiveTickers(cfg.tickers, columns);
        var results := RunScan(active, cfg.topN, screen, mc);
        outcome := Ok(results);
    }
    store.Finish(id, outcome);
  }

  /** The ticker lists offered to prefill a scan. */
  const Presets: map<string, seq<string>> := map[
    "mega_tech" := ["AAPL", "MSFT", "GOOGL", "AMZN", "META", "NVDA", "TSLA", "NFLX", "AMD", "INTC"],
    "financials" := ["JPM", "BAC", "GS", "MS", "WFC", "C", "BLK", "SCHW", "AXP", "USB"],
    "energy" := ["XOM", "CVX", "COP", "SLB", "EOG", "MPC", "PSX", "VLO", "OXY", "HAL"],
    "healthcare" := ["JNJ", "UNH", "PFE", "ABBV", "MRK", "LLY", "TMO", "ABT", "DHR", "BMY"],
    "consumer" := ["KO", "PEP", "PG", "COST", "WMT", "MCD", "NKE", "SBUX", "TGT", "CL"],
    "semiconductors" := ["NVDA", "AMD", "INTC", "AVGO", "QCOM", "TXN", "MU", "LRCX", "AMAT", "MRVL"],
    "nifty_50" := [
      "^NSEI", "^NSEBANK", "NIFTY_FIN_SERVICE.NS", "TCS.NS", "INFY.NS", "TECHM.NS", "LTIM.NS",
      "HCLTECH.NS", "HINDALCO.NS", "EICHERMOT.NS", "WIPRO.NS", "TATASTEEL.NS", "HEROMOTOCO.NS",
      "TATACONSUM.NS", "DIVISLAB.NS", "NESTLEIND.NS", "UPL.NS", "ADANIPORTS.NS", "CIPLA.NS",
      "LT.NS", "ICICIBANK.NS", "HINDUNILVR.NS", "ADANIENT.NS", "ASIANPAINT.NS", "BRITANNIA.NS",
      "ONGC.NS", "COALINDIA.NS", "TATAMOTORS.NS", "SBILIFE.NS", "JSWSTEEL.NS", "BHARTIARTL.NS",
      "ITC.NS", "BAJFINANCE.NS", "RELIANCE.NS", "HDFCBANK.NS", "KOTAKBANK.NS", "APOLLOHOSP.NS",
      "INDUSINDBK.NS", "NTPC.NS", "BPCL.NS", "BAJAJ-AUTO.NS", "SBIN.NS", "BAJAJFINSV.NS",
      "GRASIM.NS", "AXISBANK.NS", "SUNPHARMA.NS", "M&M.NS", "MARUTI.NS", "TITAN.NS",
      "ULTRACEMCO.NS", "DRREDDY.NS", "POWERGRID.NS", "HDFCLIFE.NS"],
    "nifty_fno" := [
      "^NSEI", "^NSEBANK", "NIFTY_FIN_SERVICE.NS", "360ONE.NS", "ABB.NS", "ABCAPITAL.NS",
      "ADANIENSOL.NS", "ADANIENT.NS", "ADANIGREEN.NS", "ADANIPORTS.NS", "ALKEM.NS", "AMBER.NS",
      "AMBUJACEM.NS", "ANGELONE.NS", "APLAPOLLO.NS", "APOLLOHOSP.NS", "ASHOKLEY.NS",
      "ASIANPAINT.NS", "ASTRAL.NS", "AUBANK.NS", "AUROPHARMA.NS", "AXISBANK.NS",
      "BAJAJ-AUTO.NS", "BAJAJFINSV.NS", "BAJFINANCE.NS", "BANDHANBNK.NS", "BANKBARODA.NS",
      "BANKEX.NS", "BANKINDIA.NS", "BDL.NS", "BEL.NS", "BHARATFORG.NS", "BHARTIARTL.NS",
      "BHEL.NS", "BIOCON.NS", "BLUESTARCO.NS", "BOSCHLTD.NS", "BPCL.NS", "BRITANNIA.NS",
      "BSE.NS", "CAMS.NS", "CANBK.NS", "CDSL.NS", "CGPOWER.NS", "CHOLAFIN.NS", "CIPLA.NS",
      "COALINDIA.NS", "COFORGE.NS", "COLPAL.NS", "CONCOR.NS", "CROMPTON.NS", "CUMMINSIND.NS",
      "CYIENT.NS", "DABUR.NS", "DALBHARAT.NS", "DELHIVERY.NS", "DIVISLAB.NS", "DIXON.NS",
      "DLF.NS", "DMART.NS", "DRREDDY.NS", "EICHERMOT.NS", "ETERNAL.NS", "EXIDEIND.NS",
      "FEDERALBNK.NS", "FORTIS.NS", "GAIL.NS", "GLENMARK.NS", "GMRAIRPORT.NS", "GODREJCP.NS",
      "GODREJPROP.NS", "GRASIM.NS", "HAL.NS", "HAVELLS.NS", "HCLTECH.NS", "HDFCAMC.NS",
      "HDFCBANK.NS", "HDFCLIFE.NS", "HEROMOTOCO.NS", "HFCL.NS", "HINDALCO.NS", "HINDPETRO.NS",
      "HINDUNILVR.NS", "HINDZINC.NS", "HUDCO.NS", "ICICIBANK.NS", "ICICIGI.NS", "ICICIPRULI.NS",
      "IDEA.NS", "IDFCFIRSTB.NS", "IEX.NS", "IGL.NS", "IIFL.NS", "INDHOTEL.NS", "INDIANB.NS",
      "INDIGO.NS", "INDUSINDBK.NS", "INDUSTOWER.NS", "INFY.NS", "INOXWIND.NS", "IOC.NS",
      "IRCTC.NS", "IREDA.NS", "IRFC.NS", "ITC.NS", "JINDALSTEL.NS", "JIOFIN.NS",
      "JSWENERGY.NS", "JSWSTEEL.NS", "JUBLFOOD.NS", "KALYANKJIL.NS", "KAYNES.NS", "KEI.NS",
      "KFINTECH.NS", "KOTAKBANK.NS", "KPITTECH.NS", "LAURUSLABS.NS", "LICHSGFIN.NS", "LICI.NS",
      "LODHA.NS", "LT.NS", "LTF.NS", "LTIM.NS", "LUPIN.NS", "M&M.NS", "MANAPPURAM.NS",
      "MANKIND.NS", "MARICO.NS", "MARUTI.NS", "MAXHEALTH.NS", "MAZDOCK.NS", "MCX.NS",
      "MFSL.NS", "MOTHERSON.NS", "MPHASIS.NS", "MUTHOOTFIN.NS", "NATIONALUM.NS", "NAUKRI.NS",
      "NBCC.NS", "NCC.NS", "NESTLEIND.NS", "NHPC.NS", "NMDC.NS", "NTPC.NS", "NUVAMA.NS",
      "NYKAA.NS", "OBEROIRLTY.NS", "OFSS.NS", "OIL.NS", "ONGC.NS", "PAGEIND.NS",
      "PATANJALI.NS", "PAYTM.NS", "PERSISTENT.NS", "PETRONET.NS", "PFC.NS", "PGEL.NS",
      "PHOENIXLTD.NS", "PIDILITIND.NS", "PIIND.NS", "PNB.NS", "PNBHOUSING.NS", "POLICYBZR.NS",
      "POLYCAB.NS", "POWERGRID.NS", "PPLPHARMA.NS", "PRESTIGE.NS", "RBLBANK.NS", "RECLTD.NS",
      "RELIANCE.NS", "RVNL.NS", "SAIL.NS", "SAMMAANCAP.NS", "SBICARD.NS", "SBILIFE.NS",
      "SBIN.NS", "SENSEX.NS", "SHREECEM.NS", "SHRIRAMFIN.NS", "SIEMENS.NS", "SOLARINDS.NS",
      "SONACOMS.NS", "SRF.NS", "SUNPHARMA.NS", "SUPREMEIND.NS", "SUZLON.NS", "SYNGENE.NS",
      "TATACHEM.NS", "TATACONSUM.NS", "TATAELXSI.NS", "TATAMOTORS.NS", "TATAPOWER.NS",
      "TATASTEEL.NS", "TATATECH.NS", "TCS.NS", "TECHM.NS", "TIINDIA.NS", "TITAGARH.NS",
      "TITAN.NS", "TORNTPHARM.NS", "TORNTPOWER.NS", "TRENT.NS", "TVSMOTOR.NS",
      "ULTRACEMCO.NS", "UNIONBANK.NS", "UNITDSPR.NS", "UNOMINDA.NS", "UPL.NS", "VBL.NS",
      "VEDL.NS", "VOLTAS.NS", "WIPRO.NS", "YESBANK.NS", "ZYDUSLIFE.NS"]
  ]

  /** `get_presets`: the constant preset table, eight named lists. */
  function GetPresets(): (presets: map<string, seq<string>>)
    ensures presets.Keys == {"mega_tech", "financials", "energy", "healthcare", "consumer",
                             "semiconductors", "nifty_50", "nifty_fno"}
    ensures |presets["mega_tech"]| == 10 && |presets["nifty_50"]| == 53
  {
    Presets
  }
}
