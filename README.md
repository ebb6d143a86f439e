# OmniSpread backend: task store and pair-scan logic

OmniSpread scans a list of stock tickers for cointegrated pairs and ranks the
pairs by the simulated probability that a mean-reversion trade turns a profit
within one half-life of the spread. A client submits a scan to the HTTP API.
The API records the task as "processing" and runs the engine in the
background. The client then polls for the task's status and results.

This project models the parts of that backend that are decisions rather than
statistics:

- **Api** (`api.dfy`). The in-memory task store is a class over a
  `map<string, TaskRecord>`. It has the submit, read and finish operations and
  the background job that builds the engine from a request. The preset ticker
  lists are a constant.
- **Scan** (`scan.dfy`). The engine's configuration and download window, the
  tickers kept after cleaning, the enumeration of pairs in
  `itertools.combinations` order, and the `run_scan` loop. That loop stops
  after `top_n` admitted pairs, skips pairs whose screen or simulation fails,
  and ends with Python's stable descending sort by probability of profit.
- **Screening** (`screening.dfy`). The cointegration method label, the row,
  z-score and Hurst filters, and the half-life rule. Also the display names of
  tickers (".NS" and ".BO" removed), the pair label, the side of each leg in
  the trade description, and the sector flag.
- **MonteCarlo** (`montecarlo.dfy`). The block length with Python's
  half-to-even rounding, and the cap on simulations per draw. Also the clipping
  of the sampled AR(1) slope, the trade sign, and the win counter with its
  per-draw win rates.
- **Bootstrap** (`bootstrap.dfy`). The circular block bootstrap of residuals,
  and the AR(1) path simulation that fills an array.
- **Models** (`models.dfy`) and **Wrappers** (`wrappers.dfy`). The request and
  response records with their declared defaults, plus `Option` and `Result`.
- **Rounding** (`rounding.dfy`). Python's `round` to the nearest integer.

Randomness is replaced by the values the generator would produce: start
indices, normal draws, and noise sequences. The price download, the screen of
one pair, and the simulation of one pair are function-valued parameters. The
download gives the price columns that survive cleaning, or fails with a
message. The screen of a pair gives a screened pair, gives nothing (the pair is
rejected), or fails with a message. The simulation of a pair gives a finished
result or fails with a message.

The API builds the engine from the request's tickers, period and interval
only. A request's start and end dates therefore never reach the download, and
the engine always downloads the lookback period (`Scan.RequestDatesIgnored`).
The model follows the code here.

## Model

| member | source | states |
|---|---|---|
| Models.ScanRequestDefaults | backend/models.py:5-10 | a request built from its tickers alone keeps them and has period "3y", interval "1d" and no start or end date |
| Models.TaskResponseDefaults | backend/models.py:35-38 | a response built without results carries the empty list |
| Rounding.RoundHalfEven | backend/engine.py:356 | the result is within one half of x, and it is even when x lies exactly halfway between two integers |
| Rounding.RoundHalfEvenUnique | backend/engine.py:356 | at most one integer meets the rounding contract, so the function is Python's round |
| Rounding.RoundHalfEvenOfInteger | backend/engine.py:356 | rounding an integer returns it |
| Bootstrap.Block | backend/engine.py:186-192 | a drawn block is never empty, so every pass of the bootstrap loop makes progress |
| Bootstrap.Blocks | backend/engine.py:184-193 | the drawn blocks together hold at least one value per start index drawn |
| Bootstrap.BlockIsCircularWindow | backend/engine.py:185-192 | if block_len <= n, the block at start s has exactly block_len values, the k-th being resid[(s+k) mod n] |
| Bootstrap.BlockLength | backend/engine.py:186-192 | a block has block_len values when start + block_len <= n, and otherwise n - start + (start + block_len) mod n values |
| Bootstrap.BlockShorterIff | backend/engine.py:186-192 | a block never exceeds block_len, and it falls short of block_len exactly when start + block_len >= 2n, because it wraps only once |
| Bootstrap.BlocksFromResiduals | backend/engine.py:184-193 | every concatenated sample is one of the residuals |
| Bootstrap.BlocksPrefix | backend/engine.py:184-193 | drawing more start indices only extends the samples |
| Bootstrap.BlockBootstrapErrors | backend/engine.py:178-194 | returns exactly max(0, horizon) values. With no residuals these are the first horizon normal draws. Otherwise each value is a residual, the output is a prefix of the blocks at the consumed starts, and no more starts are consumed than the horizon needs |
| Bootstrap.Ar1Path | backend/engine.py:197-203 | the path has one more point than the noise, and it starts at r0 |
| Bootstrap.Ar1PathStep | backend/engine.py:201-202 | every later point is a + phi * previous point + the matching noise value |
| Bootstrap.Ar1PathCausal | backend/engine.py:201-202 | the first t+1 points depend only on the first t noise values |
| Bootstrap.Ar1PathAtMeanIsConstant | backend/engine.py:197-203 | with zero noise, a path started at the fixed point a + phi*r0 = r0 stays there |
| Bootstrap.SimulatePathAr1 | backend/engine.py:197-203 | the filled array has len(eps)+1 points, path[0] = r0 and path[t] = a + phi*path[t-1] + eps[t-1], and it equals Ar1Path |
| Screening.MethodLabel | backend/engine.py:274-288 | no label unless CADF or Johansen passes. "Both" iff both pass; "CADF" iff only CADF passes; "Johansen" iff only Johansen passes and the re-fit succeeds |
| Screening.MethodNamesDistinct | backend/engine.py:279-286 | the three labels are distinct strings |
| Screening.HalfLife | backend/engine.py:293-294 | the half-life is at least 1. It is the rounded decay time whenever that is at least 1, and exactly 1 when the slope is zero or the rounding falls below 1 |
| Screening.ScreenDecision | backend/engine.py:224-308 | a pair is admitted iff both row counts reach 50, a label exists, \|z\| > 2.0 and the Hurst exponent is below 0.45 (NaN rejects) |
| Screening.RemoveAll | backend/engine.py:313-314 | removal never lengthens the string |
| Screening.RemoveAllAbsent | backend/engine.py:313-314 | removing a pattern that does not occur leaves the string unchanged |
| Screening.RemoveAllKeepsAbsentChar | backend/engine.py:313-314 | removal introduces no new character |
| Screening.DisplayName | backend/engine.py:313-314 | the display name is never longer than the ticker; the lemmas below state which suffixes it removes |
| Screening.DisplayNameWithoutSuffixes | backend/engine.py:313-314 | a ticker containing neither ".NS" nor ".BO" is displayed unchanged |
| Screening.DisplayNameWithoutDot | backend/engine.py:313-314 | a ticker without a dot is displayed unchanged |
| Screening.RemoveTrailingSuffix | backend/engine.py:313-314 | a dot-free base followed by the suffix loses exactly the suffix |
| Screening.DisplayNameStripsExchange | backend/engine.py:313-314 | "X.NS" and "X.BO" are both displayed as "X" when X has no dot |
| Screening.PairLabel | backend/engine.py:492 | the label is the two display names joined by one slash |
| Screening.PairLabelDeterminesNames | backend/engine.py:492 | for tickers without a slash, equal labels mean equal display names on both sides |
| Screening.XSide | backend/engine.py:316-319 | x is sold iff z > 0 |
| Screening.Combo | backend/engine.py:316-319 | the trade description begins "Sell" iff z > 0. It is the x leg (qty of x, sold iff z > 0), then "  &  ", then the y leg (1 of y, bought iff z > 0) |
| Screening.IntendedXSide | backend/engine.py:316-319 | the corrected side on x: bought iff z > 0, the opposite of the side written |
| Screening.IntendedCombo | backend/engine.py:316-319 | the corrected trade description: the x leg bought iff z > 0, then "  &  ", then 1 of y sold iff z > 0 |
| Screening.IndustryOf | backend/engine.py:236-237 | the industry is a recorded one or "Unknown", and it is "Unknown" for a ticker without a record |
| Screening.SameSector | backend/engine.py:354 | the flag is "Yes" or "No" |
| Screening.SameSectorSymmetric | backend/engine.py:354 | the flag is "Yes" iff both tickers have a recorded industry, the two are equal and not "Unknown". It does not depend on the order of the legs, and a leg without a record gives "No" |
| MonteCarlo.BlockLen | backend/engine.py:356 | the block length is at least 1 |
| MonteCarlo.BlockLenBounds | backend/engine.py:356 | for hl >= 1 the block length lies in [1, hl], and for hl >= 4 it is within one half of hl/4 |
| MonteCarlo.BlockLenSmall | backend/engine.py:356 | a half-life of at most 4 bars gives a block of 1, since a quarter of it is raised to 1 before rounding |
| MonteCarlo.BlockLenTiesToEven | backend/engine.py:356 | for every hl = 4k + 2 >= 4 the quarter is a tie, and the block length is the even one of k and k + 1 |
| MonteCarlo.SimsPerLocal | backend/engine.py:381-385 | under the cap, sims per draw is the configured count. Over the cap it is at least 1, and it is the largest share with M * sims <= MAX_TOTAL_SIMS |
| MonteCarlo.EngineSimsUnderCap | backend/engine.py:381-385 | with 80 draws of 2000 simulations the cap of 400000 is not reached |
| MonteCarlo.ClampPhi | backend/engine.py:397 | the sampled slope is clipped into [-0.999, 0.999], and a slope already inside is unchanged |
| MonteCarlo.TradeSign | backend/engine.py:406 | the sign is -1 or +1 |
| MonteCarlo.TradeSignMatchesCombo | backend/engine.py:316-319 | the simulation's sign and the side written for x follow the same test z > 0: the sign is -1 iff x is sold, and a spread move then scores as a win iff it is a fall |
| MonteCarlo.ComboOpposesSimulation | backend/engine.py:406 | as written, for a hedge ratio beta >= 0, the described trade earns the negative of what the simulation scores on the spread y - beta * x, so a simulated win is a loss for the described trade |
| MonteCarlo.ComboLosesOnSimulatedWin | backend/engine.py:316-319 | with z = 2.5 and beta = 1, x flat and y down by 1, the simulation scores a win, the text begins "Sell", and the described trade loses 1 |
| MonteCarlo.IntendedComboMatchesSimulation | backend/engine.py:316-319 | with the corrected sides, the described trade earns exactly what the simulation scores, so it wins iff the simulation counts a win |
| MonteCarlo.Wins | backend/engine.py:408-421 | there are at most as many wins as simulations |
| MonteCarlo.IsWin | backend/engine.py:416-421 | the scan stops with a win iff some step 1..hl shows a positive profit |
| MonteCarlo.CountWins | backend/engine.py:408-421 | the loop counts exactly the noise sequences whose path is profitable within hl steps, at most one win each |
| MonteCarlo.WinRate | backend/engine.py:423 | a draw's win rate lies in [0, 1] |
| MonteCarlo.EnsembleWinRates | backend/engine.py:389-423 | one rate per draw, in draw order, each the draw's win rate and each in [0, 1] |
| Scan.DownloadWindow | backend/engine.py:61-64 | an explicit date range is used iff both dates are given and non-empty; otherwise the lookback period is used |
| Scan.ActiveTickers | backend/engine.py:128 | the kept tickers are at most those requested |
| Scan.ActiveTickersMembers | backend/engine.py:128 | a ticker is kept iff it was requested and survived cleaning |
| Scan.EngineFor | backend/main.py:114-118 | the engine gets the request's tickers, period and interval, no dates, and top_n 50 |
| Scan.RequestDatesIgnored | backend/main.py:114-118 | the download for an API request always uses the request's lookback period |
| Scan.Pairs | backend/engine.py:527 | fewer than two tickers give no pairs |
| Scan.PairsCount | backend/engine.py:527 | n tickers give n(n-1)/2 pairs |
| Scan.PairsMembers | backend/engine.py:527 | a pair is enumerated iff it is drawn from positions i < j |
| Scan.Admitted | backend/engine.py:530-540 | the admitted pairs are at most the pairs screened |
| Scan.AdmittedPrefix | backend/engine.py:530-540 | screening more pairs only extends the admitted list |
| Scan.Take | backend/engine.py:531-532 | the result is a prefix of length min(n, len) |
| Scan.Simulated | backend/engine.py:544-555 | no more results than screened pairs |
| Scan.SortByProb | backend/engine.py:558 | sorting keeps the number of results; ordering, permutation and stability are the two lemmas below |
| Scan.SortByProbSorted | backend/engine.py:558 | the sorted results are non-increasing in prob_profit and a permutation of the input |
| Scan.SortByProbStable | backend/engine.py:558 | results with equal prob_profit keep their relative order |
| Scan.RunScan | backend/engine.py:517-558 | fewer than 2 active tickers give []. Otherwise the result is the sort of the simulated first top_n admitted pairs, with at most top_n entries |
| Api.StatusNamesDistinct | backend/main.py:98-124 | the status strings are distinct |
| Api.Finished | backend/main.py:119-125 | success sets the results and "completed"; failure sets "failed" and the error text and keeps the results |
| Api.FinishedIsTerminal | backend/main.py:119-125 | finishing a processing record gives a consistent "completed" or "failed" record |
| Api.TaskStore.constructor | backend/main.py:23 | the store starts empty |
| Api.TaskStore.StartScan | backend/main.py:95-101 | a fresh id is mapped to a processing record with no results, every other entry is unchanged, and the reply carries the id |
| Api.TaskStore.GetResults | backend/main.py:104-109 | reads without modifying. A stored record is returned; an unknown id gives a "not_found" record that is not stored |
| Api.TaskStore.Finish | backend/main.py:119-125 | only this task's record changes, and it becomes Finished(old record, outcome) |
| Api.RunEngine | backend/main.py:112-126 | a failure gives "failed" with the error. Success gives "completed" with RunScan's results, and fewer than two active tickers give "completed" with []. No other task changes |
| Api.GetPresets | backend/main.py:26-82 | the eight preset names, with 10 tickers in mega_tech and 53 in nifty_50 |

## Findings

| source | as written | input that shows it | evidently intended | confidence | as-written member | corrected member |
|---|---|---|---|---|---|---|
| backend/engine.py:316-319 | for z > 0 the trade text is "Sell qty of x & Buy 1 of y". With spread = y - beta * x (lines 250, 285) and qty = \|beta\|, that trade is long the spread. The simulation (line 406) uses sign -1 and scores a fall of the spread as the win | z = 2.5, beta = 1, x flat, y down by 1: the spread falls by 1, the simulation counts a win, and the described trade loses 1 | the described trade takes the side the simulation scores: for z > 0 buy qty of x and sell 1 of y, otherwise the reverse | medium, not executed; the source may instead intend the simulated direction to follow the text | MonteCarlo.ComboOpposesSimulation | MonteCarlo.IntendedComboMatchesSimulation |

The model keeps `Screening.Combo` as the text the program produces, because that is what it sends to the client. `Screening.IntendedCombo` is the corrected text. Nothing else in the model reads either text.

## Left out

- The price download and the industry lookup (`fetch_data`, `fetch_industries`) are network I/O. The download is a parameter that gives the surviving columns or an error. Its retries and its frame cleaning are not modelled.
- The statistics are floating-point numerics in foreign libraries: OLS, the Kalman filter, ADF, Johansen, the rolling z-score, the Hurst exponent, and the AR(1) fit and its covariance. Their outcomes are inputs: pass flags, z, Hurst, the decay time and the residuals.
- The random draws are replaced by explicit inputs: parameter samples, chi-square draws, start indices and normal noise. The normal fallback used when there are no residuals is an input sequence too.
- The rest of `run_ensemble_mc` is not modelled: median and percentile summaries, extreme-z detection, PnL since the extreme, and number and date formatting inside strings. The mc oracle returns the finished `PairResult`.
- Floats are reals, so NaN, infinities and the `_safe_float` replacement are not modelled. NaN z-scores and Hurst values appear as `None`.
- The FastAPI app, CORS, route decorators, `BackgroundTasks`, `uuid4` and logging are framework plumbing. The id is passed in by the caller, and the background job is a separate sequential call. Concurrency between the job and readers is not modelled.
- The root endpoint (`/`) returns a constant status object and is not modelled.
- The browser client's polling loop and its chart-path generator are not part of this model.
- Bootstrap.BlockBootstrapErrors: with no residuals, a negative horizon is excluded by its precondition. NumPy would raise an error for it.
- Bootstrap.SimulatePathAr1: `sigma` is accepted and ignored, as in the source.
- Screening.ScreenDecision: the column lookup failing inside the first `try` is folded into the row counts.
- MonteCarlo.ComboOpposesSimulation and MonteCarlo.IntendedComboMatchesSimulation: stated for a non-negative hedge ratio only. With beta < 0 the spread y + |beta| * x is long or short on both legs at once, which no two-sided trade text can express.
