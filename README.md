# AiBlack indicator backend — a Dafny model

This project models the logic of a charting application. It has three parts:

- an Express back end;
- Python indicator scripts;
- a browser front end.

Its core is the **indicator execution protocol**. The Node gateway spawns one Python script per request. It writes a JSON request to the script's stdin and reads one JSON document from its stdout. It enforces a timeout, classifies how the child ended, and gathers the scripts' self-descriptions in a batch that tolerates broken scripts.

Around that core the model covers:

- **Gateway side:**
  - `src/services/python-executor.service.ts`: the launcher as a class driven by the child's callbacks, the gateway, and the registry;
  - `protocol.dfy`: how the two halves meet.
- **Script side:**
  - `python-indicators/indicator_interface.py`: mode dispatch, request checks, in-place candle coercion, metadata stamping, error document and exit status;
  - the five scripts under `python-indicators/standard/`: parameter validation, defaults and result shaping;
  - the numpy fallbacks of `python-indicators/talib_wrapper.py`, over real numbers, with NaN as `None`.
- **The legacy path:**
  - `python-indicators/calculate.py`;
  - `src/services/indicator.service.ts`;
  - `src/routes/indicator.ts`.
- **The TTL cache** (`src/services/cache.service.ts`), as a class over a map, with the clock passed in.
- **Market data:**
  - `src/routes/market-data.ts`;
  - the candle conversion, sort and error mapping of `src/services/yahoo-finance.service.ts`.
- **The error middleware, configuration and request logger:**
  - `src/middleware/error-handler.ts`;
  - `src/config/environment.ts`;
  - `src/middleware/logger.ts`.
- **The vision routes and the pure parts of the vision service:**
  - `src/routes/vision.ts`;
  - `src/services/vision.service.ts`: key guard, empty replies, conversation history, indicator summaries, code-fence extraction and required keys.
- **Front-end helpers of `public/app.js`:**
  - JST time labels;
  - chart sizing;
  - chart-type fallback;
  - chart-quality check and pre-analysis decision;
  - ATR and ADX.

## How the model is built

- **Shared modules:**
  - `Wrappers` (Option, Result);
  - `Strings` (decimal rendering, search, join);
  - `Json` (documents whose objects keep insertion order, as both JavaScript objects and Python dicts do).
- **One module per source file.**
- **State the source updates in place is a class:**
  - `PythonExecutor.Launcher`, with its output accumulators, timer, kill flag and settlement;
  - `IndicatorService.PythonRun`;
  - `Cache.CacheService`.
- **Loops become methods with invariants.** Examples are the candle coercion, the conversion of Yahoo rows, the history section, the indicator summaries, the Wilder smoothing and the fallback indicators. Each method is proved equal to a specification function, and the properties are lemmas about that function.
- **Everything the code cannot see is a parameter:**
  - child processes, as the sequence of callbacks Node delivers;
  - `JSON.parse` and `json.dumps`;
  - TA-Lib;
  - the OpenAI and HTTP clients;
  - clocks and ISO time stamps;
  - `toFixed` and Python's float text;
  - browser storage and dialogs.

### Points of the gateway worth knowing

- **Describe mode.** The registry asks a script for its metadata by sending `_mode: 'metadata'` in the request.
- **Almost no shape check.** Of what a script prints with exit status 0, `execute` turns only `null` into an `ExecutionError`, because its completion log line reads `result.success`. Any other document is returned without checking that it has the success or the failure shape.
- **A request without `candleData` rejects.** `execute` reads `request.candleData.length` for its first log line, outside the `try`, so a missing or null `candleData` rejects the call before anything is spawned.
- **Metadata is not validated.** The registry keeps every describe result whose `success` is truthy.
- **Timeouts look like other failures.** `execute` turns every launcher failure into an `ExecutionError`; only the message tells a timeout apart.
- **Only the child is killed.** The timeout kills the immediate child process, not a process tree.
- **The legacy path has no timeout.**

## Model

| member | source | states |
|---|---|---|
| Strings.NatToStringRoundTrip | src/middleware/logger.ts:17 | round trip: reading a number's decimal rendering back gives the number |
| Strings.NatToStringInjective | src/middleware/logger.ts:17 | two natural numbers render alike only if they are equal |
| Strings.IntToString | src/middleware/logger.ts:17 | a signed integer renders as its magnitude's numeral, after a `-` exactly when negative |
| Strings.SignShown | src/middleware/logger.ts:17 | a rendered integer opens with `-` if and only if it is negative |
| Strings.IntToStringInjective | src/middleware/logger.ts:17 | two integers render alike only if they are equal |
| Strings.IndexOfFrom | src/routes/market-data.ts:38 | the answer is the first position at or after the start where the pattern occurs, and None means it occurs nowhere there |
| Strings.StripPyExtension | src/services/python-executor.service.ts:64 | removing the first `.py` from `<name>.py` gives back the name when the name holds no `.py` |
| Strings.AsciiUpper | python-indicators/indicator_interface.py:75 | on ASCII names, `upper()` turns each letter a-z into its capital and keeps every other character, so the length is kept and no small letter is left |
| Json.Lookup | python-indicators/indicator_interface.py:147-152 | a lookup is undefined (a missing key) if and only if no entry carries the key |
| Json.LookupFirst | python-indicators/indicator_interface.py:147-152 | a lookup answers with the first entry carrying the key |
| Json.PutLookup | python-indicators/indicator_interface.py:163-166 | a write is seen by the next read of its key and by no other key |
| Json.PutKeys | python-indicators/indicator_interface.py:147-152 | writing an existing key keeps every key where it was |
| Json.PutAppends | python-indicators/indicator_interface.py:163-166 | writing a new key appends the pair at the end |
| Json.AssignLookup | src/routes/indicator.ts:86-89 | after a spread, a key of the spread object has its value and every other key keeps the target's value |
| Environment.Setting | src/config/environment.ts:35-56 | an unset or empty variable gives the fallback, any other value is used as is |
| Environment.TrimStart | src/config/environment.ts:36 | `parseInt` skips exactly the leading white space: the result is a suffix that does not start with a space |
| Environment.DigitRun | src/config/environment.ts:36 | the digits `parseInt` reads are all digits and are followed by a non-digit or by the end |
| Environment.DigitRunStops | src/config/environment.ts:36 | a numeral followed by a non-digit is read up to its end |
| Environment.ParseLeadingDigits | src/config/environment.ts:36 | a numeral followed by a non-digit or by nothing parses to its value |
| Environment.ParseRendered | src/config/environment.ts:36-57 | round trip: every rendered natural number parses back to itself |
| Environment.ParseIgnoresSuffix | src/config/environment.ts:36-57 | text after the digits (`"3001abc"`) is ignored |
| Environment.NumericDefaults | src/config/environment.ts:36-57 | with nothing set, PORT is 3001, CACHE_TTL 300, PYTHON_TIMEOUT 30000 and YAHOO_FINANCE_TIMEOUT 10000 |
| Environment.TextDefaults | src/config/environment.ts:35-56 | with nothing set, NODE_ENV is `development`, HOST `localhost`, PYTHON_PATH `python3`, and caching is off |
| Environment.CacheEnabledOnlyForTrue | src/config/environment.ts:44 | caching is on if and only if CACHE_ENABLED is exactly `true`; `1` leaves it off |
| Environment.ModesExclusive | src/config/environment.ts:63-73 | at most one of development, production and test holds, and an unset NODE_ENV is development |
| Environment.Missing | src/config/environment.ts:19 | a name is reported missing if and only if it is required and unset or empty |
| Environment.ValidateEnvironment | src/config/environment.ts:14-28 | validation succeeds if and only if every required variable is set and non-empty |
| Environment.ValidationNeverThrows | src/config/environment.ts:15-17 | with the empty list of required variables, validation never throws |
| Cache.LiveEntries | src/services/cache.service.ts:97-111 | a sweep keeps exactly the unexpired entries, each unchanged |
| Cache.SweepKeepsReads | src/services/cache.service.ts:97-111 | sweeping changes no read at the same instant, and sweeping twice is sweeping once |
| Cache.StoredValueReadBack | src/services/cache.service.ts:39-72 | a stored value is read back up to its expiry instant and not after, and other keys read as before |
| Cache.CacheService.constructor | src/services/cache.service.ts:21-34 | a new service starts empty with the configured flag and default TTL |
| Cache.CacheService.Get | src/services/cache.service.ts:39-59 | disabled: nothing; enabled: the live value, and an expired entry is deleted while reading |
| Cache.CacheService.Set | src/services/cache.service.ts:64-72 | disabled: nothing changes; enabled: the key's entry is replaced and expires `ttl \|\| defaultTTL` seconds from now |
| Cache.CacheService.Delete | src/services/cache.service.ts:77-83 | answers whether the key was present, and only that key goes, whether or not caching is on |
| Cache.CacheService.Clear | src/services/cache.service.ts:88-92 | the map is emptied and the count of removed entries is the old size |
| Cache.CacheService.Cleanup | src/services/cache.service.ts:97-111 | the loop leaves exactly the live entries and counts the removed ones |
| Cache.CacheService.Stats | src/services/cache.service.ts:116-121 | the size counts expired entries not yet swept, and the flag is the configured one |
| Cache.SetThenGet | src/services/cache.service.ts:51-70 | with caching on, a value set now is read back up to `ttl \|\| default` seconds later and not after |
| ErrorHandler.NewAppError | src/middleware/error-handler.ts:18-25 | an omitted status is 500 and an omitted type `InternalError`; given ones and the details are kept |
| ErrorHandler.Handle | src/middleware/error-handler.ts:31-70 | the response status equals the body's status code: an `AppError`'s own status and type, otherwise 500 `InternalError`; an empty message becomes `Internal server error` |
| ErrorHandler.DetailsSources | src/middleware/error-handler.ts:59-67 | an `AppError`'s own details win; otherwise the stack, and only in development; in production without own details there are none |
| ErrorHandler.DefaultsMatchPlainErrors | src/middleware/error-handler.ts:18-47 | a plain error is a 500 `InternalError`, answered exactly like an `AppError` built without status and type |
| ErrorHandler.NotFound | src/middleware/error-handler.ts:75-88 | 404 `NotFoundError`, no details, message `Route not found: <method> <url>` |
| ErrorHandler.NotFoundNamesTheRoute | src/middleware/error-handler.ts:82 | for methods of equal length, equal messages mean the same method and URL |
| PythonExecutor.ReplayAppend | src/services/python-executor.service.ts:128-210 | replaying one more callback is one more step of the launcher |
| PythonExecutor.AccumulatorsAreConcatenations | src/services/python-executor.service.ts:131-149 | the stdout and stderr accumulators are exactly the in-order concatenation of their stream's chunks |
| PythonExecutor.FirstSettlementWins | src/services/python-executor.service.ts:128-210 | the promise's first settlement is final: no later callback changes it |
| PythonExecutor.PendingMeansTimerArmed | src/services/python-executor.service.ts:136-207 | while the promise is pending, the timer is armed and the child alive |
| PythonExecutor.TimeoutKillsAndRejects | src/services/python-executor.service.ts:136-139 | a pending call whose timer fires kills the child and rejects with `Python process timeout after <timeout>ms` |
| PythonExecutor.TimerFiringAfterCloseIsHarmless | src/services/python-executor.service.ts:152-153 | `close` clears the timer: a later timeout changes nothing |
| PythonExecutor.CloseSettlesFromChunks | src/services/python-executor.service.ts:152-186 | on `close`, a non-zero or null code rejects with stderr, else stdout, else `Python process exited with code <code>`; code 0 resolves with the parsed stdout or rejects with `Invalid JSON response from Python` |
| PythonExecutor.KilledOnlyByTimeoutOrWrite | src/services/python-executor.service.ts:137-207 | the child is killed only by the timeout or by a failed write to stdin |
| PythonExecutor.Launcher.constructor | src/services/python-executor.service.ts:129-139 | spawning starts with empty accumulators, the timer armed and nothing settled |
| PythonExecutor.Launcher.SettleWith | src/services/python-executor.service.ts:128 | a promise settles once: a second resolve or reject is ignored |
| PythonExecutor.Launcher.OnStdout | src/services/python-executor.service.ts:142-144 | a stdout chunk is appended to stdout and changes nothing else |
| PythonExecutor.Launcher.OnStderr | src/services/python-executor.service.ts:147-149 | a stderr chunk is appended to stderr and changes nothing else |
| PythonExecutor.Launcher.OnClose | src/services/python-executor.service.ts:152-186 | `close` clears the timer and settles a pending call from the code and the accumulators |
| PythonExecutor.Launcher.OnSpawnError | src/services/python-executor.service.ts:189-198 | a spawn error clears the timer and rejects a pending call with that error |
| PythonExecutor.Launcher.OnTimer | src/services/python-executor.service.ts:136-139 | an armed timer kills the child and rejects a pending call with the timeout message; a cleared one does nothing |
| PythonExecutor.Launcher.OnStdinFailure | src/services/python-executor.service.ts:201-209 | a failed write clears the timer, kills the child and rejects a pending call with the error |
| PythonExecutor.Launcher.Deliver | src/services/python-executor.service.ts:128-210 | each callback keeps the fields equal to the replay of the callbacks so far |
| PythonExecutor.CreateErrorResponse | src/services/python-executor.service.ts:227-237 | an `ExecutionError` with the error's message (`Unknown error` for a non-Error) and its stack as details |
| PythonExecutor.ExecuteNeverRejects | src/services/python-executor.service.ts:40-49 | inside the `try` nothing escapes: a resolved document other than `null` is returned unchanged, a printed `null` becomes an `ExecutionError` with the TypeError of `result.success`, and a rejection becomes an `ExecutionError` carrying its message |
| PythonExecutor.Execute | src/services/python-executor.service.ts:28-50 | nothing is spawned, and the call rejects with the TypeError of `request.candleData.length`, exactly when the request is null or its `candleData` is missing or null; otherwise it spawns `<python> <dir>/standard/<name>.py` with the request and answers what the replayed callbacks settle to |
| PythonExecutor.UnknownScriptIsExecutionError | src/services/python-executor.service.ts:155-172 | an unknown name still spawns; the interpreter's complaint comes back as an `ExecutionError`, not as a not-found error |
| PythonExecutor.ListedNames | src/services/python-executor.service.ts:62-64 | a name is listed if and only if some `.py` file other than `__init__.py` strips to it |
| PythonExecutor.ListingBounds | src/services/python-executor.service.ts:56-72 | a failed directory read lists nothing, and a listing has at most one name per file |
| PythonExecutor.ListedNameResolvesToItsFile | src/services/python-executor.service.ts:218-220 | a listed name resolves back to its own file |
| PythonExecutor.DescribeRequest | src/services/python-executor.service.ts:85-91 | the metadata request carries `_mode: metadata` and the name |
| PythonExecutor.KeptExactlyTheSuccesses | src/services/python-executor.service.ts:100-116 | a document is kept if and only if some describe call resolved to it with a truthy `success` |
| PythonExecutor.BrokenScriptIsDropped | src/services/python-executor.service.ts:104-112 | one failing script is dropped without disturbing the rest of the batch |
| Protocol.ReplayScriptEvents | python-indicators/indicator_interface.py:114-183 | a script run, seen as its printed line and its exit status, settles the launcher with the close outcome of that line |
| Protocol.ScriptErrorBecomesExecutionError | python-indicators/indicator_interface.py:172-183 | a script that reports an error exits 1, and `execute` answers an `ExecutionError` whose message is the printed line |
| Protocol.ScriptSuccessIsReturnedUnchanged | python-indicators/indicator_interface.py:169-170 | a script that ends normally exits 0; when the line parses back, `execute` returns its document unchanged, except that a printed `null` becomes an `ExecutionError` |
| Protocol.DescribeRequestIsDescribeMode | python-indicators/indicator_interface.py:124-129 | the metadata request puts every script in describe mode: it prints its metadata with `success: True` |
| IndicatorInterface.Truncate | python-indicators/indicator_interface.py:147 | `int()` of a float truncates toward zero: the result lies within one of the float, on the side of zero |
| IndicatorInterface.PyInt | python-indicators/indicator_interface.py:147 | whatever it accepts (int, bool, float or numeric string), `int()` yields only an int, and it keeps an int as it is |
| IndicatorInterface.PyFloat | python-indicators/indicator_interface.py:148-152 | whatever it accepts (int, bool, float or numeric string), `float()` yields only a float, and it turns an int into the same number |
| IndicatorInterface.FirstFailure | python-indicators/indicator_interface.py:146-152 | the first candle at or after the start whose conversion fails, with every candle before it converting; None when all convert |
| IndicatorInterface.CoerceFieldsLookup | python-indicators/indicator_interface.py:147-152 | each of the six keys holds the conversion of its value (0 when absent), and every other key is untouched |
| IndicatorInterface.CoercedCandle | python-indicators/indicator_interface.py:147-152 | after coercion, `time` is an int and the prices and volume are floats, each the conversion of the original or zero; other fields stay as they were |
| IndicatorInterface.RewriteAll | python-indicators/indicator_interface.py:146-152 | the loop rewrites each candle where it stands and stops at the first failure, matching the all-candles conversion |
| IndicatorInterface.CoerceCandles | python-indicators/indicator_interface.py:146-152 | the candle loop leaves the list equal to the all-candles conversion, or reports its first failure |
| IndicatorInterface.BaseDescription | python-indicators/indicator_interface.py:53-112 | the base description names the indicator, upper-cases it for display, lists no parameters, and any params pass validation |
| IndicatorInterface.Run | python-indicators/indicator_interface.py:114-194 | `run`, candle loop included, prints exactly what the run specification says |
| IndicatorInterface.DescribeMode | python-indicators/indicator_interface.py:125-129 | a describe request prints `get_metadata()` plus `success: True`, whatever else the request holds |
| IndicatorInterface.RequestChecks | python-indicators/indicator_interface.py:132-139 | a missing or falsy `candleData` (the empty list included) raises `candleData is required`, a non-list raises `candleData must be an array`, and the emptiness check never fires |
| IndicatorInterface.InvalidParamsStopBeforeCalculate | python-indicators/indicator_interface.py:155-159 | params that fail validation give `Invalid parameters`, whatever the calculation would do |
| IndicatorInterface.InjectedMetadata | python-indicators/indicator_interface.py:162-167 | the printed `metadata` carries the name, version and candle count, whatever the calculation put there, and every other key of the result is kept |
| IndicatorInterface.StampLookups | python-indicators/indicator_interface.py:165-167 | the three stamped keys read back the name, the version and the count |
| IndicatorInterface.ExitStatusMatchesDocument | python-indicators/indicator_interface.py:172-183 | a run exits with status 1 if and only if it printed an error document |
| TalibWrapper.FillFrom | python-indicators/talib_wrapper.py:131-134 | the fill loop leaves NaN before the start and each index's entry from the start on |
| TalibWrapper.SmaFallback | python-indicators/talib_wrapper.py:129-134 | `_sma_fallback`'s loop computes the windowed mean of the specification at every index |
| TalibWrapper.SmaOfConstant | python-indicators/talib_wrapper.py:129-134 | the moving average of a constant series is that constant from index period-1 on and NaN before |
| TalibWrapper.SmaDefinedAt | python-indicators/talib_wrapper.py:131-133 | over prices, the moving average is defined at an index if and only if the index is period-1 or later |
| TalibWrapper.SmaLayout | python-indicators/talib_wrapper.py:129-134 | the result keeps the input's length and has n-period+1 defined entries when period ≤ n, none otherwise |
| TalibWrapper.EmaFallback | python-indicators/talib_wrapper.py:137-148 | `_ema_fallback`'s loop computes the seeded exponential average of the specification |
| TalibWrapper.EmaOfConstant | python-indicators/talib_wrapper.py:137-148 | the EMA of a constant price is that price at every defined index |
| TalibWrapper.EmaDefinedCount | python-indicators/talib_wrapper.py:139-146 | when period ≤ n, the EMA exists and has n-period+1 defined entries |
| TalibWrapper.MacdTooShort | python-indicators/talib_wrapper.py:186-195 | with fewer defined MACD values than the signal period, the signal line and the histogram are all NaN |
| TalibWrapper.MacdSignalRightAligned | python-indicators/talib_wrapper.py:197-205 | otherwise the signal line is defined on exactly its last k entries (k = defined MACD values - signal + 1), and the histogram is MACD minus signal |
| TalibWrapper.BbandsFallback | python-indicators/talib_wrapper.py:210-226 | the std loop and the bands compute the specification's three bands |
| TalibWrapper.BbandsInLockStep | python-indicators/talib_wrapper.py:217-224 | the three bands are defined at the same indices, from period-1 on, at `std·nbdevup` above and `std·nbdevdn` below the middle |
| TalibWrapper.TrueRange | python-indicators/talib_wrapper.py:236-243 | the true-range series keeps the input's length |
| TalibWrapper.AtrNonNegative | python-indicators/talib_wrapper.py:229-245 | with high ≥ low on every bar, every defined ATR value is non-negative |
| TalibWrapper.StochFallback | python-indicators/talib_wrapper.py:248-268 | the %K loop and the 3-bar SMA compute the specification's %K and %D |
| TalibWrapper.StochKInRange | python-indicators/talib_wrapper.py:257-263 | for bars whose close lies between low and high, %K is defined and stays within 0 to 100 |
| TalibWrapper.BandsInLockStep | python-indicators/talib_wrapper.py:48-59 | with or without TA-Lib, the three Bollinger bands are defined together |
| TalibWrapper.PublicFunctionsKeepLength | python-indicators/talib_wrapper.py:31-84 | with or without TA-Lib, SMA and BBANDS keep the input's length, and so do RSI, EMA and MACD whenever they do not raise |
| TalibWrapper.RsiFailsOnShortInput | python-indicators/talib_wrapper.py:151-161 | with a positive period, RSI raises exactly when TA-Lib is missing and the period is not below the number of prices, with the IndexError of the fallback's seed index |
| Standard.MetadataLookups | python-indicators/standard/sma.py:27-37 | a script's metadata names it, gives its display name and lists its parameter definitions |
| Standard.MetadataPlacement | python-indicators/standard/sma.py:27-37 | the metadata states the script's display type and chart type |
| Standard.SingleLineLookups | python-indicators/standard/sma.py:101-115 | a single-line document has `success: True`, the points, the metadata, and a line config whose title is the given one |
| Standard.LineLookups | python-indicators/standard/bollinger.py:146-154 | one line of a multi-line document carries its name, points and config |
| Standard.MultiLineLookups | python-indicators/standard/bollinger.py:142-179 | a multi-line document has `success: True`, its lines and its metadata |
| Standard.CoercedTime | python-indicators/standard/sma.py:86-87 | the time column reads back exactly the integer coercion stored |
| Standard.CoercedClose | python-indicators/standard/sma.py:86-87 | the close column reads back exactly the float coercion stored |
| Standard.CoercedCloseColumn | python-indicators/indicator_interface.py:146-153 | the candles `run` coerces keep their number and have a close column exactly when there is at least one, so `calculate`'s `KeyError('close')` comes only from an empty list |
| Standard.Defined | python-indicators/standard/sma.py:93-99 | a line has one point per defined value of the series |
| Standard.KeepDefined | python-indicators/standard/sma.py:93-99 | the NaN-skipping loop builds exactly the points of the specification |
| Standard.DefinedIndices | python-indicators/standard/sma.py:94-95 | the defined positions of a series, in increasing order, one per defined value and all of them |
| Standard.DefinedAtIndices | python-indicators/standard/sma.py:93-99 | the k-th point is the k-th defined value with its candle's time: no NaN is plotted, no value dropped, order kept |
| Standard.ConstantPoints | python-indicators/standard/sma.py:93-99 | a series whose defined values all equal c draws every point at c |
| Standard.DefinedEverywhere | python-indicators/standard/sma.py:93-99 | a series defined at every index keeps one point per candle |
| Standard.SameShapeSameTimes | python-indicators/standard/bollinger.py:127-140 | lines defined at the same indices get the same number of points, at the same times |
| Standard.SameShapeCount | python-indicators/standard/bollinger.py:127-140 | series defined at the same indices have equally many defined values |
| Sma.DefaultsAreValid | python-indicators/standard/sma.py:39-76 | the declared defaults lie within their bounds, and the empty params and every allowed period pass validation |
| Sma.RejectedParameters | python-indicators/standard/sma.py:71-76 | a float period such as 20.0 and a period below 1 are rejected, and params that are not a dict raise |
| Sma.ValidatedCalculation | python-indicators/standard/sma.py:78-115 | once validated, `calculate` fails if and only if the frame has no close column (no candles), with `KeyError('close')`; otherwise its points are the defined SMA values with their candles' times, `calculatedPoints` counts them, and the title names the period |
| Sma.FallbackPointCount | python-indicators/standard/sma.py:90-99 | without TA-Lib, n candles and period p give n-p+1 points when p ≤ n and none otherwise |
| Ema.DefaultsAreValid | python-indicators/standard/ema.py:38-74 | the declared defaults lie within their bounds, and the empty params and every allowed period pass validation |
| Ema.ValidatedCalculation | python-indicators/standard/ema.py:76-108 | once validated, `calculate` fails with `KeyError('close')` when the frame has no close column (no candles), and otherwise if and only if TA-Lib is missing and the period exceeds the candle count, with the fallback's IndexError |
| Ema.FlatPricesFlatLine | python-indicators/standard/ema.py:76-108 | without TA-Lib, candles that all close at one price give a flat line at that price with n-p+1 points |
| Bollinger.KeepBands | python-indicators/standard/bollinger.py:123-140 | wherever the middle band is defined, the loop adds a point to each of the three lines, so each line is the defined points of its band |
| Bollinger.DefaultsAreValid | python-indicators/standard/bollinger.py:93-102 | the defaults lie within their bounds and pass; validation accepts exactly an int period ≥ 1 and a positive number of deviations |
| Bollinger.ValidatedCalculation | python-indicators/standard/bollinger.py:104-179 | once validated, `calculate` fails if and only if the frame has no close column (no candles), with `KeyError('close')`; the three lines have equally many points at the same times |
| Bollinger.DocumentLookups | python-indicators/standard/bollinger.py:142-179 | the document's metadata holds the period, the deviation and the middle line's point count |
| Bollinger.MetadataCountsPoints | python-indicators/standard/bollinger.py:174-178 | `calculatedPoints` is the number of middle-band points |
| Bollinger.FallbackPointCount | python-indicators/standard/bollinger.py:116-140 | without TA-Lib, n candles and period p give n-p+1 points per line when p ≤ n and none otherwise |
| Rsi.ReadingsPartition | python-indicators/standard/rsi.py:143-150 | overbought if and only if above 70, oversold if and only if below 30, neutral in between |
| Rsi.ZeroRsiLosesItsReading | python-indicators/standard/rsi.py:139 | as written, an RSI of exactly 0.0 gets no interpretation; the corrected reading calls it oversold, and the two agree on every other value |
| Rsi.DocumentLookups | python-indicators/standard/rsi.py:118-141 | the document shows the points, the levels in the order overbought, 50, oversold, and the metadata |
| Rsi.DocumentValues | python-indicators/standard/rsi.py:121 | the document's `values` are the points |
| Rsi.DocumentLevels | python-indicators/standard/rsi.py:128-132 | the levels are overbought (red, dashed), 50 (grey, solid) and oversold (green, dashed) |
| Rsi.DocumentMetadata | python-indicators/standard/rsi.py:133-140 | the metadata echoes the period and levels, the current value and the point count |
| Rsi.DefaultsAreValid | python-indicators/standard/rsi.py:39-94 | the defaults lie within their bounds and pass; validation also accepts a period of 1, below the declared minimum of 2 |
| Rsi.ValidatedCalculation | python-indicators/standard/rsi.py:96-141 | a validated calculation raises `KeyError('close')` on a frame without a close column (no candles); otherwise it raises the fallback's IndexError exactly when TA-Lib is missing and the period is not below the number of candles, and else succeeds with the series' last value as the current one, the reading ignoring the levels asked for |
| Rsi.MetadataReading | python-indicators/standard/rsi.py:133-140 | the metadata reports the latest value, the point count and the corrected reading of a defined value, which is the code's own reading for every value except 0.0 |
| Rsi.MetadataCurrent | python-indicators/standard/rsi.py:116-137 | `currentValue` is the last value, or None when it is NaN |
| Rsi.MetadataPoints | python-indicators/standard/rsi.py:138 | `calculatedPoints` is the number of points |
| Rsi.MetadataInterpretation | python-indicators/standard/rsi.py:139 | `interpretation` is the corrected reading of the current value, and equals the code's truthiness-guarded reading for every value except 0.0 |
| Rsi.NoCandlesNoCloseColumn | python-indicators/standard/rsi.py:96-105 | with no candles, once the parameters are read, `df['close']` raises `KeyError('close')` before any RSI is computed, whatever the backend |
| Macd.KeepLines | python-indicators/standard/macd.py:135-154 | the loop adds a point to each line wherever that line is defined, independently of the other two |
| Macd.DefaultsAreValid | python-indicators/standard/macd.py:38-113 | the defaults lie within their bounds and pass; validation accepts exactly positive int periods with fast below slow |
| Macd.DeclaredRangesAdmitRejectedPairs | python-indicators/standard/macd.py:44-112 | fast 50 and slow 10 are both within their declared ranges, yet validation rejects the pair |
| Macd.ValidatedCalculation | python-indicators/standard/macd.py:115-195 | once validated, `calculate` fails if and only if the frame has no close column (no candles) or TA-Lib is missing and there are fewer candles than the slow period |
| Macd.ValidatedCalculationError | python-indicators/standard/macd.py:125-133 | that failure is `KeyError('close')` on a frame without a close column, and otherwise the fallback's IndexError for the first EMA that does not fit |
| Macd.MacdFailure | python-indicators/talib_wrapper.py:74-84 | MACD fails only in the fallback, exactly when the slow period does not fit, with that EMA's IndexError |
| Macd.CalculateFailsWithMacd | python-indicators/standard/macd.py:115-133 | past validation, `calculate` fails with `KeyError('close')` on a frame without a close column, and otherwise exactly when MACD does, with its error |
| Macd.FallbackFits | python-indicators/talib_wrapper.py:173-207 | `_macd_fallback` fails exactly when the slow period exceeds the number of prices, on the first EMA that does not fit |
| Macd.FallbackPointCounts | python-indicators/talib_wrapper.py:180-205 | with n ≥ slow prices, the MACD line has n-slow+1 points, and signal and histogram each n-slow-signal+2, or none when that is not positive |
| Macd.MacdSignalDefinedFrom | python-indicators/talib_wrapper.py:200-203 | the signal line is defined exactly on its last k entries |
| Macd.DocumentLookups | python-indicators/standard/macd.py:156-188 | the document lists three lines, MACD, Signal and Histogram, each with its own points |
| Macd.DocumentCount | python-indicators/standard/macd.py:189-194 | the metadata counts the MACD line's points |
| Macd.MetadataCount | python-indicators/standard/macd.py:193 | `calculatedPoints` is the given count |
| LegacyCalculate.MissingColumn | python-indicators/calculate.py:16-23 | the column lookup fails on a listed column some candle lacks, and finds nothing exactly when every candle carries all five columns |
| LegacyCalculate.Failure | python-indicators/calculate.py:153-157 | a failure document has `success` false and the exception's text as `error` |
| LegacyCalculate.NullableCount | python-indicators/calculate.py:33-40 | the number of non-null entries printed equals the number of defined points the series had, so `calculatedPoints` counts the printed values |
| LegacyCalculate.Answer | python-indicators/calculate.py:30-45 | every successful answer carries `success` true, its values and its metadata |
| LegacyCalculate.SingleMeta | python-indicators/calculate.py:38-44 | single-line metadata holds the period, the defined-point count and the number of candles |
| LegacyCalculate.MacdMeta | python-indicators/calculate.py:109-116 | MACD metadata holds the three periods and the number of candles |
| LegacyCalculate.BandMeta | python-indicators/calculate.py:138-144 | Bollinger metadata holds the period, the deviation and the number of candles |
| LegacyCalculate.NoCandlesFailOnClose | python-indicators/calculate.py:16-19 | with no candles the frame has no columns, so every request fails on `'close'` |
| LegacyCalculate.DispatchUnknown | python-indicators/calculate.py:147-151 | a name other than the five indicators answers `Unknown indicator: <name>` |
| LegacyCalculate.UnknownIndicator | python-indicators/calculate.py:147-174 | an unknown indicator in a readable request is answered as a failure, and the script still exits 0 |
| LegacyCalculate.SingleLineShape | python-indicators/calculate.py:26-45 | a single-line answer has one value per close, `calculatedPoints` equal to its non-null values and `dataPoints` equal to the candle count |
| LegacyCalculate.SingleLineIndicators | python-indicators/calculate.py:26-87 | sma, ema and rsi answer one value per candle and count the non-null ones |
| LegacyCalculate.DefaultsEchoed | python-indicators/calculate.py:27-121 | without parameters each indicator runs on its defaults (20, 20, 14, 12/26/9, 20 and 2), which the metadata echoes with the candle count |
| LegacyCalculate.ExitCodeRule | python-indicators/calculate.py:159-182 | the script exits 1 exactly when the request cannot be read, and then prints a failure; otherwise it exits 0 |
| LegacyCalculate.ReadFailures | python-indicators/calculate.py:162-167 | reading fails on unparsable input, then on a missing `indicator`, then on missing `candles`; `parameters` defaults to an empty object |
| LegacyCalculate.NullParametersFailInside | python-indicators/calculate.py:27-167 | a null `parameters` is not replaced by the default: `.get` raises inside the calculation, which answers an AttributeError failure |
| IndicatorService.AllMetadata | src/services/indicator.service.ts:43-155 | `getAllMetadata` answers one entry per indicator of the table, keyed by its name, in declaration order |
| IndicatorService.TableKeys | src/services/indicator.service.ts:43-148 | the table's keys are sma, ema, rsi, macd and bollinger, each once |
| IndicatorService.TableDefaults | src/services/indicator.service.ts:43-148 | every default lies within its min and max, and the MACD (12/26/9) and Bollinger (20 and 2) defaults match the ones calculate.py falls back on |
| IndicatorService.Request | src/services/indicator.service.ts:172-176 | the request written to the script carries the indicator and candles as given, and the parameters or `{}` when they are falsy |
| IndicatorService.RunAppend | src/services/indicator.service.ts:188-226 | the run handles callbacks one at a time, in arrival order |
| IndicatorService.SettlesOnlyOnClose | src/services/indicator.service.ts:202-221 | with no timer, the call settles exactly when the child has closed or failed to start, and stays pending otherwise |
| IndicatorService.FirstEndDecides | src/services/indicator.service.ts:202-221 | the first 'close' or 'error' decides the outcome; later ones change nothing |
| IndicatorService.OutputAccumulates | src/services/indicator.service.ts:191-200 | stdout and stderr are the in-order concatenations of their chunks |
| IndicatorService.PythonRun.constructor | src/services/indicator.service.ts:189-192 | a run starts with empty stdout and stderr and is not settled |
| IndicatorService.PythonRun.OnOut | src/services/indicator.service.ts:194-196 | a stdout chunk is appended to stdout; nothing else changes |
| IndicatorService.PythonRun.OnErrOut | src/services/indicator.service.ts:198-200 | a stderr chunk is appended to stderr; nothing else changes |
| IndicatorService.PythonRun.OnClose | src/services/indicator.service.ts:202-216 | the first settlement on 'close': a code other than 0 rejects with the code and stderr; 0 resolves with the parsed stdout or rejects with the parse error |
| IndicatorService.PythonRun.OnError | src/services/indicator.service.ts:218-221 | a spawn error rejects with that error, unless the call has already settled |
| IndicatorService.Calculate | src/services/indicator.service.ts:160-183 | spawns the interpreter (`python3` by default) on `<cwd>/python-indicators/calculate.py` with the request; the result is what the sequence of callbacks settles to |
| IndicatorService.RunScriptCallbacks | src/services/indicator.service.ts:188-226 | a printed line followed by 'close' settles as 'close' decides on that line |
| IndicatorService.ReadableRequestResolves | src/services/indicator.service.ts:202-211 | a request calculate.py can read resolves with the script's document, even when that document reports a failure |
| IndicatorService.UnreadableRequestLosesItsMessage | src/services/indicator.service.ts:202-207 | a request the script cannot read rejects with only `exited with code 1: `; the script's complaint on stdout is lost |
| IndicatorRoutes.Refusal | src/routes/indicator.ts:45-96 | a refusal carries the given status, `success` false, its error and its message |
| IndicatorRoutes.Data | src/routes/indicator.ts:21-56 | a data answer has status 200, `success` true and the data |
| IndicatorRoutes.MetadataRouteIsTable | src/routes/indicator.ts:17-24 | GET /metadata answers 200 with the whole table, keyed by the five indicator names |
| IndicatorRoutes.InheritedNamePassesCheck | src/routes/indicator.ts:44-56 | as written, an inherited name such as `toString` passes the `!metadata[name]` check and answers 200 without data, although no indicator has that name |
| IndicatorRoutes.MetadataByNameFindsOwnKeys | src/routes/indicator.ts:39-56 | the intended handler answers 200 exactly for the table's keys, with that key's entry, and 404 `Indicator not found` for every other name |
| IndicatorRoutes.HandlersAgreeOnOrdinaryNames | src/routes/indicator.ts:44-56 | the handler as written and as intended differ only on inherited names |
| IndicatorRoutes.MalformedRequestRefused | src/routes/indicator.ts:73-82 | a body without a truthy indicator or without a candles array is refused with 400, and the service is not called |
| IndicatorRoutes.SpreadKeepsResultSuccess | src/routes/indicator.ts:84-89 | the spread comes last, so the result's own `success` wins, and a result without one answers `true` |
| IndicatorRoutes.ScriptFailureAnswered200 | src/routes/indicator.ts:84-89 | a failure document from calculate.py is answered with status 200, `success` false and the script's error |
| IndicatorRoutes.ServiceFailureAnswered500 | src/routes/indicator.ts:90-97 | a rejected calculation answers 500 with the error's message |
| IndicatorRoutes.ListMatchesTable | src/routes/indicator.ts:104-118 | the list holds one summary per table key, in order, each named by its key, and `count` is five |
| MarketData.QueryText | src/routes/market-data.ts:29-35 | a query value passes exactly when it is a non-empty string, and then it is that string |
| MarketData.AdjustmentOnlyForOneDay | src/routes/market-data.ts:38-55 | the range is changed only for an intraday interval asked with `1d`; every other request keeps its range |
| MarketData.AdjustmentTable | src/routes/market-data.ts:43-51 | `1d` is widened to 1d, 5d, 5d, 1mo, 1mo, 1mo and 3mo for 1m, 5m, 15m, 30m, 1h, 2h and 4h |
| MarketData.RangeOr | src/routes/market-data.ts:58-85 | `range \|\| fallback` is the range when it is a non-empty string, and the fallback otherwise |
| MarketData.CacheKeyByRange | src/routes/market-data.ts:58 | for one symbol and interval, two ranges share a cache key exactly when they print alike; no range and `default` collide |
| MarketData.CandlesJson | src/routes/market-data.ts:79-81 | the data is the candles, one JSON object per candle, in order |
| MarketData.CandlesMetadata | src/routes/market-data.ts:82-88 | the metadata reports the symbol, the interval, `range \|\| '1mo'` and the number of candles |
| MarketData.SuccessBody | src/routes/market-data.ts:79-89 | a success body has `success` true, the data and the metadata |
| MarketData.CandlesBodyReports | src/routes/market-data.ts:79-89 | a candle answer carries the candles, their count and `range \|\| '1mo'` |
| MarketData.GetCandlesHandler | src/routes/market-data.ts:24-98 | the `/candles` handler's answer and the shared cache's new entries are those the route function gives for the old entries; the route uses the corrected fetch, so for an empty timestamp list it answers 404 where the code answers 500 (see `MarketData.EmptySeriesAnswers`) |
| MarketData.Store | src/routes/market-data.ts:69-94 | after a cache miss, the fetched candles are answered and stored as the route function says |
| MarketData.Send | src/routes/market-data.ts:92-94 | the response is stored under the cache key with the default TTL, then sent |
| MarketData.ValidationFirst | src/routes/market-data.ts:29-35 | a missing symbol, then a missing interval, is a 400 `ValidationError` raised before the cache or the data source is touched |
| MarketData.CacheHitSkipsFetch | src/routes/market-data.ts:61-66 | a live cached answer is sent as stored, and the data source is not asked |
| MarketData.NoCandlesNotFound | src/routes/market-data.ts:75-77 | a fetch that yields no candles answers 404 `DataNotFoundError` naming the symbol, and nothing is cached; as written this holds when timestamps exist but no row is complete, while an empty timestamp list answers 500 |
| MarketData.EmptySeriesAnswers | src/routes/market-data.ts:69-77 | for a usable chart result with no timestamps, the route answers 500 with "Failed to fetch candles for <symbol>" as written and the 404 as intended, caching nothing either way |
| MarketData.FetchedAnswerStored | src/routes/market-data.ts:79-94 | a fetched answer reports the candle count and `range \|\| '1mo'`, and with caching on it can be read back under its key at the same instant |
| MarketData.RepeatServedFromCache | src/routes/market-data.ts:58-94 | with caching on, the same request at the same instant after a fetch is a cache hit with the same body and no fetch |
| MarketData.QuoteRoute | src/routes/market-data.ts:107-129 | `/quote` refuses a missing symbol with 400, answers the source's quote as data, and passes the source's error on |
| MarketData.Categories | src/routes/market-data.ts:142 | `categories` lists the table's keys in order |
| MarketData.SymbolTotals | src/routes/market-data.ts:135-148 | four categories of 8, 10, 8 and 5 symbols, and `totalCount` is their sum, 31 |
| YahooFinance.RequestFor | src/services/yahoo-finance.service.ts:37-47 | the chart request names the symbol and interval, and the range `1mo` only when none is given |
| YahooFinance.HandleError | src/services/yahoo-finance.service.ts:217-235 | an HTTP error keeps its status (`Yahoo Finance API error: <status>`), a request without response becomes the timeout message, and anything else becomes the caller's generic message |
| YahooFinance.CandleAt | src/services/yahoo-finance.service.ts:100-107 | a kept candle takes its time and its five prices from the same index |
| YahooFinance.KeptIndices | src/services/yahoo-finance.service.ts:86-98 | the kept rows lie below the bound and are complete |
| YahooFinance.KeptIndicesExact | src/services/yahoo-finance.service.ts:86-98 | the kept rows are in strictly increasing order, and every complete row is kept |
| YahooFinance.Kept | src/services/yahoo-finance.service.ts:86-108 | the candles are those of the kept rows, in row order |
| YahooFinance.KeptPlusSkipped | src/services/yahoo-finance.service.ts:84-98 | every row is either kept or skipped: kept plus skipped is the number of timestamps |
| YahooFinance.Convert | src/services/yahoo-finance.service.ts:83-108 | the conversion loop yields one candle per complete row, in row order, and counts the skipped rows; the two add up to the number of timestamps |
| YahooFinance.HeadStaysFirst | src/services/yahoo-finance.service.ts:121 | a candle earlier than every other one stays first once another candle is merged in |
| YahooFinance.Insert | src/services/yahoo-finance.service.ts:121 | inserting into a list sorted by time keeps it sorted and adds exactly that candle |
| YahooFinance.SortByTime | src/services/yahoo-finance.service.ts:121 | the sort returns the same candles, sorted by time |
| YahooFinance.ArrangeRule | src/services/yahoo-finance.service.ts:117-122 | arranging keeps every candle; it sorts when there are two or more and the first two are not ascending, and otherwise leaves the list as it is |
| YahooFinance.LaterDisorderKept | src/services/yahoo-finance.service.ts:117-122 | with the first two ascending, disorder further on is returned unsorted |
| YahooFinance.CandlesOutcomes | src/services/yahoo-finance.service.ts:41-127 | a failed exchange keeps the renamed client error; an unusable document fails with the generic `Failed to fetch candles for <symbol>`; a usable one yields exactly its complete rows, in some order |
| YahooFinance.EmptyTimestampsFailAsWritten | src/services/yahoo-finance.service.ts:69-80 | as written, an empty timestamp array fails, because logging its first date throws; without that log the answer is an empty list |
| YahooFinance.AgreeWhenLoggable | src/services/yahoo-finance.service.ts:69-80 | whenever the debug log line can be built (the result is rejected earlier, or its first and last timestamps exist and render as dates), the code as written and as intended agree |
| YahooFinance.GetCandles | src/services/yahoo-finance.service.ts:36-128 | a fetch returns the corrected outcome of the request with its default range, the checks, the conversion loop and the conditional sort, and that is the code's own outcome whenever the debug log line can be built |
| YahooFinance.FetchedCandlesAreRows | src/services/yahoo-finance.service.ts:83-124 | every candle of a successful fetch is a complete row of the delivered document, and every complete row is there |
| VisionService.NewService | src/services/vision.service.ts:98-111 | the service is built exactly when the API key is set and non-empty, and then keeps that key; otherwise it throws the missing-key message |
| VisionService.CallsCarryTheImage | src/services/vision.service.ts:95-208 | both calls use `gpt-4o` with 2000 tokens and carry the image unchanged after their media-type prefix: JPEG for quick analysis, PNG for questions |
| VisionService.EmptyRepliesRejected | src/services/vision.service.ts:151-221 | a missing or empty reply fails with `No response from GPT-4 Vision` in both calls, and a client error reaches the caller unchanged |
| VisionService.AnswerPassedThrough | src/services/vision.service.ts:209-217 | a non-empty answer is returned exactly as the model gave it |
| VisionService.HistoryEmptyIffNoMessages | src/services/vision.service.ts:366-374 | the history section is empty exactly when there is no history or it has no messages |
| VisionService.HistoryGrows | src/services/vision.service.ts:369-374 | one more message appends one Q/A block, numbered one past the old count, and leaves the earlier section as it was |
| VisionService.HistoryStep | src/services/vision.service.ts:371-373 | each pass of the `forEach` appends the block of its message |
| VisionService.HistorySection | src/services/vision.service.ts:366-374 | the loop builds exactly the history section: the header, then one numbered Q/A block per message |
| VisionService.FormatDisplayedIndicators | src/services/vision.service.ts:409-430 | the loop over the entries builds the text of their lines joined by line breaks, or the placeholder, and stops with the `toFixed` TypeError at an SMA or EMA entry whose value is null |
| VisionService.ShownLinesExact | src/services/vision.service.ts:412-427 | a line is listed exactly when some entry gives it |
| VisionService.ShownLineRules | src/services/vision.service.ts:412-427 | names outside RSI, MACD, Bollinger, SMA and EMA are ignored; a missing or null RSI value prints `N/A`; SMA and EMA print their single value, else (when it is undefined) the last of a non-empty series, else nothing, and a null value throws |
| VisionService.ShownLineNamed | src/services/vision.service.ts:412-427 | every line begins with its entry's name, which names a known family |
| VisionService.JoinBegins | src/services/vision.service.ts:429 | joined lines begin with the first line |
| VisionService.ShownPlaceholder | src/services/vision.service.ts:429 | the section fails exactly when some entry throws; otherwise the placeholder is answered exactly when no entry gives a line |
| VisionService.AdxBands | src/services/vision.service.ts:443 | ADX above 25 is a strong trend, above 20 up to 25 a moderate one, and 20 or below a weak one |
| VisionService.AdxMonotone | src/services/vision.service.ts:443 | a larger ADX is never described as a weaker trend |
| VisionService.AdditionalPlaceholder | src/services/vision.service.ts:435-448 | a null ATR or ADX (which the front end sends below 15 or 28 candles) passes the `!== undefined` test and throws the `toFixed` TypeError; otherwise the placeholder is answered exactly when both are undefined, and with both present the ATR line comes first |
| VisionService.SkipSpaces | src/services/vision.service.ts:459 | `\s*` skips to the first non-space character at or after the position |
| VisionService.TrimEnd | src/services/vision.service.ts:459 | the lazy body followed by `\s*` loses exactly its trailing white space |
| VisionService.BodyStart | src/services/vision.service.ts:459 | the body starts within the reply, after the fence, the optional `json` tag and white space |
| VisionService.ParseQuickAnalysisResponse | src/services/vision.service.ts:453-488 | every failure of the parse is the one retry message |
| VisionService.ParseAccepts | src/services/vision.service.ts:456-472 | a reply is accepted exactly when its JSON text parses with the five required keys truthy, and is then that document; `disclaimer` is not checked |
| VisionService.UnfencedParsedWhole | src/services/vision.service.ts:456-462 | a reply without a fence is parsed whole |
| VisionService.NextFence | src/services/vision.service.ts:459 | the closing fence is the first one after the body's start |
| VisionService.TrimOneSpace | src/services/vision.service.ts:459 | a single trailing white-space character after the body is dropped by trimming |
| VisionService.FenceFound | src/services/vision.service.ts:459-462 | the extracted text is the trimmed text between the body's start and the next fence |
| VisionService.JsonTagSkipped | src/services/vision.service.ts:459 | after a `json` tag and a line break, the body starts at its first character |
| VisionService.BodyThenFence | src/services/vision.service.ts:459 | a body without backticks, followed by a line break and a fence, ends at that fence and keeps all its characters |
| VisionService.FenceOfParts | src/services/vision.service.ts:459-462 | a `json` fence around a body without backticks, with no backtick before it, yields the body |
| VisionService.FenceRoundTrip | src/services/vision.service.ts:459-462 | a body wrapped in a `json` fence, with any text around it that has no backtick, is extracted exactly |
| VisionService.FencedReplyAccepted | src/services/vision.service.ts:456-472 | a reply wrapping a complete document in a `json` fence, with prose around it, is accepted as that document |
| VisionRoutes.BadRequest | src/routes/vision.ts:19-85 | a refusal has status 400, `success` false and the message as `error` |
| VisionRoutes.Failure | src/routes/vision.ts:64-128 | a failure has status 500, `success` false and the error's message, or `Internal server error` when that is empty |
| VisionRoutes.Success | src/routes/vision.ts:58-119 | a success has status 200, `success` true and the data |
| VisionRoutes.AnalyzeValidationOrder | src/routes/vision.ts:18-44 | `/analyze` checks image, symbol, interval and technicalData in that order; the first missing one decides the 400 message, and the service is not called |
| VisionRoutes.AnalyzeCallsService | src/routes/vision.ts:50-72 | with every field present the service is called, with `[]` for absent indicators; its result answers 200 and its failure 500 |
| VisionRoutes.AskValidationOrder | src/routes/vision.ts:81-100 | `/ask` checks image, question and context in that order; a context without a truthy symbol or interval is refused like a missing one, and the service is not called |
| VisionRoutes.AskCallsService | src/routes/vision.ts:105-129 | past validation the service decides: 200 with the answer, or 500 with its message; absent history is sent as `[]` |
| VisionRoutes.AskDataEchoes | src/routes/vision.ts:114-117 | the data holds the answer and echoes the question unchanged |
| VisionRoutes.AnalyzeSuccessFlag | src/routes/vision.ts:13-73 | every `/analyze` answer reports `success` true exactly when its status is 200 |
| VisionRoutes.AskSuccessFlag | src/routes/vision.ts:76-130 | every `/ask` answer reports `success` true exactly when its status is 200 |
| VisionRoutes.HealthReport | src/routes/vision.ts:133-140 | `/health` answers 200 with `success` true and status `healthy` |
| RequestLogger.LevelBands | src/middleware/logger.ts:19-25 | error if and only if the status is 500 or above, warn if and only if it is 400 to 499, info otherwise |
| RequestLogger.LevelMonotone | src/middleware/logger.ts:19-25 | a worse status is never logged at a milder level |
| RequestLogger.RequestLogger | src/middleware/logger.ts:11-29 | the middleware always hands the request on |
| RequestLogger.FinishLine | src/middleware/logger.ts:12-17 | the line logged at `finish` is at the status's level and timed from entry |
| RequestLogger.MessageNamesRoute | src/middleware/logger.ts:17 | every message opens with the method and the URL, each followed by a space |
| RequestLogger.MessageShape | src/middleware/logger.ts:17 | the message is the route, then the status, then ` - <duration>ms` |
| RequestLogger.MessageNamesStatus | src/middleware/logger.ts:17 | for one route and duration, equal messages mean equal statuses |
| AppTime.CivilFromDays | public/app.js:106-108 | the UTC calendar date of a day count has a month from 1 to 12 and a day from 1 to 31 |
| AppTime.CivilRoundTrip | public/app.js:106-108 | the calendar date shown for a day identifies that day: counting days back from it returns the day |
| AppTime.EpochIsFirstOfJanuary1970 | public/app.js:104-108 | day 0 is 1970-01-01, and 1970-01-01 is day 0 |
| AppTime.ClockSplit | public/app.js:109-111 | a second of the day splits into hours below 24, minutes and seconds below 60, which add back up to it |
| AppTime.StampRoundTrip | public/app.js:104-111 | every field read off the shifted `Date` is within its range, and together they read back to the Unix time plus nine hours |
| AppTime.Pad2 | public/app.js:107-111 | `padStart(2, '0')` of a number below 100 has two characters |
| AppTime.Pad2Value | public/app.js:107-111 | a two-digit field reads back to its number |
| AppTime.Pad2Injective | public/app.js:107-111 | distinct numbers below 100 are padded to distinct fields |
| AppTime.EpochShown | public/app.js:103-113 | Unix time 0 is shown as `1970/01/01 09:00:00` |
| AppTime.InvalidShownAsNaN | public/app.js:104-112 | the text is all `NaN` fields exactly when a time falls outside the range of `Date` |
| AppTime.AfterYearFields | public/app.js:112 | after the year, the month, day, hours, minutes and seconds sit at fixed places in a 15-character tail |
| AppTime.AfterYearInjective | public/app.js:112 | equal tails after the year carry equal fields |
| AppTime.FormatInjective | public/app.js:103-113 | distinct candle times within the range of `Date` get distinct labels |
| AppLayout.DimensionsFloors | public/app.js:115-147 | no chart is smaller than 400 (main height), 150 (sub height) or 400 (width), measured or not |
| AppLayout.FallbackIff | public/app.js:117-131 | the fallback sizes are answered exactly when a wrapper is missing or reports a zero size |
| AppLayout.MeasuredLayout | public/app.js:133-146 | with every size measured, each chart takes its wrapper less 56, 76 or 24 pixels unless that falls below the minimum, and the wrapper heights are reported as measured |
| AppLayout.MeasuredMonotone | public/app.js:135-138 | a larger measured wrapper never gives a smaller chart |
| AppLayout.MetadataDecides | public/app.js:956-965 | a non-empty chart type from the metadata decides on its own, whatever the name; only `main` and `sub` are drawn |
| AppLayout.ConfiguredPlacement | public/app.js:32-87 | without a metadata chart type, sma, ema and bollinger go on the main chart, rsi and macd on the sub chart, and atr and adx are not drawn |
| AppLayout.UnknownOnMainChart | public/app.js:958-961 | a name without a configured chart type goes on the main chart |
| AppQuality.VisibleCount | public/app.js:1933-1935 | the number of candles in view is at most the number of candles |
| AppQuality.AllVisible | public/app.js:1933-1935 | every candle counts when the visible range spans them all |
| AppQuality.NoneVisible | public/app.js:1933-1935 | no candle counts when the visible range is empty |
| AppQuality.TooManyLacksMark | public/app.js:1908-1949 | the too-many warning does not contain the text the validity rule looks for |
| AppQuality.InsufficientLacksMark | public/app.js:1918-1949 | the too-few warning does not contain that text |
| AppQuality.ZoomedOutLacksMark | public/app.js:1938-1949 | the zoomed-out warning does not contain that text |
| AppQuality.AdvisoryHasMark | public/app.js:1924-1949 | the advisory for fewer than 100 candles contains that text |
| AppQuality.ValidIff | public/app.js:1891-1957 | the data passes exactly when it is loaded, has from 50 up to the mode's maximum (200, or 500 in high-resolution mode) candles and, where the visible range is known, at least 20 in view; the advisory for fewer than 100 alone does not fail it |
| AppQuality.MinimumDataReported | public/app.js:1896-1956 | `hasMinimumData` and `candleCount` are reported only for loaded data; the former says there are at least 50 candles |
| AppQuality.WarningCounts | public/app.js:1896-1947 | nothing loaded gives exactly one warning and one suggestion; loaded data gets one warning per broken rule, with three suggestions for too many candles in standard mode and two in high-resolution mode, one for too few or fewer than recommended, and two for zoomed out |
| AppQuality.InvalidHasWarnings | public/app.js:1896-1949 | a failed check always carries a warning |
| AppQuality.HdSuggestedOnlyInStandardMode | public/app.js:1907-1914 | the high-resolution mode is suggested exactly in standard mode with more than 200 candles |
| AppQuality.PreAnalysisDecision | public/app.js:2044-2073 | the analysis goes on without the dialog exactly when the check found no warning, or warnings are set to be skipped and there are at least 50 candles; otherwise the user's answer decides, so the final `return true` is never reached |
| AppQuality.NoDataAsks | public/app.js:2046-2069 | with nothing loaded the dialog is always shown, even when warnings are skipped; the guide is shown until it has been seen |
| AppIndicators.TrueRange | public/app.js:2110-2170 | the true range is non-negative and at least the bar's range and the distance of its high and its low from the previous close |
| AppIndicators.PlusDm | public/app.js:2151-2156 | `+DM` is never negative |
| AppIndicators.MinusDm | public/app.js:2158-2163 | `-DM` is never negative |
| AppIndicators.Steps | public/app.js:2105-2172 | one value per pair of consecutive candles, from the second candle on |
| AppIndicators.StepsPrefix | public/app.js:2105-2172 | each pass of the first loop appends the value of its pair |
| AppIndicators.WilderAverageBounds | public/app.js:2121-2225 | the mean of the first `period` values followed by Wilder's update stays within any bounds the values keep |
| AppIndicators.TrueRanges | public/app.js:2103-2118 | the first loop of `calculateATR` yields the true ranges of consecutive candles |
| AppIndicators.SmoothedAverage | public/app.js:2121-2225 | the closing loop computes the Wilder average of its values |
| AppIndicators.CalculateAtr | public/app.js:2098-2129 | `calculateATR` returns the ATR of the candles, or null with fewer than `period + 1` of them |
| AppIndicators.AtrBounds | public/app.js:2098-2129 | ATR stays within the bounds of the true ranges |
| AppIndicators.AtrConstant | public/app.js:2098-2129 | a constant true range is its own ATR |
| AppIndicators.AtrNonNegative | public/app.js:2098-2129 | ATR is never negative |
| AppIndicators.AtrGuard | public/app.js:2099-2101 | ATR is null exactly when there are not more candles than the period (or the period is 0) |
| AppIndicators.WilderSums | public/app.js:2180-2197 | the running sums have one value for the first `period` values and one for each further value |
| AppIndicators.WilderSumsNonNegative | public/app.js:2180-2197 | running sums of non-negative values stay non-negative |
| AppIndicators.WilderSumsPrefix | public/app.js:2189-2197 | each pass of the smoothing loop appends `sum - sum / period + value` |
| AppIndicators.Smooth | public/app.js:2175-2197 | the smoothing loop builds the running sums of `+DM`, `-DM` and TR |
| AppIndicators.DxSeries | public/app.js:2200-2214 | the `DX` series has one value per running sum |
| AppIndicators.DirectionalIndex | public/app.js:2199-2214 | the `+DI`/`-DI` loop and the `DX` loop build the `DX` series of the running sums |
| AppIndicators.AdxSecondGuardUnreachable | public/app.js:2138-2219 | past the first guard the `DX` series has at least `period` values, so the second guard never fires |
| AppIndicators.DxRange | public/app.js:2211-2213 | a `DX` of non-negative `+DI` and `-DI` lies between 0 and 100 |
| AppIndicators.DiNonNegative | public/app.js:2204-2205 | a `DI` of a non-negative movement and range is non-negative |
| AppIndicators.DxSeriesRange | public/app.js:2203-2214 | every `DX` of non-negative running sums lies between 0 and 100 |
| AppIndicators.Movements | public/app.js:2142-2172 | the first loop of `calculateADX` yields the `+DM`, `-DM` and TR series of consecutive candles |
| AppIndicators.CalculateAdx | public/app.js:2137-2227 | `calculateADX` returns the ADX of the candles, or null with fewer than twice the period |
| AppIndicators.AdxRange | public/app.js:2137-2227 | ADX always lies between 0 and 100 |

## Left out

- **Operating-system processes.** Spawning, pipes, `kill` and timers are out. A child is the sequence of callbacks Node delivers for it, and the timeout firing is one more callback. Whether a killed process really ends is not modelled.
- **Concurrency.** The `Promise.all` fan-out of `getIndicatorsMetadata` is a sequential fold over the listing. The kept results do not depend on completion order, and interleavings are not modelled.
- **Numerics.** The following are function parameters, and only the structure of their results is proved (lengths, NaN layout, alignment):
  - TA-Lib's native functions;
  - numpy's `std`;
  - the float value of a pandas column.
- **Prices are real numbers.** Floating-point rounding, overflow and NaN arithmetic are not modelled. NaN is `None`.
- **`JSON.parse`, `JSON.stringify`, `json.loads` and `json.dumps`** are parameters, as is number formatting: `toFixed`, and Python's `str` of a float. The two-digit padding of `formatTimeToJST` is modelled in full.
- **External clients are parameters.** The OpenAI client, the axios client behind `getCandles`, and `getQuote`, whose result `/quote` passes on, are all given as functions. `getQuote`'s own field mapping is not modelled.
- **Prompt texts.** The texts of `createQuickAnalysisPrompt` and `createAskAIPrompt` are not modelled. Only these pieces are:
  - the history section;
  - the two indicator summaries;
  - the ADX banding.
- **Debug-file write.** The write in `parseQuickAnalysisResponse` is not modelled. When it succeeds, the error thrown is the same; when `mkdirSync` or `writeFileSync` throws, that file-system error replaces the parse failure, and the model does not capture this.
- **Express plumbing and logging.** Helmet, CORS, rate limiting, static serving, the winston logger and every `logger.*` call are out. A handler is a function from its request to the status and body it answers.
- **Clocks are parameters.** `Date.now()` (the cache's expiry and the request logger's durations), `new Date().toISOString()` and the cache's `setInterval` sweep are passed in. The sweep is a call to `Cleanup`.
- **Browser state is a parameter.** The DOM, Lightweight Charts, `localStorage` values, the first-use guide and the warning dialog are given as inputs. So is the user's answer to the dialog, and so is the chart's visible range. `addMainChartIndicator` and `addSubChartIndicator` are reduced to the chart they draw on.
- **AppTime.FormatTimeToJst: whole seconds only.** Unix times are integer seconds. A fractional time, which shifts the `Date` by a fraction of a second, is not modelled.
- **AppIndicators.Atr and AppIndicators.Adx: falsy `data` and period 0.** A falsy `data` argument (null or undefined) is not modelled; the candles are always a list. A period of 0 is modelled as no value, where the source divides by zero and returns NaN.
- **Ema: the code after `calculate`'s first `return`** is unreachable and is not modelled.
- **Type-only declarations.** `src/types/*.ts` only gives shapes to the datatypes.
- **Front-end calls to routes the server lacks.** `public/app.js` calls `/indicator/execute` and reads `data.indicators`, but the server does not offer them. These are front-end concerns outside the model.
- GetCandles: follows the corrected fetch. As written, a usable result whose timestamp list is empty, or whose first or last timestamp is outside a `Date`'s range, fails with "Failed to fetch candles for <symbol>", where the model returns the candles (see Findings and `YahooFinance.AgreeWhenLoggable`).
- GetCandlesHandler: answers from the corrected fetch, so for an empty timestamp list it answers the 404 `DataNotFoundError` where the code answers 500 (see `MarketData.EmptySeriesAnswers`).
- CandlesRoute: the same difference as `GetCandlesHandler`, since it is the function that handler is proved against.
- NoCandlesNotFound: its premise, a fetch that yields no candles, includes the empty timestamp list, for which the code as written answers 500 instead of 404.
- MetadataReading: reports the corrected reading; for an RSI of exactly 0.0 the code gives `interpretation: None`, where the model gives the oversold reading (see Findings).
- MetadataInterpretation: the same difference at an RSI of exactly 0.0.
- RsiMetadata: builds the metadata with the corrected reading, so it differs from the code at an RSI of exactly 0.0.
- ValidatedCalculation (Rsi): the RSI document it ensures carries the corrected reading, so it differs from the code at an RSI of exactly 0.0.
- PublicFunctionsKeepLength: TA-Lib's native functions and the values of `_rsi_fallback` past its seed index are assumed to return a series as long as their input, without raising.
- ShownLine: a null entry inside an SMA or EMA `values` list is not modelled; the front end sends only `value`.
- AdditionalText: a missing `additionalIndicators` object, which makes the property reads throw, is not modelled; the front end always sends it.
- AsciiUpper: maps only the ASCII letters a-z. Python's `str.upper()` also capitalises other letters ('é' to 'É') and can lengthen a string ('ß' to 'SS'); the script names it is applied to are ASCII.
- ScriptPath: joins the directory, `standard/` and the file name as text, where `path.join` also normalises separators and `..` segments.
- **The legacy script needs TA-Lib.** python-indicators/calculate.py imports `talib` at the top level, so without TA-Lib it fails before it prints any document; the model of that script assumes TA-Lib is importable.

## Findings

| source | as written | input that shows it | evidently intended | confidence | as-written member | corrected member |
|---|---|---|---|---|---|---|
| python-indicators/standard/rsi.py:139 | `interpretation` is computed only when `current_value` is truthy | a latest RSI of exactly 0.0 (every bar of the window a loss) gets `interpretation: None` instead of the oversold reading (`Rsi.ZeroRsiLosesItsReading`) | test `current_value is not None`, so that 0.0 reads as oversold | medium, not executed | Rsi.InterpretationAsWritten | Rsi.Interpretation |
| src/routes/indicator.ts:44 | `if (!metadata[name])` tests a plain object, so inherited properties count as found | `GET /metadata/toString` answers 200 `{success: true}` without `data` (`IndicatorRoutes.InheritedNamePassesCheck`) | only the table's own keys are found, and every other name gets the 404 (`IndicatorRoutes.MetadataByNameFindsOwnKeys`) | high, not executed | IndicatorRoutes.MetadataByNameAsWritten | IndicatorRoutes.MetadataByName |
| src/services/yahoo-finance.service.ts:69-80 | the debug log renders `new Date(timestamps[0] * 1000).toISOString()` before the candles are converted | a chart result with `timestamp: []` makes `toISOString` throw, so the fetch fails with `Failed to fetch candles for <symbol>` instead of yielding no candles (`YahooFinance.EmptyTimestampsFailAsWritten`) | logging cannot fail the fetch: an empty series yields `[]`, which `/candles` answers with its 404 `DataNotFoundError` (`YahooFinance.CandlesOutcomes`) | medium, not executed | YahooFinance.CandlesAsWritten | YahooFinance.Candles |
