# axis-exporter, modelled in Dafny

A model of the request handling of the Axis camera Prometheus exporter
(`src/axis_exporter/exporter.py`), with proofs of what it does.

A scrape request names a camera in its query string: `camera_host`,
`camera_port`, `camera_proto`, `camera_user` and `camera_password`. The
user and password can also come from the `AXIS_USERNAME` and
`AXIS_PASSWORD` environment variables. The handler then does four things:

- It fetches the camera's parameter list and reads the product number from it.
- It fetches the temperature-control status.
- It sets one `axis_temp` gauge per sensor, and one `axis_heater_status` and one `axis_heater_timer` gauge per heater.
- It answers with the Prometheus exposition.

The camera answers in a flat `dotted.key=value` text format. `parse_response` turns that text into nested dictionaries.

The project has five modules:

- `Wrappers` (`wrappers.dfy`): `Option` and `Result`.
- `Text` (`text.dfy`): the Python string operations the exporter uses, written out:
  - `str.strip()`, with Python's whitespace set;
  - `str.split(sep)`, which never returns an empty list;
  - `a, b = s.split('=', 1)`, which raises when there is no `=`;
  - `int()` on a string, which skips a narrower whitespace set than `strip()`;
  - the decimal rendering of an int.
- `FlatKey` (`flat_key.dfy`): `parse_response`. The loop over lines is the method `ParseResponse`, proved equal to the fold `Parse`. The descent through key components is `Assign`. Python dictionaries keep insertion order, so a dictionary is an association list: a key that is written again keeps its place, and a new key goes last.
- `Metrics` (`metrics.dfy`): the sensor and heater loops as pure functions from the parsed trees to the list of gauge settings (`Observation`s), made in order.
- `ScrapeHandler` (`scrape_handler.dfy`): `do_GET` and `return_error`.
  - The class `RequestHandler` keeps a log of the responses it writes (`sent`), the requests it makes of the camera (`fetched`) and the gauge values it sets (`observed`).
  - Its methods follow the steps of `do_GET`. `DoGet` is proved to extend those logs exactly as the function `Handle` says.
  - The camera is a `Device`: its answer to each of the two requests, or `Unreachable`.
  - An exception that escapes `do_GET` is the `Crash` the request ends with.

### Where the code behaves unexpectedly

This model follows the code.

- Empty or whitespace-only camera text makes `parse_response` raise. `"".strip().split('\n')` is `[""]`, and that line has no `=` (`FlatKey.BlankResponseFails`). Blank lines are not skipped either.
- A request can be answered with up to three 500s: one for the site parameters, one for the user and one for the password (`ScrapeHandler.ErrorsFirst`).
- A `camera_port` that is not an integer is not a 500. The `ValueError` escapes `except KeyError`, so nothing is sent (`ScrapeHandler.BadPortAborts`).
- A request for `/` gets its 500s, then the 200 status line and the `text/html` header. Writing the page then raises `TypeError`, because `wfile.write` is given a `str`. So the page is never sent (`ScrapeHandler.RootPath`).
- A camera that cannot be reached, or whose text does not parse or lacks a section, gets no error response. The exception escapes `do_GET` after whatever was sent and set before it (`ScrapeHandler.ScrapeRecords`).

## Model

| member | source | states |
|---|---|---|
| Text.Strip | src/axis_exporter/exporter.py:33 | `strip()` keeps the part between the leading and the trailing whitespace, and what is left neither starts nor ends with whitespace |
| Text.StripBlank | src/axis_exporter/exporter.py:33 | `strip()` gives the empty string exactly when the text is all whitespace |
| Text.StripUnchanged | src/axis_exporter/exporter.py:54 | a value with no surrounding whitespace is stored unchanged |
| Text.FirstIndex | src/axis_exporter/exporter.py:41 | the position of the first separator: none exactly when there is none, and no separator before it |
| Text.Split | src/axis_exporter/exporter.py:33 | `split(sep)` gives at least one piece, no piece holds `sep`, and joining the pieces with `sep` gives the text back |
| Text.SplitJoin | src/axis_exporter/exporter.py:44 | splitting a join of separator-free pieces gives the pieces back |
| Text.SplitOnce | src/axis_exporter/exporter.py:41 | `split('=', 1)` unpacks into two exactly when there is an `=`; the key holds no `=`, and key + `=` + value is the line |
| Text.SplitOnceUnique | src/axis_exporter/exporter.py:41 | the split is at the first `=`: any separator-free head gives back that head and the whole rest |
| Text.NatToString | src/axis_exporter/exporter.py:117 | the rendering of a natural is non-empty digits of that value, with no leading zero |
| Text.IntToString | src/axis_exporter/exporter.py:117 | `"{}".format(port)` writes a non-empty string of digits, with a leading `-` exactly for a negative port |
| Text.ParseIntDigits | src/axis_exporter/exporter.py:91 | `int()` of a digit string is its value |
| Text.ParseInt | src/axis_exporter/exporter.py:91 | `int()` skips only its own whitespace set, which leaves out U+001C to U+001F; text it accepts is, once that is trimmed, non-empty and ends in a digit, and only a leading `-` gives a negative number |
| Text.ParseIntNegative | src/axis_exporter/exporter.py:91 | `int()` of `-` and a digit string is the negated value |
| Text.ParseIntToString | src/axis_exporter/exporter.py:91 | `int()` reads back the number `"{}".format` writes, for every int |
| Text.ParseIntStrips | src/axis_exporter/exporter.py:91 | text `int()` accepts has the same surroundings for `int()` and `strip()`, and `int()` of the stripped text is the same number |
| Text.ParseIntSeparator | src/axis_exporter/exporter.py:91 | `"\x1c5"` strips to `"5"`, yet `int()` rejects it |
| FlatKey.Put | src/axis_exporter/exporter.py:54 | after `d[k] = t`, `k` holds `t`, every other key is unchanged, and an existing key keeps its place while a new one is last |
| FlatKey.GetFinds | src/axis_exporter/exporter.py:49-51 | `d[k]` is found exactly when `k` is a key of `d`, and it is the tree of the first entry with that key |
| FlatKey.Classify | src/axis_exporter/exporter.py:41-44 | a line is malformed exactly when it has no `=`; otherwise the key is the line up to its first `=` |
| FlatKey.ParseResponse | src/axis_exporter/exporter.py:31-56 | the loop over the lines returns what the fold `Parse` gives |
| FlatKey.ParseAppend | src/axis_exporter/exporter.py:39-54 | parsing `a + b` is parsing `a`, then `b` from where `a` left off; an error in `a` is final |
| FlatKey.ParseFrom | src/axis_exporter/exporter.py:39-54 | a parse that fails for want of an `=` names a line it was given, and that line has no `=` |
| FlatKey.Lines | src/axis_exporter/exporter.py:33 | `strip().split('\n')` gives at least one line, none holding a newline, and joined with newlines they are the stripped text |
| FlatKey.Parse | src/axis_exporter/exporter.py:31-56 | a response that fails for want of an `=` names one of its own lines, and that line has no `=` |
| FlatKey.AtPut | src/axis_exporter/exporter.py:54 | after `d[k] = t`, a path below `k` leads into `t`, and any other path is unchanged |
| FlatKey.AssignFails | src/axis_exporter/exporter.py:48-51 | the descent fails exactly when a component above the last one already holds a string |
| FlatKey.Assign | src/axis_exporter/exporter.py:47-54 | the only way the descent fails is a `TypeError` at a component above the last one |
| FlatKey.AssignStores | src/axis_exporter/exporter.py:47-54 | a successful descent leaves the value at the end of the key path, replacing whatever was there, including a sub-dictionary |
| FlatKey.AssignKeepsOthers | src/axis_exporter/exporter.py:47-54 | a successful descent changes nothing at a path that is neither above nor below its own, so sibling entries survive |
| FlatKey.AssignReusesDicts | src/axis_exporter/exporter.py:48-51 | every dictionary on the way down is reused: it keeps its keys in their order, and the next component is added last if it was missing |
| FlatKey.AssignTwice | src/axis_exporter/exporter.py:54 | storing twice at one key path is storing the second value once |
| FlatKey.PutTwice | src/axis_exporter/exporter.py:54 | `d[k] = a; d[k] = b` is `d[k] = b` |
| FlatKey.FirstEqualsSplits | src/axis_exporter/exporter.py:41-54 | only the first `=` splits a line: the untrimmed key before it, and the rest, later `=` included, trimmed |
| FlatKey.NoDelimiterFails | src/axis_exporter/exporter.py:41 | a line without `=` makes the parse fail; if every earlier line was stored, the error is that line's |
| FlatKey.BlankResponseFails | src/axis_exporter/exporter.py:33-41 | empty or whitespace-only text is the one line `""`, and the parse fails on it |
| FlatKey.LaterLineWins | src/axis_exporter/exporter.py:39-54 | in a successful parse, a line's trimmed value is found at its key path unless a later line writes at, above or below that path |
| FlatKey.LaterLinesKeep | src/axis_exporter/exporter.py:39-54 | lines that do not touch a stored path leave its value in place |
| FlatKey.ClassifiedLastWins | src/axis_exporter/exporter.py:54 | of two consecutive lines with the same key, the first leaves no trace |
| FlatKey.SameKeyLastWins | src/axis_exporter/exporter.py:54 | `key=v1` followed by `key=v2` parses as `key=v2` alone |
| FlatKey.LineExample | src/axis_exporter/exporter.py:41-44 | the line `key=value` stores `value` at the key's dotted components |
| FlatKey.LineThree | src/axis_exporter/exporter.py:41-44 | the line `a.b.c=v` stores `v` at the path `[a, b, c]` |
| FlatKey.LineOne | src/axis_exporter/exporter.py:41-54 | the line `k=v` stores `v` at `k` in the empty dictionary |
| FlatKey.AssignFreshChain | src/axis_exporter/exporter.py:48-54 | a descent through missing components creates one new dictionary per component |
| FlatKey.AssignSibling | src/axis_exporter/exporter.py:48-54 | a descent through existing dictionaries adds a sibling beside the old leaf |
| FlatKey.SharedPrefixExample | src/axis_exporter/exporter.py:48-51 | `a.b.c=v1` and `a.b.d=v2` parse to `{a: {b: {c: v1, d: v2}}}` |
| FlatKey.OverwriteSingle | src/axis_exporter/exporter.py:54 | a leaf at a key that held a sub-dictionary replaces it |
| FlatKey.LastWriteExample | src/axis_exporter/exporter.py:54 | `k=v1` then `k=v2` parses to `{k: v2}` |
| FlatKey.ParseFromWellFormed | src/axis_exporter/exporter.py:39-54 | every successful parse gives distinct keys free of `.` and `=`, trimmed values and no empty sub-dictionary |
| FlatKey.FlattenParses | src/axis_exporter/exporter.py:31-56 | such a dictionary written back as `key=value` lines, depth first in dictionary order, parses to itself |
| FlatKey.ParseFlattenParse | src/axis_exporter/exporter.py:31-56 | parsing a response, writing the result back as lines and parsing those again gives the same dictionary |
| Metrics.Index | src/axis_exporter/exporter.py:123 | `t[key]` succeeds exactly when `t` is a dictionary with `key`, and gives what is at `key` |
| Metrics.IndexString | src/axis_exporter/exporter.py:130-132 | a string lookup succeeds exactly when a string is at `key` |
| Metrics.ProductName | src/axis_exporter/exporter.py:123 | the model is found exactly when a string is at `root.Brand.ProdNbr`; a missing section is an error, not a default |
| Metrics.StatusCode | src/axis_exporter/exporter.py:135-140 | the heater state is 0 exactly for `Stopped` and 1 exactly for `Running`, otherwise 2; it is always in 0..2 |
| Metrics.SensorReading | src/axis_exporter/exporter.py:130-132 | a sensor gives an `axis_temp` observation exactly when it has string `Name` and `Fahrenheit`, labelled (model, host, name), with the raw value |
| Metrics.HeaterStatus | src/axis_exporter/exporter.py:135-144 | a heater with a `Status` gives an `axis_heater_status` observation labelled (model, host, heater key), with the state code |
| Metrics.HeaterTimer | src/axis_exporter/exporter.py:146-148 | a heater with a string `TimeUntilStop` gives an `axis_heater_timer` observation labelled (model, host, heater key), with the raw value |
| Metrics.SensorObservations | src/axis_exporter/exporter.py:129-132 | the i-th observation is the i-th sensor's reading; the loop finishes exactly when every reading succeeds, and otherwise fails on the first one that does not |
| Metrics.HeaterObservations | src/axis_exporter/exporter.py:134-148 | at most two observations per heater, exactly two each when the loop finishes |
| Metrics.HeaterPair | src/axis_exporter/exporter.py:134-148 | heater i gives observation 2i, its status, and 2i+1, its timer |
| Metrics.HeaterFailure | src/axis_exporter/exporter.py:134-148 | a failed heater loop stopped at the heater after the last complete pair: on its status or on its timer |
| Metrics.MapReadings | src/axis_exporter/exporter.py:129-148 | a missing `Sensor` section fails before any observation; a finished mapping is the readings of the `Sensor` section in order followed by the status and timer pairs of the `Heater` section, one per sensor and two per heater; a missing `Heater` section fails after the sensors |
| Metrics.HeaterDeclared | src/axis_exporter/exporter.py:142-148 | every heater observation names a declared gauge with its label names |
| Metrics.ObservationsDeclared | src/axis_exporter/exporter.py:129-148 | every observation names one of the three gauges, with exactly the label names it declares |
| ScrapeHandler.ReadSite | src/axis_exporter/exporter.py:89-96 | host, port and protocol are read in that order; the first missing one is the error, and a port `int()` rejects is its own error |
| ScrapeHandler.Credential | src/axis_exporter/exporter.py:98-112 | a credential set in the environment is used as it is; otherwise the query's first value, or nothing |
| ScrapeHandler.ScrapeAllowed | src/axis_exporter/exporter.py:115 | when the guard passes, none of the three checks before it sent a 500 |
| ScrapeHandler.CameraUrlParts | src/axis_exporter/exporter.py:117 | the camera URL is `proto://host:` followed by the port, written so that `int()` reads the same number back |
| ScrapeHandler.ServerErrors | src/axis_exporter/exporter.py:66-68 | n calls of `return_error` write n 500s |
| ScrapeHandler.ModelFrom | src/axis_exporter/exporter.py:119-123 | an unreachable camera is `DeviceError`, unparsable text is the parse error, text that parses gives the string at `root.Brand.ProdNbr` when there is one and the lookup error otherwise |
| ScrapeHandler.ReadingsFrom | src/axis_exporter/exporter.py:125-127 | an unreachable camera is `DeviceError`; the temperature tree is the parse of the camera's text when it parses, and the parse error otherwise |
| ScrapeHandler.Measure | src/axis_exporter/exporter.py:125-158 | the temperature stage makes one request, and answers 200 with the exposition exactly when it does not crash |
| ScrapeHandler.Scrape | src/axis_exporter/exporter.py:117-158 | the parameter-list request comes first; the temperature request follows exactly when the model was found; 200 is sent exactly when nothing crashed |
| ScrapeHandler.Respond | src/axis_exporter/exporter.py:115-175 | after the checks at most one response is sent; the camera is contacted exactly when the guard passes; with no failed check, a request that does not crash is answered |
| ScrapeHandler.Handle | src/axis_exporter/exporter.py:70-175 | a request that does not crash gets at least one response, and a request that reaches the camera gets no 500 |
| ScrapeHandler.RequestHandler.Send | src/axis_exporter/exporter.py:155-157 | one response is added to the log, and nothing else changes |
| ScrapeHandler.RequestHandler.ReturnError | src/axis_exporter/exporter.py:66-68 | one 500 is added to the log, and nothing else changes |
| ScrapeHandler.RequestHandler.Get | src/axis_exporter/exporter.py:120 | the request is logged whatever the camera answers |
| ScrapeHandler.RequestHandler.ReadSiteParameters | src/axis_exporter/exporter.py:89-96 | the site is `ReadSite`'s, with one 500 when a parameter is missing and none for a bad port |
| ScrapeHandler.RequestHandler.ReadCredential | src/axis_exporter/exporter.py:98-112 | the credential is `Credential`'s, with one 500 when there is none |
| ScrapeHandler.RequestHandler.FetchModel | src/axis_exporter/exporter.py:119-123 | logs the parameter-list request, and returns `ModelFrom` of the answer |
| ScrapeHandler.RequestHandler.FetchReadings | src/axis_exporter/exporter.py:125-127 | logs the temperature request, and returns `ReadingsFrom` of the answer |
| ScrapeHandler.RequestHandler.MeasureCamera | src/axis_exporter/exporter.py:125-158 | extends the logs by exactly what `Measure` gives |
| ScrapeHandler.RequestHandler.ScrapeCamera | src/axis_exporter/exporter.py:117-158 | extends the logs by exactly what `Scrape` gives |
| ScrapeHandler.RequestHandler.Answer | src/axis_exporter/exporter.py:115-175 | extends the logs by exactly what `Respond` gives |
| ScrapeHandler.RequestHandler.DoGet | src/axis_exporter/exporter.py:70-175 | extends the response, request and gauge logs by exactly what `Handle` gives, and ends with its crash |
| ScrapeHandler.HandleScrapes | src/axis_exporter/exporter.py:115-158 | when the guard holds, no 500 was sent and the request is the metrics branch alone |
| ScrapeHandler.BadPortAborts | src/axis_exporter/exporter.py:89-93 | a port `int()` rejects ends the request: nothing sent, fetched or set |
| ScrapeHandler.ErrorsFirst | src/axis_exporter/exporter.py:89-112 | each failed check sends one 500, all before anything else; at most one more response follows; no camera contact after any failure |
| ScrapeHandler.MissingSiteParameter | src/axis_exporter/exporter.py:89-96 | a missing host, port or protocol gives a 500 first and no request to the camera |
| ScrapeHandler.FetchIff | src/axis_exporter/exporter.py:115 | the camera is contacted exactly when the path is the endpoint and the guard's truthiness test passes; no 500 is sent then |
| ScrapeHandler.PortZeroSkipsFetch | src/axis_exporter/exporter.py:115 | port 0 is falsy: no request to the camera |
| ScrapeHandler.EmptyEnvUserSkipsFetch | src/axis_exporter/exporter.py:86-115 | an empty `AXIS_USERNAME` overrides the query's user and blocks the scrape |
| ScrapeHandler.ScrapeCredentials | src/axis_exporter/exporter.py:120-126 | both camera requests carry the same user and password |
| ScrapeHandler.EnvCredentialsWin | src/axis_exporter/exporter.py:86-112 | with both environment variables set, every camera request uses them, whatever the query says |
| ScrapeHandler.ScrapeUrls | src/axis_exporter/exporter.py:117-126 | the requests go to `proto://host:port` plus each API path, and the port is written so that `int()` reads it back |
| ScrapeHandler.NotFoundIff | src/axis_exporter/exporter.py:172-175 | a 404 is sent exactly when every check passed, the path is not `/` and the metrics branch was not taken; it is then the only response |
| ScrapeHandler.RootPath | src/axis_exporter/exporter.py:160-170 | `/` gets its 500s, then the 200 and `text/html` headers, then ends in the `TypeError` |
| ScrapeHandler.ScrapeRecords | src/axis_exporter/exporter.py:125-158 | once model and readings are known, the gauges set are those of the mapping, even when a later lookup fails; 200 is sent exactly when none fails |
| ScrapeHandler.HandleObservationsDeclared | src/axis_exporter/exporter.py:129-148 | every gauge value one request sets carries exactly its gauge's label names |

## Left out

- `src/axis_exporter/prometheus_metrics.py` is only gauge declarations on the prometheus_client library. Its three metric names and label lists are constants in `Metrics`.
- The float conversion in `Gauge.set`: temperatures and timers stay the strings the camera sent. A `Fahrenheit` or `TimeUntilStop` text that `float()` rejects makes `Gauge.set` raise `ValueError`, so the request crashes at that gauge. The model instead records the reading and answers 200 (`ScrapeHandler.Measure`, `ScrapeHandler.ScrapeRecords`).
- The registry itself: `generate_latest`, the `REQUEST_TIME` summary and `time.time()` (exporter.py:77, :151-154) are library code and wall-clock time. A 200 from the metrics branch carries the marker body `Exposition`.
- `Gauge.labels(...)` creates a labelled child before `set` looks up its value. A child created before a failed `Fahrenheit` or `TimeUntilStop` lookup is not modelled; only completed `set` calls are observations.
- A sensor `Name` or product number that is a dictionary where a string is expected: Python would use its `str()` as a label, and the model treats it as a lookup error.
- HTTP I/O. `requests.get` with digest authentication is an oracle, the `Device`, that gives each request's text or `Unreachable`. Writing to the socket is a log of `Response`s (status, content type, body marker).
- `urlparse` and `parse_qs`: the request's path and the parsed query are inputs. The query keeps `parse_qs`'s guarantees: every listed name has at least one value, and no value is empty, because a blank `name=` is dropped. So an empty `camera_host` never reaches the guard; only an empty environment credential does.
- `server.endpoint` is an input, since it is set by `ExporterServer.run`.
- Server lifecycle and concurrency: `ForkingHTTPServer`, `ExporterServer` and its serve loop, and `KeyboardInterrupt` (exporter.py:58-60, :178-203).
- `print_err` logging to stderr.
- What `http.server` does after an exception escapes `do_GET`, such as closing the connection. The model stops at the `Crash`.
- ParseInt: Python's `int()` also accepts non-ASCII Unicode decimal digits. The model accepts ASCII digits, with single underscores between them, as the port text. Since Python 3.11, `int()` also raises `ValueError` on text of more than 4300 digits; the model has no digit limit, because the limit depends on the interpreter version and its settings.
- FlatKey.ParseResponse: the cursor `d` walks down and mutates the same dictionary objects that `data` holds. The model computes the new dictionary as a value (`Assign`), so aliasing between `data` and `d` is not modelled.
