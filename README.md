# Uptime monitor run, modelled in Dafny

This project models the decision logic of the uptime monitor (package `uptime`, `runall.go`). A run is triggered every five minutes. It probes every endpoint in the package-level `tests` map and classifies each HTTP outcome into a `TestResult`. It then reads the previous state of the active endpoints from the Firestore collection `monitoring` and works out which endpoints flipped between success and failure. Finally it does three things in a fixed order, returning at the first error: it writes every result back to Firestore, sends one alert e-mail if anything flipped, and streams every result into the BigQuery table `monitor.uptime`.

Files and modules:

- `model.dfy`, module `Model`: `TestResult` (model.go:6-14, with the extra `errorMsg` field that runall.go:196 and runall.go:205 assign), `TestMap`, `Option`, and map restriction.
- `probing.dfy`, module `Probing`: the probe outcome as input data (`Outcome`, `Observation`), Go's reason-phrase table (`StatusText`, standing for `http.StatusText`), `TestURL` as a function, and `Measure`, one step of the probe loop.
- `stores.dfy`, module `Stores`: the external collaborators as classes whose state the run changes. `StateStore` is the Firestore collection, `HistoryStore` the BigQuery table and `Mailer` the alert e-mail. Their failures are environment inputs (fault fields) that the model never changes.
- `changes.dfy`, module `Changes`: the transition set `Transitions` and the loop `DetectChanges` that builds it.
- `uptime.dfy`, module `Uptime`: `ReadDatabase`, `WriteToDatabase`, `StreamToBigQuery` (with its loop `CollectRecords`), the write/alert/append sequence `Commit`, and the class `Monitor` holding the package-level `tests` map with `ProbeAll` and `RunTests`.

Go map iteration order is unspecified. Every loop over a map's keys therefore picks an arbitrary remaining key (`var k :| k in remaining`), and each contract holds for every order. Time is a `nat` number of nanoseconds. Each endpoint's probe is supplied by the input `probe: string -> Observation`: the outcome, the start time and the elapsed time.

## Behaviour of the code worth knowing

The model keeps each of these behaviours of the code.

- On a 200 response `TestURL` sets only `Success` (runall.go:200-201). The status code and error text are set only on the failure paths (runall.go:191-196, 203-205). The package-level map survives between runs as long as the same process serves both runs, so a recovered endpoint keeps the status code and error text of its last failure while `success` is true. For example it keeps 500 and "Internal Server Error" (`Probing.RecoveryKeepsStaleFields`).
- A failed read of the prior state does not stop the run. `ReadDatabase`'s error is assigned to `err` at runall.go:150 and overwritten at runall.go:163 before it is ever tested. Change detection then uses whatever was read before the failure. `Uptime.PartialReadOnlyLosesTransitions` shows that this can only hide transitions, never invent one.
- A failed state write returns at once (runall.go:163-166). The alert and the history append are then never attempted.
- The alert is sent after the state write and before the history append. An alert error returns before the append (runall.go:170-178).
- The comment at runall.go:167-168 speaks of sending an e-mail for each change. The code at runall.go:170-175 sends one e-mail per run when `changes` is non-empty, and the model does the same.
- The comment at runall.go:19-20 says the entries of `tests` will be overwritten by the database contents. Nothing assigns what is read from the database to `tests`. The read result is used only for change detection (runall.go:150-161), and the model follows that.
- Probing is sequential (runall.go:140) and no probe timeout is set (runall.go:188 uses the default client).
- The struct in model.go:6-14 has no `ErrorMsg` field, but runall.go:196 and runall.go:205 assign one. The model adds it.

## Model

| member | source | states |
|---|---|---|
| `Probing.TestURL` | runall.go:186-211 | Success holds iff the outcome is a response with status exactly 200. On that path the status code and error text are kept. A transport error gives the error text, and the response's code if there is a response, else -1. Any other response gives its code and its reason phrase. Name, URL, time and durations are never changed. |
| `Probing.StatusText` | runall.go:205 | The reason phrase used for a non-200 response is empty for every code outside Go's table (100-511). |
| `Probing.RecoveryKeepsStaleFields` | runall.go:200-201 | An endpoint that answered 500 and then 200 is successful but still carries status 500 and the text "Internal Server Error". |
| `Probing.Measure` | runall.go:141-146 | One probe-loop step keeps name and URL, stamps the start time and the elapsed nanoseconds, sets the milliseconds to elapsed div 1,000,000, and succeeds iff the outcome is healthy. |
| `Uptime.Probed` | runall.go:140-147 | After the probe loop the map has exactly the same keys. Every entry keeps its name and URL, has the probe's start time and duration, has milliseconds = duration div 1,000,000, and succeeds iff its outcome is healthy. |
| `Uptime.Monitor.ProbeAll` | runall.go:140-147 | The probe loop, in any key order, leaves `tests` equal to the re-measured map `Probed` of the old one. |
| `Uptime.ReadDatabase` | runall.go:235-262 | The result's keys are a subset of the active keys, and every value is the stored document. With no read error, a key is present iff its document exists. The error is returned iff some active key's read fails, and it is that key's error. On an error the result holds exactly the documents read before it. |
| `Uptime.WriteToDatabase` | runall.go:215-231 | With no failing key, the store afterwards maps every key of `tests` to its result and leaves other documents untouched (last write wins). Otherwise the first failing key's error is returned, and only the keys written before it have changed. |
| `Uptime.CollectRecords` | runall.go:277-281 | The batch lists every entry of the map exactly once, in some key order, and has as many records as the map has entries. |
| `Uptime.StreamToBigQuery` | runall.go:264-286 | The returned error is the insert's error. On success the history gains exactly the batch, one record per entry. On error the history is unchanged. |
| `Uptime.OneRecordPerEntryCount` | runall.go:277-282 | A batch that lists each entry once, at distinct positions, has exactly as many records as the map. |
| `Changes.DetectChanges` | runall.go:151-161 | A key is in `changes` iff it is in both this run's map and the prior state and their success values differ. Its value is this run's result. Keys known to only one side never appear. |
| `Changes.NoTransitionsIff` | runall.go:151-170 | The change set is empty, so no alert is sent, iff every endpoint known to both maps agrees on success. |
| `Changes.FirstRunHasNoTransitions` | runall.go:153 | With no prior state nothing is a transition. |
| `Uptime.ReadAfterWrite` | runall.go:215-262 | Reading the active keys after a successful write of `tests` returns exactly `tests`. |
| `Uptime.PartialReadOnlyLosesTransitions` | runall.go:150-161 | If the read stopped after some keys, the transitions found are exactly the full read's transitions restricted to those keys. |
| `Uptime.SteadyStateHasNoTransitions` | runall.go:137-183 | When every endpoint answers 200 in two successive runs, the second run finds no transition, after a first run whose state write succeeded, whatever the store held before that first run. |
| `Uptime.ExampleScenario` | runall.go:140-161 | With A answering 200 and B answering 500 after both were up, only B is a transition. B carries status 500, "Internal Server Error" and its duration in milliseconds. |
| `Uptime.Commit` | runall.go:163-182 | The state write comes first. Only keys without a write fault are ever written. If some key fails, the run returns that key's error before any alert or append. Next comes exactly one alert attempt iff the change set is non-empty, with one delivery iff it succeeds. An alert failure returns before the append. Last comes one history append of one record per entry, whose error is the run's result. |
| `Uptime.Monitor.RunTests` | runall.go:137-183 | `tests` becomes the re-measured map. The prior state is exactly the stored documents of some set of active keys read without fault (all of them when no read fails). `changes` is exactly the transition set against it. The side effects follow the `Commit` sequence. |
| `Stores.StateStore.Get` | runall.go:247-258 | A document's read returns its fault, or else whether it exists and what it holds. |
| `Stores.StateStore.Set` | runall.go:224 | A write either fails with the key's fault and changes nothing, or replaces that one document. |
| `Stores.HistoryStore.Put` | runall.go:282 | An insert returns the store's fault. It appends the whole batch on success and nothing on error. |
| `Stores.Mailer.SendAlert` | email.go:13-34 | Each call is one attempt. It returns the channel's fault and counts a delivery only on success. |

## Left out

- The HTTP GET itself, the body drain and the ignored `ReadAll` error (runall.go:188, 199, 207). Only the outcome that `TestURL` branches on is an input.
- Creating the Firestore, BigQuery and Secret Manager clients, and their failures, including the `bigquery.NewClient:` error wrapping (runall.go:217-220, 239-242, 269-272). The stores exist from the start.
- `Stores.StateStore.Get`: a document that cannot be decoded (`DataTo`, runall.go:254-256) is folded into that key's read fault. The Firestore client's convention of reporting a missing document as a NotFound error is not modelled: a missing document reads as absent, as runall.go:251 expects.
- How Firestore and BigQuery encode a result (field tags, `omitempty`, timestamp precision). A stored document reads back as the value written.
- `Stores.HistoryStore.Put`: BigQuery's per-row insert errors are not modelled. An insert appends all rows or none.
- The alert message, the SMTP exchange and the secret lookup (email.go). The mailer keeps one fault for both the secret lookup and the send, and only counts attempts and deliveries.
- `Probing.Measure`: `time.Duration` is a 64-bit count of nanoseconds. The model uses unbounded durations, so overflow after about 292 years is not modelled. Elapsed time is never negative, so Go's truncating division and Dafny's `/` agree.
- Wall-clock time: start times and elapsed times are inputs.
- The hard-coded endpoint catalog (runall.go:21-126). The `Monitor` constructor takes any initial map.
- The Pub/Sub payload, which the code does not use, and the context, which the code only passes on to the store and mail calls. A cancellation would show up as those calls' errors, which the fault fields already cover.
- Concurrency: the code probes one endpoint after another and no parallelism is modelled.
- The one-off tools in admin/, table/ and dataset/, and runall_test.go, which only drives live calls.
