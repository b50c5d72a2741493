# Traffic Control: certificate auto-renewal, event log and t3c-request options

A Dafny model of three sequential pieces of Apache Traffic Control.

- **Certificate auto-renewal batch** (`autorenew.dfy`, module `AutoRenew`).
  Traffic Ops' `RunAutorenewal` walks the `(xmlId, version)` candidates of the
  delivery services and handles each one in turn:
  - It skips NULL and zero versions.
  - It loads the SSL keys from the key store. Key-store errors and missing keys
    go to the Other bucket.
  - It decodes the certificate and parses its expiry. A failure in either step
    aborts the whole run.
  - It skips certificates that expire after now + window. The window defaults
    to 30 days and is written back into the configuration.
  - It dispatches on the auth type: Let's Encrypt (or self-signed when
    conversion is on), self-signed, ACME account, or other.
  - It appends one `ExpirationInfo` to the matching bucket of an
    `ExpirationSummary`.

  At the end it sends the summary email, but only when SMTP is enabled and a
  summary address is set. The imperative loop is the method `RunAutorenewal`.
  It is proved equal to the specification function `Batch`, which folds `Step`
  over the candidates. The lemmas state the properties of `Step` and `Batch`.
  Every outside call is recorded in a trace of `Call`s: key-store fetch, Let's
  Encrypt request, ACME renewal and summary email.
- **Bounded event log** (`events.dfy`, module `Events`). Traffic Monitor's
  `EventsThreadsafe` is a class. Its fields are an array of events (newest
  first), a 64-bit index counter and `max`. `Add` publishes a freshly
  allocated array. The specification function `Added` describes the new list:
  the stamped event in front, cut to `max - 1` entries when the list would
  exceed `max`. Because the cut is to `max - 1` and not to `max`, a full log
  alternates between `max - 1` and `max` entries. With `max = 1`, adding to a
  log that holds one event publishes the empty list, so the added event is
  lost (`events.go:52-53`). The model keeps this behaviour.
- **t3c-request option resolution** (`request_config.dfy`, module
  `RequestConfig`). `InitConfig` maps `--silent` and `--verbose` to four log
  locations, or to an error when verbose is above 2. For the Traffic Ops URL,
  user and password, a non-empty argument wins over `TO_URL`, `TO_USER` and
  `TO_PASS`. The cache host name falls back to the OS hostname. The timeout
  and login dispersion are converted to durations.

`wrappers.dfy` holds the `Option` and `Result` types used for Go's nil-able
errors.

Where the code and a looser reading differ, the model follows the code:
- Only NULL and zero versions are skipped (`autorenewcerts.go:143`), so
  negative versions are inspected.
- A key-store *error* lands in Other just like "not found" (lines 149-164).

## Model

| member | source | states |
|---|---|---|
| AutoRenew.RunAutorenewal | traffic_ops/traffic_ops_golang/deliveryservice/autorenewcerts.go:140-239 | the loop's result (summary, call trace, aborted flag) is exactly `Batch` of the candidates, the original window setting and the config flags; the config's window afterwards is the one the run wrote back |
| AutoRenew.ExpirationSummary.Append | traffic_ops/traffic_ops_golang/deliveryservice/autorenewcerts.go:52-57 | appending to one bucket adds exactly that entry at its end, leaves the three other buckets unchanged and raises the total by one |
| AutoRenew.LetsEncryptError | traffic_ops/traffic_ops_golang/deliveryservice/autorenewcerts.go:205-207 | a Let's Encrypt outcome carries an error exactly when the provider returned one, and it is that error |
| AutoRenew.AcmeError | traffic_ops/traffic_ops_golang/deliveryservice/autorenewcerts.go:217-224 | an ACME outcome's error is the user error if present, else the system error, else "status code not 200" when the status is not 200, and nil exactly when none of these holds |
| AutoRenew.KeyStoreCalledIffVersionSet | traffic_ops/traffic_ops_golang/deliveryservice/autorenewcerts.go:143-148 | a candidate reaches the key store (one fetch with its xmlId and version, appended to the trace) iff its version is non-NULL and non-zero, negative versions included; otherwise the step changes nothing |
| AutoRenew.KeyStoreFailureRecordedAsOther | traffic_ops/traffic_ops_golang/deliveryservice/autorenewcerts.go:149-164 | a key-store error or a missing key object appends exactly one Other entry (candidate's xmlId and version, zero time, empty auth type, the matching error), makes no further call and lets the batch continue |
| AutoRenew.MalformedCertificateAborts | traffic_ops/traffic_ops_golang/deliveryservice/autorenewcerts.go:166-176 | a decode or expiry-parse failure aborts the run after the key fetch, with no outcome for that candidate and the window setting untouched |
| AutoRenew.RenewedIffWithinWindow | traffic_ops/traffic_ops_golang/deliveryservice/autorenewcerts.go:178-184 | for a readable certificate the window 0 is replaced by 30 days, and an outcome is recorded iff expiry <= now + window x 24h (the boundary is renewed); a later expiry records nothing and calls nothing beyond the key fetch |
| AutoRenew.DispatchRule | traffic_ops/traffic_ops_golang/deliveryservice/autorenewcerts.go:186-228 | a certificate due for renewal lands in exactly one bucket: Let's Encrypt (or self-signed with conversion) makes one Let's Encrypt request for stored version + 1; self-signed without conversion and other types without an ACME account call nothing; other types with an account make one ACME call; the outcome keeps the key's delivery service, its pre-renewal version, expiry and auth type |
| AutoRenew.StepAddsAtMostOneOutcome | traffic_ops/traffic_ops_golang/deliveryservice/autorenewcerts.go:142-229 | one loop iteration adds at most one outcome, and none for a skipped version |
| AutoRenew.RunFromOutcomesBounded | traffic_ops/traffic_ops_golang/deliveryservice/autorenewcerts.go:142-230 | from any point of the loop, the outcomes added are at most the number of remaining candidates with a set, non-zero version |
| AutoRenew.BatchOutcomesBounded | traffic_ops/traffic_ops_golang/deliveryservice/autorenewcerts.go:140-239 | a whole batch records at most one outcome per candidate with a set, non-zero version |
| AutoRenew.SkippedCandidatesLeaveNoTrace | traffic_ops/traffic_ops_golang/deliveryservice/autorenewcerts.go:142-145 | a run over candidates whose versions are all NULL or 0 leaves the progress unchanged and does not abort |
| AutoRenew.AllSkippedBatch | traffic_ops/traffic_ops_golang/deliveryservice/autorenewcerts.go:142-145 | such a batch completes with an empty summary, and its only possible call is the summary email |
| AutoRenew.StepWindowAgnostic | traffic_ops/traffic_ops_golang/deliveryservice/autorenewcerts.go:179-182 | one iteration gives the same outcome, trace and abort decision whether the window is stored as 0 or as 30 |
| AutoRenew.RunFromWindowAgnostic | traffic_ops/traffic_ops_golang/deliveryservice/autorenewcerts.go:179-182 | the same holds for the rest of the loop from any point |
| AutoRenew.ZeroWindowMeansThirtyDays | traffic_ops/traffic_ops_golang/deliveryservice/autorenewcerts.go:179-184 | a batch configured with window 0 has the same summary, calls and abort outcome as one configured with 30 days |
| AutoRenew.AbortIgnoresLaterCandidates | traffic_ops/traffic_ops_golang/deliveryservice/autorenewcerts.go:166-176 | once the loop aborts, appending any further candidates does not change the result |
| AutoRenew.AbortedBatchIgnoresLaterCandidates | traffic_ops/traffic_ops_golang/deliveryservice/autorenewcerts.go:166-176 | an aborted batch is identical to the same batch with extra candidates appended, so later candidates are never processed |
| AutoRenew.StepMakesNoSummaryCall | traffic_ops/traffic_ops_golang/deliveryservice/autorenewcerts.go:142-229 | no loop iteration sends the summary email |
| AutoRenew.RunFromMakesNoSummaryCall | traffic_ops/traffic_ops_golang/deliveryservice/autorenewcerts.go:142-230 | the loop as a whole sends no summary email |
| AutoRenew.SummaryEmailAtMostOnceAtEnd | traffic_ops/traffic_ops_golang/deliveryservice/autorenewcerts.go:232-239 | the summary email is sent at most once, only as the last call and with the final summary, and exactly when the loop completed, SMTP is enabled and the summary address is non-empty |
| AutoRenew.ThreeCandidateScenario | traffic_ops/traffic_ops_golang/deliveryservice/autorenewcerts.go:142-229 | with a 30-day window: a Let's Encrypt certificate due in 5 days is renewed asking for version 2; a self-signed one due in 60 days leaves no outcome; an auth type without an ACME account due in 2 days goes to Other with no provider call |
| AutoRenew.Config.constructor | traffic_ops/traffic_ops_golang/deliveryservice/autorenewcerts.go:179-180 | the configuration starts with the given renewal window and the given conversion, SMTP and summary-address settings; only the window is later overwritten by the batch |
| AutoRenew.Dispatch | traffic_ops/traffic_ops_golang/deliveryservice/autorenewcerts.go:186-228 | definition of the four-way auth-type dispatch; its properties are lemmas DispatchRule and RenewedIffWithinWindow |
| AutoRenew.Renew | traffic_ops/traffic_ops_golang/deliveryservice/autorenewcerts.go:186-228 | definition of the renewal of a due certificate; its properties are lemmas DispatchRule, LetsEncryptError and AcmeError |
| AutoRenew.Step | traffic_ops/traffic_ops_golang/deliveryservice/autorenewcerts.go:142-229 | definition of one loop iteration; its properties are lemmas KeyStoreCalledIffVersionSet, KeyStoreFailureRecordedAsOther, MalformedCertificateAborts, RenewedIffWithinWindow, StepAddsAtMostOneOutcome, StepWindowAgnostic and StepMakesNoSummaryCall |
| AutoRenew.RunFrom | traffic_ops/traffic_ops_golang/deliveryservice/autorenewcerts.go:142-230 | definition of the loop from a given candidate on; its properties are lemmas RunFromOutcomesBounded, SkippedCandidatesLeaveNoTrace, RunFromWindowAgnostic, AbortIgnoresLaterCandidates and RunFromMakesNoSummaryCall |
| AutoRenew.Batch | traffic_ops/traffic_ops_golang/deliveryservice/autorenewcerts.go:140-239 | definition of a whole run, loop then summary email; its properties are lemmas BatchOutcomesBounded, AllSkippedBatch, ZeroWindowMeansThirtyDays, AbortedBatchIgnoresLaterCandidates and SummaryEmailAtMostOnceAtEnd, and RunAutorenewal is proved equal to it |
| Events.Added | traffic_monitor/experimental/traffic_monitor/manager/events.go:48-54 | the new list has length old+1 when that fits in max, else max-1; it never exceeds max; it starts with the event stamped with the counter's value whenever it is non-empty (the old list fits, or max >= 2); the old events follow unchanged and in order; descending indices below the counter are preserved |
| Events.SingleSlotLogDropsAddedEvent | traffic_monitor/experimental/traffic_monitor/manager/events.go:51-54 | with max = 1, adding to a log holding one event publishes the empty list, so the added event is lost |
| Events.FullLogShrinksToMaxMinusOne | traffic_monitor/experimental/traffic_monitor/manager/events.go:51-54 | adding to a full log leaves max - 1 events, and the next Add brings it back to max |
| Events.CopyEvents | traffic_monitor/experimental/traffic_monitor/manager/events.go:28-32 | the copy is a freshly allocated array with the same events |
| Events.EventsThreadsafe.constructor | traffic_monitor/experimental/traffic_monitor/manager/events.go:34-38 | a new log is empty, its next index is 0 and its max is the given one |
| Events.EventsThreadsafe.Get | traffic_monitor/experimental/traffic_monitor/manager/events.go:40-45 | returns the published list itself |
| Events.EventsThreadsafe.Add | traffic_monitor/experimental/traffic_monitor/manager/events.go:47-59 | publishes a fresh array holding `Added` of the old list, the old counter, max and the event; the counter goes up by exactly one (mod 2^64); the descending-index invariant is kept while the counter does not wrap |
| Events.SnapshotSurvivesAdd | traffic_monitor/experimental/traffic_monitor/manager/events.go:40-58 | an array obtained from Get before an Add still holds the same events afterwards, and the log no longer publishes it |
| RequestConfig.DefaultOptions | cache-config/t3c-request/config/config.go:62-75 | with no options given, the timeout is 30000 ms (30 s), the login dispersion is 0, URL, user, password and cache host name are empty, verbose is 0 and silent is off |
| RequestConfig.Cfg.DebugLog | cache-config/t3c-request/config/config.go:48 | returns the configured debug location |
| RequestConfig.Cfg.ErrorLog | cache-config/t3c-request/config/config.go:49 | returns the configured error location |
| RequestConfig.Cfg.InfoLog | cache-config/t3c-request/config/config.go:50 | returns the configured info location |
| RequestConfig.Cfg.WarningLog | cache-config/t3c-request/config/config.go:51 | returns the configured warning location |
| RequestConfig.Cfg.EventLog | cache-config/t3c-request/config/config.go:52 | is always the null location |
| RequestConfig.ArgOrEnv | cache-config/t3c-request/config/config.go:113-123 | a non-empty argument always wins; an empty one is replaced by the environment variable |
| RequestConfig.ResolveLogLocations | cache-config/t3c-request/config/config.go:87-101 | for any verbose count, negative ones included: errors go to stderr unless silent; warnings go to stderr iff not silent and verbose >= 1; info and debug go to stderr iff not silent and verbose >= 2; everything else goes to null |
| RequestConfig.ResolveLogin | cache-config/t3c-request/config/config.go:109-123 | URL, user and password fall back to TO_URL, TO_USER and TO_PASS exactly when their argument is empty; the URL's source reads "environment variable" exactly when the URL argument was empty, else "argument" |
| RequestConfig.ResolvedIsUnique | cache-config/t3c-request/config/config.go:87-161 | the options and the environment determine at most one resolved configuration, so InitConfig's success value and the configuration handed to the loggers are fixed by its inputs |
| RequestConfig.InitConfig | cache-config/t3c-request/config/config.go:61-168 | every input has exactly one outcome. Verbose > 2 is the error "too many verbose options" (even when silent), and only that case gives it. Otherwise a URL that fails to parse or validate is an error naming its source and value. Otherwise a missing cache host name with a failing OS hostname lookup is exactly the hostname error. Otherwise the result is the resolved configuration (log locations from silent/verbose, argument-over-environment URL, user and password, host name from the argument or the OS, timeout x 1 ms, dispersion x 1 s, other options passed through) when the loggers accept it, and the logger error for that configuration when they do not |
| RequestConfig.InitDefaultConfig | cache-config/t3c-request/config/config.go:62-75 | with no option given, InitConfig never reports too many verbose options, and on success logs errors only, uses a 30 s timeout and no dispersion, and takes the URL from TO_URL |

## Left out

- `renewCertificates` (`autorenewcerts.go:74-120`) is not modelled. It is the HTTP handler: the Riak check, the candidate SQL query, the goroutine spawn, the deadline `LetsEncryptTimeout x len(existingCerts)` and the 202 response. The model takes the candidate list the query returns as its input.
- The database and transaction setup at the start of `RunAutorenewal` is not modelled (lines 122-138). Neither are the deferred `logTx.Commit` or the context deadline. They are resource handling.
- The collaborators are inputs, not models of their internals:
  - the Riak key store
  - `base64DecodeCertificate`
  - `parseExpirationFromCert`
  - `GetLetsEncryptCertificates`
  - `renewAcmeCerts`
  - `GetAcmeAccountConfig` (only whether it returns nil matters)
  - the clock, one reading per candidate

  The context and current user they receive are not modelled.
- `AlertExpiringCerts` and `api.SendEmailFromTemplate` are recorded only as a `SendSummary` call carrying the summary. The header text and template rendering are not modelled. An email error is only logged, and it ends a run that is already over.
- Logging (`log.Errorf`, `log.Debugf`) is not modelled.
- The error values of `autorenewcerts.go` (lines 153, 161, 205-207 and 217-224) are structured `Error` values (`KeyStoreError`, `NoObjectFound`, `ProviderError`, `StatusNot200`) carrying the xmlId, version, cause or status code. The message texts built with `errors.New` are not modelled.
- AutoRenew.DispatchRule: does not model int64 wrap-around of `version + 1` at the largest int64, nor of `24h x window` as a `time.Duration`. Versions and times are unbounded integers.
- The auth-type constants `"Lets Encrypt"` and `"Self Signed"` are the values of `tc.LetsEncryptAuthType` and `tc.SelfSignedCertAuthType` in lib/go-tc. lib/go-tc is not part of this model. The proofs use only that the two values differ.
- The mutex of `EventsThreadsafe` and its single-writer rule are not modelled. The model has one sequential writer.
- Events.EventsThreadsafe.Add: requires max >= 1. With max = 0, Go's `max-1` underflows and the slice expression panics.
- Events.EventsThreadsafe.Add: the descending-index invariant is promised only while the uint64 counter does not wrap.
- Events.EventsThreadsafe.Add: `int(o.max)` for max >= 2^63 (a negative int in Go) is not modelled. `max` is a natural number below 2^64.
- Go's `append` and reslice share one backing array. The model copies into one fresh array of the final length instead. No other holder of that array exists, so the difference cannot be observed.
- These parts of `config.go` are inputs or are not modelled:
  - getopt parsing, `--help`/`Usage` and `--version` with `os.Exit`
  - `PrintConfig`
  - the internals of `url.Parse`, `t3cutil.ValidateURL`, `os.Getenv`, `os.Hostname` and `log.InitCfg`, which are inputs
  - error message texts, which are modelled as structured `ConfigError` values
- `LogLocation` has only the two values `InitConfig` assigns (stderr and null). `time.Duration` int64 overflow of the timeout and dispersion conversions is not modelled.
- `t3c-diff`, `trafficopswrapper` and the test and UI-automation files are not modelled. They are I/O wrappers, a mutex around a client that is not part of this model, and tests that need running services.
