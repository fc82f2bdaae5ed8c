# TLS settings and certificate reloading, and the memory limiter's mock exporter

This project models two parts of an OpenTelemetry Collector fork in Dafny and proves properties of them.

1. `config/configtls/configtls.go`, in three parts:
   - The version table (`TlsVersion`). It maps the strings "1.0"–"1.3" to the TLS wire codes 0x0301–0x0304. Section 4.2.1 of RFC 8446 gives 0x0304 for TLS 1.3.
   - The certificate reloader (`CertReload`). It caches a certificate and reloads it from disk once its interval has passed.
   - The configuration builders (`ConfigTls`). They turn common, client and server settings into a TLS configuration or an error.
2. `processor/memorylimiterprocessor/internal/mock_exporter.go`: the test exporter that counts, delivers or queues log batches (`MemoryLimiterMock`).

Each builder appears twice:
- a function (`BaseConfig`, `ClientConfig`, `ServerConfig`) that says which configuration or error the settings produce;
- a method (`LoadTlsConfig`, `LoadClientTlsConfig`, `LoadServerTlsConfig`) that follows the Go code step by step.

The methods allocate the `CertReloader` that the certificate callbacks are bound to. They are proved to produce exactly what the functions say.

The reloader and the exporter are classes whose methods update their fields in place. Each is tied to a step function on values (`Serve`, `Step`). Lemmas about runs of that step function state what holds over many calls.

Foreign calls are oracle fields of one `Disk` value, supplied by the caller:
- reading a file;
- parsing PEM into a pool;
- loading a key pair;
- building the client-CA reloader;
- starting its watch.

The current time is an integer parameter.

Two orderings of the code are kept as written:
- A reload is due only when the next reload time is strictly before now (`nextReload.Before(now)`, line 131).
- The CA file is loaded before the cert/key pairing is checked (lines 155-165), so a broken CA file is reported even when the pairing is also wrong.

## Model

| member | source | states |
|---|---|---|
| `TlsVersion.ConvertVersion` | config/configtls/configtls.go:253-270 | "" gives the caller's default; "1.0".."1.3" give 0x0301..0x0304; any other string is an UnsupportedVersion error naming it |
| `TlsVersion.ConvertVersionRoundTrip` | config/configtls/configtls.go:258-270 | the table is a bijection between the four strings and 0x0301..0x0304: a resolved code names its string back and vice versa, for every default |
| `CertReload.CertReloader.constructor` | config/configtls/configtls.go:116-122 | the reloader keeps the paths and interval, caches the loaded pair, and is next due one interval after creation |
| `CertReload.NewCertReloader` | config/configtls/configtls.go:111-123 | fails with the key-pair loader's own error exactly when the load fails; otherwise a fresh reloader caching the loaded pair, due at now + interval |
| `CertReload.CertReloader.GetCertificate` | config/configtls/configtls.go:125-146 | reloads only when the interval is non-zero and the next reload is strictly before now; when not due it returns the cached cert and changes nothing; a failed reload returns the wrapped error and changes nothing; a successful one stores the new cert, sets next reload to now + interval and returns it |
| `CertReload.FirstCallServesLoadedPair` | config/configtls/configtls.go:111-146 | a call made no later than creation time + interval returns exactly the pair loaded at creation, whatever the files hold by then |
| `CertReload.ZeroIntervalNeverReloads` | config/configtls/configtls.go:131 | with a zero interval, every call in any sequence returns the cached cert and the cache never changes |
| `CertReload.FailedReloadsKeepCache` | config/configtls/configtls.go:134-139 | when every reload attempt fails, the cache is unchanged after any sequence of calls and each answer is the cached cert or a cert-and-key load error |
| `CertReload.NoReloadBeforeNextReload` | config/configtls/configtls.go:131-141 | every call made no later than the next reload time returns the cached cert without reading the files |
| `CertReload.ReloadsAreSpaced` | config/configtls/configtls.go:140-142 | after a successful reload at t with a positive interval, no reload is due through t + interval, and calls then return the reloaded cert |
| `ConfigTls.LoadCert` | config/configtls/configtls.go:197-208 | a read failure is ReadCA naming the file and carrying the reader's error; a parse failure is ParseCA naming the file; success is the pool parsed from the file's contents |
| `ConfigTls.BaseConfig` | config/configtls/configtls.go:150-195 | exactly one of cert/key set is an error; RootCAs is unset exactly when CAFile is empty; both certificate callbacks are set exactly when cert and key are both set, and serve the loaded pair; MinVersion and MaxVersion are the codes the min/max strings resolve to, so an empty min/max gives TLS 1.2 / 0; client-only and server-only fields stay at their zero values |
| `ConfigTls.FirstFailureWins` | config/configtls/configtls.go:155-186 | the settings fail exactly when one of the five checks fails, with the error of the first failing check in the order CA file, cert/key pairing, cert/key load, min_version, max_version |
| `ConfigTls.LoadTlsConfig` | config/configtls/configtls.go:150-195 | fails with exactly the error `BaseConfig` gives; otherwise every field agrees with it, and both callbacks are bound to one fresh reloader for the settings' files and interval |
| `ConfigTls.ClientConfig` | config/configtls/configtls.go:211-223 | TLS is disabled exactly when Insecure is set and CAFile is empty; otherwise the result is the common error wrapped once, or the common configuration with ServerName and InsecureSkipVerify copied from the settings and nothing else changed |
| `ConfigTls.InsecureClientLoadsNothing` | config/configtls/configtls.go:212-214 | with TLS disabled, the result is the same whatever the files hold |
| `ConfigTls.LoadClientTlsConfig` | config/configtls/configtls.go:211-223 | returns what `ClientConfig` says, with callbacks bound to a fresh reloader |
| `ConfigTls.ServerConfig` | config/configtls/configtls.go:226-247 | a common failure is wrapped once; an empty ClientCAFile leaves the common configuration unchanged; otherwise client certificates are required and verified against the client-CA pool; the per-connection hook is installed exactly when the file is set and reloading is on, and names that file and its pool; a failing client-CA reloader fails the build with its own error, before any watch is started; otherwise a failing watch fails the build with its error; other fields are those of the common configuration; the only other errors are the client-CA reloader's and the watch's, unwrapped |
| `ConfigTls.LoadServerTlsConfig` | config/configtls/configtls.go:226-247 | returns what `ServerConfig` says, with callbacks bound to a fresh reloader |
| `MemoryLimiterMock.MockExporter.constructor` | processor/memorylimiterprocessor/internal/mock_exporter.go:65-67 | a new exporter has both counters at 0, the destination unavailable and an empty queue |
| `MemoryLimiterMock.MockExporter.ConsumeLogs` | processor/memorylimiterprocessor/internal/mock_exporter.go:27-38 | always adds the batch's record count to accepted and returns no error; when available it adds the count to delivered and leaves the queue; otherwise it appends the batch and leaves delivered |
| `MemoryLimiterMock.MockExporter.SetDestAvailable` | processor/memorylimiterprocessor/internal/mock_exporter.go:40-55 | true adds the accepted count to delivered, empties the queue and marks the destination available; false only clears the flag |
| `MemoryLimiterMock.MockExporter.AcceptedLogCount` | processor/memorylimiterprocessor/internal/mock_exporter.go:57-59 | returns the accepted record count |
| `MemoryLimiterMock.MockExporter.DeliveredLogCount` | processor/memorylimiterprocessor/internal/mock_exporter.go:61-63 | returns the delivered record count |
| `MemoryLimiterMock.AcceptedCountsEveryRecord` | processor/memorylimiterprocessor/internal/mock_exporter.go:27-28 | after any sequence of calls, accepted has grown by exactly the records handed to ConsumeLogs |
| `MemoryLimiterMock.CountersNeverDecrease` | processor/memorylimiterprocessor/internal/mock_exporter.go:27-54 | neither counter decreases over any sequence of calls |
| `MemoryLimiterMock.UnavailableQueuesBatches` | processor/memorylimiterprocessor/internal/mock_exporter.go:33-36 | while the destination stays unavailable, every consumed batch is queued in order and delivered does not change |
| `MemoryLimiterMock.AvailableDeliversAtOnce` | processor/memorylimiterprocessor/internal/mock_exporter.go:30-32 | while the destination stays available, every consumed record is delivered at once and the queue does not change |
| `MemoryLimiterMock.BalancedWithOneRelease` | processor/memorylimiterprocessor/internal/mock_exporter.go:27-54 | delivered plus the queued records equals accepted, as long as the destination is made available at most once and only before anything was delivered |
| `MemoryLimiterMock.DeliveredBoundedWithOneRelease` | processor/memorylimiterprocessor/internal/mock_exporter.go:40-50 | from a new exporter that is made available at most once, delivered never exceeds accepted |
| `MemoryLimiterMock.SecondReleaseDoubleCounts` | processor/memorylimiterprocessor/internal/mock_exporter.go:43 | making the destination available twice after one record counts that record as delivered twice (delivered 2, accepted 1) |

## Left out

- The read/write lock in `GetCertificate` and the redundant reloads that concurrent callers may trigger: calls are modelled one at a time.
- `time.Now()` becomes a parameter. Times and durations are unbounded integers, so the saturation of Go's `time.Time.Add` on overflow is not modelled.
- `os.ReadFile`, `x509.CertPool.AppendCertsFromPEM` and `tls.LoadX509KeyPair` are oracles that succeed with an opaque value or fail. `filepath.Clean` is folded into the read oracle.
- `newClientCAsReloader`, `startWatching`, `getClientConfig` and the file-watch loop are not part of this model. They are oracles that yield the client-CA pool or an error. The per-connection hook is a value that names the file and the pool.
- `TLSServerSetting.loadClientCAFile` is not modelled: its only caller is the client-CA reloader, which is not part of this model.
- Error message text: errors are data recording which step failed and the wrapped cause.
- `tls.Config` fields that this code does not set, and the handshake arguments the callbacks ignore.
- `MockExporter.Capabilities`: it returns an empty capabilities value and carries no behaviour.
- MemoryLimiterMock.MockExporter.ConsumeLogs: the counters are unbounded integers, so the int64 wrap-around of the atomic counters is not modelled.
- MemoryLimiterMock.CountersNeverDecrease: holds only while the int64 counters do not wrap around.
- A `plog.Logs` batch is reduced to its record count. The 0/1 `destAvailable` word is a boolean.
