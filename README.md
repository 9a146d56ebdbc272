# rxvc: receiver acquisition and cache, in Dafny

rxvc is a command-line controller for Yamaha RX-V receivers. Finding a receiver
means an SSDP scan of the network, so rxvc remembers the last receiver in
`~/.rxvc_cache`, a JSON object with the keys `ctrl_url`, `friendly_name` and
`model_name`. This project models the part that acquires a receiver and keeps
that cache, and proves what it does:

- `cache_file.dfy` (module `CacheFile`): the cache file and its record. The file
  is absent, or holds the empty text `touch` leaves, a JSON object with string
  values, or text `json.loads` rejects. `Load` is what reading the cache yields,
  `Saved` is the file after a write. `CachePath` is the file with the `pathlib`
  operations the code uses (`exists`, `touch`, `write_text`, `read_text`, `unlink`).
- `cache.dfy` (module `Cache`): the module functions of `rxvc/cache.py`,
  `cache_receiver`, `cached_receiver` and `clear`, over that file.
- `rxvc.dfy` (module `Rxvc`): the class `RXVC` of `rxvc/rxvc.py`. The `rxv` property
  loads the cache, probes the cached receiver, and clears the cache and rediscovers
  when the probe hits a connection error or there is no cache. `find_receiver` runs
  under the `@retry(delay=5)` decorator's loop. The network is given as two oracles:
  - a scan script: element i is what the i-th `rxv.find()` returns, and every scan
    past its end is empty;
  - a probe outcome for `basic_status`: it succeeds, raises a connection error, or
    raises some other error.
  The functions `Discover`, `Rediscover` and `Acquire` specify the methods. The
  lemmas after the class state the acquisition's properties in terms of them.
- `log_config.dfy` (module `LogConfig`): `Config.validate_log_level` and the
  level kept by `Config`'s constructor.
- `wrappers.dfy` (module `Wrappers`): `Option` and `Result`.

The model follows the code as written:

- A cache that cannot be loaded is not treated as empty. A record missing a key
  raises `KeyError`, and text that is not JSON raises `JSONDecodeError`. `rxv` lets
  either escape and leaves the file in place, so every later run fails the same way
  (`UnloadableCacheSticks`).
- Writes are a `touch` followed by `write_text`, with no atomic replace. A run
  stopped between the two leaves an empty file, which then blocks every later
  acquisition (`InterruptedWriteSticks`).
- Values are not checked: empty strings load as a receiver with empty fields.
  Extra keys are ignored (`ExtraKeysIgnored`).
- With retrying on, discovery retries without bound. With it off, an empty scan
  exits the process with status 1.
- A scan that finds exactly one receiver is cached twice: once inside
  `find_receiver` and once by `rxv`. The second write leaves the same file
  (`ExtraWriteHarmless`).

## Model

| member | source | states |
|---|---|---|
| `CacheFile.Encode` | rxvc/cache.py:17-20 | The record written has exactly the keys ctrl_url, friendly_name and model_name, each holding the receiver's field of that name: decoding it gives back the receiver. |
| `CacheFile.ParseJson` | rxvc/cache.py:30 | `json.loads` yields the stored object exactly when the text is a JSON object, and raises JSONDecodeError otherwise. |
| `CacheFile.Decode` | rxvc/cache.py:31-33 | Building the receiver succeeds iff all three keys are present, with their values as its fields. Otherwise it raises KeyError naming the first missing key in the order ctrl_url, friendly_name, model_name. |
| `CacheFile.Load` | rxvc/cache.py:29-33 | Loading gives None iff there is no file. It raises iff the file exists but is not a JSON object holding all three keys. Otherwise it gives the decoded receiver. |
| `CacheFile.Touched` | rxvc/cache.py:16 | `touch(exist_ok=True)` creates an empty file where there is none, and keeps an existing file's text. |
| `CacheFile.SaveLoadRoundTrip` | rxvc/cache.py:16-33 | After caching a receiver, loading returns one with the same ctrl_url, friendly_name and model_name. |
| `CacheFile.LastWriteWins` | rxvc/cache.py:16-17 | A write replaces any prior contents entirely; after two writes the second receiver is loaded. |
| `CacheFile.SaveIdempotent` | rxvc/cache.py:16-20 | Caching the same receiver twice leaves the same file as caching it once. |
| `CacheFile.StoredKeys` | rxvc/cache.py:17-20 | The stored file is a JSON object whose keys are exactly ctrl_url, friendly_name and model_name. |
| `CacheFile.MissingKeyFails` | rxvc/cache.py:30-33 | A stored object lacking any of the three keys makes loading raise KeyError instead of returning None. |
| `CacheFile.ExtraKeysIgnored` | rxvc/cache.py:31-33 | An object with the three keys loads as the receiver of their values, whatever else it holds. |
| `CacheFile.TouchedOnlyIsUnloadable` | rxvc/cache.py:16-33 | A file that was touched but never written makes loading raise JSONDecodeError. |
| `Cache.CacheReceiver` | rxvc/cache.py:10-20 | After `cache_receiver(r)`, the file holds exactly r's record, whatever it held before. |
| `Cache.CachedReceiver` | rxvc/cache.py:23-33 | `cached_receiver` checks existence, reads, parses and decodes step by step. Its result is `Load` of the file, and it changes nothing. |
| `Cache.Clear` | rxvc/cache.py:36-39 | `clear` leaves no file, and succeeds whether or not one existed. |
| `Cache.CacheThenLoad` | rxvc/cache.py:10-33 | `cache_receiver(r)` followed by `cached_receiver()` returns r. |
| `Cache.ClearTwiceThenLoad` | rxvc/cache.py:29-39 | `clear(); clear()` does not fail, and `cached_receiver()` then returns None. |
| `Rxvc.TestRxv` | rxvc/rxvc.py:33-43 | The probe test is True exactly on a successful status read and False exactly on a ConnectionError. Any other error propagates. |
| `Rxvc.Select` | rxvc/rxvc.py:77-96 | One call of `find_receiver` returns element 0 of any non-empty scan, with one device or several. An empty scan raises ReceiverNotFoundException when retrying and exits with status 1 otherwise. |
| `Rxvc.FirstNonEmpty` | rxvc/rxvc.py:70-86 | The attempt at which the retry loop stops: the first non-empty scan, with every earlier one empty. If there is none, every scan is empty. |
| `Rxvc.RXVC.FindReceiverOnce` | rxvc/rxvc.py:77-96 | One attempt behaves as `Select` says. It writes the cache exactly when the scan found one device. |
| `Rxvc.RXVC.FindReceiver` | rxvc/rxvc.py:70-96 | The retry loop's result is `Discover` of the scan script. The cache file changes only by the single-device write of the attempt that succeeded. |
| `Rxvc.RXVC.FindAndCache` | rxvc/rxvc.py:62-68 | Finding a receiver and then caching it has the outcome and final file that `Rediscover` gives. |
| `Rxvc.RXVC.Rxv` | rxvc/rxvc.py:45-68 | The `rxv` property's outcome and final cache file are those of `Acquire` on the cache file it started from. |
| `Rxvc.RXVC.constructor` | rxvc/rxvc.py:26-31 | Construction keeps `retrying` (true unless given) and the cache path, and leaves the cache file as one acquisition does. |
| `Rxvc.RXVC.CacheReceiver` | rxvc/rxvc.py:98-108 | After `cache_receiver(r)`, the file holds exactly r's three fields. |
| `Rxvc.RXVC.CachedReceiver` | rxvc/rxvc.py:110-121 | The `cached_receiver` property gives `Load` of the file and changes nothing. |
| `Rxvc.RXVC.Clear` | rxvc/rxvc.py:123-126 | `clear` leaves no file, and does not fail on a missing one. |
| `Rxvc.FirstScanChosen` | rxvc/rxvc.py:80-91 | A non-empty first scan yields its element 0, both for one device and for several, retrying or not. |
| `Rxvc.RetryUntilFound` | rxvc/rxvc.py:70-86 | With retrying, discovery finds a receiver iff some scan is non-empty. It returns element 0 of the first non-empty scan. |
| `Rxvc.NoRetryGivesUp` | rxvc/rxvc.py:87-89 | With retrying off, an empty scan exits with status 1 and discovery writes no cache. |
| `Rxvc.ExtraWriteHarmless` | rxvc/rxvc.py:62-84 | The extra write inside `find_receiver` does not change the final cache: it is the same as `rxv`'s write alone. |
| `Rxvc.LiveCacheKept` | rxvc/rxvc.py:56-59 | A cached receiver whose probe succeeds is returned unchanged. No scan is used and the file is not touched. |
| `Rxvc.ProbeErrorPropagates` | rxvc/rxvc.py:33-58 | A probe error other than ConnectionError escapes `rxv`. Nothing is cleared or rediscovered. |
| `Rxvc.StaleCacheCleared` | rxvc/rxvc.py:60-64 | On a connection error, the cache is cleared before scanning, and `rxv` goes on exactly as from no cache. If discovery does not succeed, no cache is left. |
| `Rxvc.NoCacheDiscovers` | rxvc/rxvc.py:65-68 | Without a cache, `rxv` has discovery's outcome: the receiver found, exit 1 after an empty scan without retrying (cache still absent), or endless retrying when every scan is empty. |
| `Rxvc.ReadyIsCached` | rxvc/rxvc.py:56-68 | Whenever `rxv` returns a receiver, the cache then loads as exactly that receiver. |
| `Rxvc.AcquireIdempotent` | rxvc/rxvc.py:56-59 | Acquiring again after a success, while the receiver answers, returns the same receiver and changes nothing. |
| `Rxvc.UnloadableCacheSticks` | rxvc/rxvc.py:117-121 | A cache that cannot be loaded makes `rxv` raise. The file is left as it was. |
| `Rxvc.InterruptedWriteSticks` | rxvc/rxvc.py:104-121 | A file left empty by a touch without its write makes every acquisition raise JSONDecodeError. |
| `Rxvc.StaleCacheScenario` | rxvc/rxvc.py:56-64 | A stale cache at 10.0.0.5 plus a scan finding one receiver at 10.0.0.9: `rxv` returns the new receiver, and the cache then holds it. |
| `Rxvc.SecondScanScenario` | rxvc/rxvc.py:65-86 | With no cache, retrying on, and an empty first scan, the second scan's receiver is returned and cached. |
| `LogConfig.LevelConstant` | rxvc/config.py:28 | Each valid name gives the `logging` constant of that name: 50, 40, 30, 20, 10, 0 in list order. |
| `LogConfig.Upper` | rxvc/config.py:26 | Upper-casing keeps the length and upper-cases every character (ASCII). |
| `LogConfig.ValidateLogLevel` | rxvc/config.py:24-33 | A name is accepted iff its upper-cased form is one of the six valid names. It then gives the logging constant of that name; otherwise it raises ConfigException with the fixed message. |
| `LogConfig.NewConfig` | rxvc/config.py:9-19 | Constructing a Config raises what validation raises. Otherwise its log level is the validated level and its valid names are the six names. |
| `LogConfig.UpperIdempotent` | rxvc/config.py:26 | Upper-casing an upper-cased name changes nothing. |
| `LogConfig.CaseInsensitive` | rxvc/config.py:26-27 | Validating s is the same as validating upper(s). |
| `LogConfig.LevelIdentifiesName` | rxvc/config.py:27-28 | Two accepted names with the same level are the same name up to case. |
| `LogConfig.LevelConstantInjective` | rxvc/config.py:10-28 | Distinct valid names map to distinct logging constants. |
| `LogConfig.ValidNamesAccepted` | rxvc/config.py:10-28 | Each of the six names is accepted, in any case, with its own level constant. |
| `LogConfig.RejectionMessage` | rxvc/config.py:29-33 | The rejection message is "Valid values are: " followed by the six names joined by ", ", in list order. |
| `LogConfig.AbbreviationRejected` | rxvc/config.py:26-33 | "warn" is rejected with the ConfigException message. |
| `LogConfig.DefaultIsInfo` | rxvc/config.py:9-19 | With no LOG_LEVEL in the environment, the Config's level is INFO (20). |

## Left out

- `rxvc/cli.py`: argument parsing, printing, and the status, inputs, input and volume commands. They pass through to the receiver object. The cache flow there calls `rxvc/cache.py`, and also calls a `find_receiver` that `rxvc/cache.py` does not define. The `--clear` flag is `clear` then acquire.
- `Config.logger`: logging handler and formatter set-up. Log messages in general, including the "Found multiple receivers" message printed for a single device.
- `setup.py`: packaging.
- The rxv library: `rxv.find()` network scanning, the `basic_status` HTTP request, and `RXV` construction. They are the scan script and the probe outcome. A receiver is the three values it is built from.
- JSON text: `json.dumps` and `json.loads` are abstracted to a JSON object of strings, empty text, or unparsable text. A JSON value that is not an object, and non-string values, are not modelled. Such a value would raise TypeError on loading or reach `RXV` as is.
- The five-second `time.sleep` between retries; only the loop is modelled. Every scan past the end of the script is empty. So a retrying discovery whose script has no non-empty scan is reported as `NeverFound`, and `rxv` as `Diverges`: the program never returns.
- Rxvc.RXVC.constructor: keeps only the effect of the acquisition in `__init__` on the cache file. The exception or exit that acquisition can raise out of the constructor is not returned, because a Dafny constructor has no result. `Rxvc.RXVC.Rxv` states the outcome itself.
- Filesystem semantics beyond one file: permissions, I/O errors, and races between processes sharing the cache file.
- The `RXVC` class and `rxvc/cache.py` each refer to `~/.rxvc_cache` through their own path object. Here each is given its `CachePath`. That they may name the same file is not modelled.
- Unicode upper-casing: `Upper` upper-cases ASCII letters only, where Python's `str.upper` also maps other letters (some to two characters).
- The default argument of `Config`'s constructor is read from the environment when the module is loaded. Here the environment is a parameter of `DefaultLevel`.
