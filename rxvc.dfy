/**
  The RXVC class of rxvc/rxvc.py: acquiring a receiver through the cache file,
  probing the cached one, and rediscovering it with rxv's network scan when the
  cache is missing or stale.

  The network is given as two oracles. A scan script: the i-th element is what
  the i-th call of `rxv.find()` returns, and every call past the end of the script
  finds nothing. A probe outcome: what reading `basic_status` of the cached
  receiver does.
*/
module Rxvc {
  import opened Wrappers
  import opened CacheFile

  /** The outcome of `receiver.basic_status` on the cached receiver. */
  datatype Probe = StatusOk | ConnectionError | OtherError

  /** The exceptions that escape the acquisition. */
  datatype Error =
    | LoadFailed(cause: LoadError)  // raised while loading the cache file
    | ProbeFailed                   // a status error other than requests' ConnectionError

  /** One call of the undecorated `find_receiver`. */
  datatype Attempt =
    | Chosen(receiver: Descriptor)  // returned a receiver
    | NotFound                      // raised ReceiverNotFoundException
    | Exit(code: int)               // called sys.exit

  /** `find_receiver` with its `@retry` decorator. */
  datatype Discovery =
    | Found(receiver: Descriptor, attempt: nat)  // the scan numbered `attempt` supplied it
    | GaveUp(code: int)                          // exited the process
    | NeverFound                                 // retries forever: no scan ever finds one

  /** The `rxv` property. */
  datatype Acquisition =
    | Ready(receiver: Descriptor)
    | Exited(code: int)
    | Raised(error: Error)
    | Diverges

  /** An acquisition's outcome together with the cache file it leaves behind. */
  datatype Acquired = Acquired(outcome: Acquisition, file: File)

  /** What scan number `i` of the script finds. */
  function ScanAt(scans: seq<seq<Descriptor>>, i: nat): seq<Descriptor>
  {
    if i < |scans| then scans[i] else []
  }

  /**
    `_test_rxv`: a successful status read means the receiver is alive, a
    connection error that it is not; any other error propagates.
  */
  function TestRxv(probe: Probe): (r: Result<bool, Error>)
    ensures r == Ok(true) <==> probe == StatusOk
    ensures r == Ok(false) <==> probe == ConnectionError
    ensures r.Err? <==> probe == OtherError
    ensures r.Err? ==> r.error == ProbeFailed
  {
    match probe
    case StatusOk => Ok(true)
    case ConnectionError => Ok(false)
    case OtherError => Err(ProbeFailed)
  }

  /**
    What one call of `find_receiver` does with a scan: a non-empty scan yields its
    first receiver whatever its length; an empty one raises when retrying and
    exits with status 1 otherwise.
  */
  function Select(devices: seq<Descriptor>, retrying: bool): (a: Attempt)
    ensures devices != [] ==> a == Chosen(devices[0])
    ensures devices == [] && retrying ==> a == NotFound
    ensures devices == [] && !retrying ==> a == Exit(1)
  {
    if |devices| == 1 then Chosen(devices[0])
    else if devices == [] && retrying then NotFound
    else if devices == [] then Exit(1)
    else Chosen(devices[0])
  }

  /** The position of the first non-empty scan of the script, if any. */
  function FirstNonEmpty(scans: seq<seq<Descriptor>>): (k: Option<nat>)
    ensures k.Some? ==> k.value < |scans| && scans[k.value] != []
    ensures k.Some? ==> forall j :: 0 <= j < k.value ==> scans[j] == []
    ensures k.None? ==> forall j :: 0 <= j < |scans| ==> scans[j] == []
  {
    if scans == [] then None
    else if scans[0] != [] then Some(0)
    else
      match FirstNonEmpty(scans[1..])
      case None => None
      case Some(k) => Some(k + 1)
  }

  /**
    `find_receiver` under `@retry(delay=5)`: without retrying only the first scan
    counts; with retrying, scans repeat until one is non-empty.
  */
  function Discover(scans: seq<seq<Descriptor>>, retrying: bool): Discovery
  {
    if !retrying then
      (if ScanAt(scans, 0) != [] then Found(scans[0][0], 0) else GaveUp(1))
    else
      match FirstNonEmpty(scans)
      case Some(k) => Found(scans[k][0], k)
      case None => NeverFound
  }

  /** The cache file after discovery: `find_receiver` writes it only when the chosen scan held one receiver. */
  function AfterDiscovery(f: File, scans: seq<seq<Descriptor>>, found: Discovery): File
  {
    if found.Found? && |ScanAt(scans, found.attempt)| == 1 then Saved(f, found.receiver) else f
  }

  /** Discovery from the file `f`, then caching what was found. */
  function Rediscover(f: File, retrying: bool, scans: seq<seq<Descriptor>>): Acquired
  {
    var found := Discover(scans, retrying);
    var f' := AfterDiscovery(f, scans, found);
    match found
    case Found(d, _) => Acquired(Ready(d), Saved(f', d))
    case GaveUp(code) => Acquired(Exited(code), f')
    case NeverFound => Acquired(Diverges, f')
  }

  /** The `rxv` property: load, probe, and clear and rediscover when the cache is missing or stale. */
  function Acquire(f: File, retrying: bool, probe: Probe, scans: seq<seq<Descriptor>>): Acquired
  {
    match Load(f)
    case Err(e) => Acquired(Raised(LoadFailed(e)), f)
    case Ok(None) => Rediscover(f, retrying, scans)
    case Ok(Some(d)) =>
      match TestRxv(probe)
      case Err(e) => Acquired(Raised(e), f)
      case Ok(alive) =>
        if alive then Acquired(Ready(d), f) else Rediscover(None, retrying, scans)
  }

  class RXVC {
    /** The file at ~/.rxvc_cache. */
    const cachePath: CachePath
    const retrying: bool

    /** `__init__`: remembers the settings, then acquires a receiver so the cache is populated. */
    constructor(cachePath: CachePath, probe: Probe, scans: seq<seq<Descriptor>>, retrying: bool := true)
      modifies cachePath
      ensures this.retrying == retrying && this.cachePath == cachePath
      ensures cachePath.file == Acquire(old(cachePath.file), retrying, probe, scans).file
    {
      this.cachePath := cachePath;
      this.retrying := retrying;
      new;
      var acquired := Rxv(probe, scans);
    }

    /** The `rxv` property. */
    method Rxv(probe: Probe, scans: seq<seq<Descriptor>>) returns (outcome: Acquisition)
      modifies cachePath
      ensures Acquired(outcome, cachePath.file) == Acquire(old(cachePath.file), retrying, probe, scans)
    {
      var cached := CachedReceiver();
      match cached
      case Err(e) =>
        outcome := Raised(LoadFailed(e));
      case Ok(None) =>
        outcome := FindAndCache(scans);
      case Ok(Some(receiver)) =>
        var alive := TestRxv(probe);
        match alive
        case Err(e) =>
          outcome := Raised(e);
        case Ok(true) =>
          outcome := Ready(receiver);
        case Ok(false) =>
          Clear();
          outcome := FindAndCache(scans);
    }

    /** The tail both branches of `rxv` share: find a receiver, then cache it. */
    method FindAndCache(scans: seq<seq<Descriptor>>) returns (outcome: Acquisition)
      modifies cachePath
      ensures Acquired(outcome, cachePath.file) == Rediscover(old(cachePath.file), retrying, scans)
    {
      var found := FindReceiver(scans);
      match found
      case Found(receiver, _) =>
        CacheReceiver(receiver);
        outcome := Ready(receiver);
      case GaveUp(code) =>
        outcome := Exited(code);
      case NeverFound =>
        outcome := Diverges;
    }

    /** The body of `find_receiver`, run on the result of one scan. */
    method FindReceiverOnce(devices: seq<Descriptor>) returns (a: Attempt)
      modifies cachePath
      ensures a == Select(devices, retrying)
      ensures cachePath.file == if |devices| == 1 then Saved(old(cachePath.file), devices[0]) else old(cachePath.file)
    {
      if |devices| == 1 {
        a := Chosen(devices[0]);
        CacheReceiver(devices[0]);
      } else if devices == [] && retrying {
        a := NotFound;
      } else if devices == [] {
        a := Exit(1);
      } else {
        a := Chosen(devices[0]);
      }
    }

    /**
      `find_receiver` with the `@retry` decorator's loop: ReceiverNotFoundException is
      caught and the scan is repeated after the delay, for as long as it takes. Once
      the script is used up every scan is empty, so the loop would never end.
    */
    method FindReceiver(scans: seq<seq<Descriptor>>) returns (found: Discovery)
      modifies cachePath
      ensures found == Discover(scans, retrying)
      ensures cachePath.file == AfterDiscovery(old(cachePath.file), scans, found)
    {
      var attempt := 0;
      while true
        invariant attempt <= |scans|
        invariant attempt > 0 ==> retrying
        invariant forall j :: 0 <= j < attempt ==> scans[j] == []
        invariant cachePath.file == old(cachePath.file)
        decreases |scans| - attempt
      {
        var devices := ScanAt(scans, attempt);
        var a := FindReceiverOnce(devices);
        match a
        case Chosen(receiver) =>
          return Found(receiver, attempt);
        case Exit(code) =>
          return GaveUp(code);
        case NotFound =>
          if attempt == |scans| {
            return NeverFound;
          }
          attempt := attempt + 1;
      }
    }

    /** `cache_receiver`: touch the file, then write the receiver's record. */
    method CacheReceiver(receiver: Descriptor)
      modifies cachePath
      ensures cachePath.file == Saved(old(cachePath.file), receiver)
    {
      cachePath.Touch();
      cachePath.WriteText(JsonObject(Encode(receiver)));
    }

    /** The `cached_receiver` property. */
    method CachedReceiver() returns (r: Result<Option<Descriptor>, LoadError>)
      ensures r == Load(cachePath.file)
    {
      var present := cachePath.Exists();
      if !present {
        return Ok(None);
      }
      var text := cachePath.ReadText();
      var parsed := ParseJson(text);
      if parsed.Err? {
        return Err(parsed.error);
      }
      var receiver := Decode(parsed.value);
      if receiver.Err? {
        return Err(receiver.error);
      }
      r := Ok(Some(receiver.value));
    }

    /** `clear`: unlink the cache file if it exists. */
    method Clear()
      modifies cachePath
      ensures cachePath.file == None
    {
      var present := cachePath.Exists();
      if present {
        cachePath.Unlink();
      }
    }
  }

  // Properties of the scan policy

  /** A non-empty first scan yields its first receiver, whether it holds one device or several. */
  lemma FirstScanChosen(scans: seq<seq<Descriptor>>, retrying: bool)
    requires scans != [] && scans[0] != []
    ensures Discover(scans, retrying) == Found(scans[0][0], 0)
  {
  }

  /**
    With retrying on, discovery succeeds exactly when some scan of the script is
    non-empty, and it returns element 0 of the first such scan.
  */
  lemma RetryUntilFound(scans: seq<seq<Descriptor>>)
    ensures Discover(scans, true).Found? <==> exists k :: 0 <= k < |scans| && scans[k] != []
    ensures Discover(scans, true).Found? ==>
      var k := Discover(scans, true).attempt;
      && k < |scans| && scans[k] != []
      && Discover(scans, true).receiver == scans[k][0]
      && forall j :: 0 <= j < k ==> scans[j] == []
  {
  }

  /** With retrying off, an empty first scan ends the process with status 1 and discovery writes nothing. */
  lemma NoRetryGivesUp(f: File, scans: seq<seq<Descriptor>>)
    requires ScanAt(scans, 0) == []
    ensures Discover(scans, false) == GaveUp(1)
    ensures Rediscover(f, false, scans) == Acquired(Exited(1), f)
  {
  }

  /**
    The write `find_receiver` makes for a single device is repeated by `rxv`; the
    final cache is the same as with the second write alone.
  */
  lemma ExtraWriteHarmless(f: File, retrying: bool, scans: seq<seq<Descriptor>>)
    ensures Rediscover(f, retrying, scans).outcome.Ready? ==>
      Rediscover(f, retrying, scans).file == Saved(f, Rediscover(f, retrying, scans).outcome.receiver)
  {
  }

  // Properties of the acquisition

  /** A cached receiver that answers is returned as it is: no scan is used and the file is unchanged. */
  lemma LiveCacheKept(f: File, d: Descriptor, retrying: bool, scans: seq<seq<Descriptor>>)
    requires Load(f) == Ok(Some(d))
    ensures Acquire(f, retrying, StatusOk, scans) == Acquired(Ready(d), f)
  {
  }

  /** A probe error other than a connection error propagates: no clear, no rediscovery. */
  lemma ProbeErrorPropagates(f: File, d: Descriptor, retrying: bool, scans: seq<seq<Descriptor>>)
    requires Load(f) == Ok(Some(d))
    ensures Acquire(f, retrying, OtherError, scans) == Acquired(Raised(ProbeFailed), f)
  {
  }

  /**
    A stale cache is cleared before the scan: the acquisition goes on exactly as
    from no cache file, so when discovery does not succeed no cache is left.
  */
  lemma StaleCacheCleared(f: File, d: Descriptor, retrying: bool, probe: Probe, scans: seq<seq<Descriptor>>)
    requires Load(f) == Ok(Some(d))
    ensures Acquire(f, retrying, ConnectionError, scans) == Acquire(None, retrying, probe, scans)
    ensures !Acquire(f, retrying, ConnectionError, scans).outcome.Ready? ==>
      Acquire(f, retrying, ConnectionError, scans).file == None
  {
  }

  /**
    Without a cache file the outcome is discovery's: the receiver it finds, exit
    status 1 when an empty scan is terminal, or retrying forever when no scan finds one.
  */
  lemma NoCacheDiscovers(retrying: bool, probe: Probe, scans: seq<seq<Descriptor>>)
    ensures Acquire(None, retrying, probe, scans).outcome ==
      match Discover(scans, retrying)
      case Found(d, _) => Ready(d)
      case GaveUp(code) => Exited(code)
      case NeverFound => Diverges
    ensures Acquire(None, retrying, probe, scans).outcome.Exited? ==>
      !retrying && ScanAt(scans, 0) == [] && Acquire(None, retrying, probe, scans).file == None
    ensures Acquire(None, retrying, probe, scans).outcome.Diverges? ==>
      retrying && forall j :: 0 <= j < |scans| ==> scans[j] == []
  {
  }

  /** Whatever path a successful acquisition takes, the cache then holds exactly the receiver it returned. */
  lemma ReadyIsCached(f: File, retrying: bool, probe: Probe, scans: seq<seq<Descriptor>>)
    ensures var a := Acquire(f, retrying, probe, scans);
      a.outcome.Ready? ==> Load(a.file) == Ok(Some(a.outcome.receiver))
  {
  }

  /** Acquiring again while the receiver answers returns the same receiver and changes nothing. */
  lemma AcquireIdempotent(f: File, retrying: bool, probe: Probe, scans: seq<seq<Descriptor>>, later: seq<seq<Descriptor>>)
    requires Acquire(f, retrying, probe, scans).outcome.Ready?
    ensures var a := Acquire(f, retrying, probe, scans);
      Acquire(a.file, retrying, StatusOk, later) == a
  {
  }

  /**
    A cache file that cannot be loaded (a missing key, or text `json.loads`
    rejects) makes the acquisition raise and is left in place, so every later
    acquisition raises too.
  */
  lemma UnloadableCacheSticks(f: File, retrying: bool, probe: Probe, scans: seq<seq<Descriptor>>)
    requires Load(f).Err?
    ensures Acquire(f, retrying, probe, scans) == Acquired(Raised(LoadFailed(Load(f).error)), f)
  {
  }

  /** A file that was touched but not yet written blocks every later acquisition. */
  lemma InterruptedWriteSticks(retrying: bool, probe: Probe, scans: seq<seq<Descriptor>>)
    ensures Acquire(Touched(None), retrying, probe, scans) == Acquired(Raised(LoadFailed(JsonDecodeError)), Touched(None))
  {
  }

  // Scenarios

  /** A stale cached receiver is replaced by the single receiver a new scan finds. */
  lemma StaleCacheScenario(retrying: bool)
    ensures var stale := Descriptor("http://10.0.0.5:80/", "Receiver", "X1");
      var found := Descriptor("http://10.0.0.9:80/", "Receiver2", "X2");
      var a := Acquire(Saved(None, stale), retrying, ConnectionError, [[found]]);
      a.outcome == Ready(found) && Load(a.file) == Ok(Some(found))
  {
  }

  /** From no cache, with an empty first scan and retrying on, the second scan's receiver is acquired and cached. */
  lemma SecondScanScenario(d: Descriptor, probe: Probe)
    ensures var a := Acquire(None, true, probe, [[], [d]]);
      a.outcome == Ready(d) && Load(a.file) == Ok(Some(d))
  {
    var scans: seq<seq<Descriptor>> := [[], [d]];
    assert scans[1..] == [[d]];
    assert FirstNonEmpty(scans) == Some(1);
  }
}
