/**
  The receiver cache file ~/.rxvc_cache, shared by rxvc/rxvc.py and rxvc/cache.py.

  The file holds the JSON object written by `cache_receiver`. JSON text itself is
  abstracted: the file is absent, or it holds the empty text a `touch` leaves behind,
  a JSON object whose values are strings, or text that `json.loads` rejects.
*/
module CacheFile {
  import opened Wrappers

  /** What the cache remembers of a receiver: the three values an RXV object is rebuilt from. */
  datatype Descriptor = Descriptor(ctrlUrl: string, friendlyName: string, modelName: string)

  /** The contents of the cache file, as `json.loads` sees them. */
  datatype Text = Empty | JsonObject(fields: map<string, string>) | Unparsable

  /** The cache path: no file, or a file with some text in it. */
  type File = Option<Text>

  /** The exceptions loading the cache can raise. */
  datatype LoadError = JsonDecodeError | KeyError(key: string)

  const CtrlUrlKey := "ctrl_url"
  const FriendlyNameKey := "friendly_name"
  const ModelNameKey := "model_name"

  /** The keys `cache_receiver` writes and `cached_receiver` reads. */
  const RecordKeys: set<string> := {CtrlUrlKey, FriendlyNameKey, ModelNameKey}

  /** The object `cache_receiver` passes to `json.dumps`. */
  function Encode(d: Descriptor): (obj: map<string, string>)
    ensures obj.Keys == RecordKeys
    ensures Decode(obj) == Ok(d)
  {
    map[CtrlUrlKey := d.ctrlUrl, FriendlyNameKey := d.friendlyName, ModelNameKey := d.modelName]
  }

  /** `json.loads` on the file's text. */
  function ParseJson(t: Text): (r: Result<map<string, string>, LoadError>)
    ensures r.Ok? <==> t.JsonObject?
    ensures r.Ok? ==> r.value == t.fields
    ensures r.Err? ==> r.error == JsonDecodeError
  {
    match t
    case JsonObject(fields) => Ok(fields)
    case _ => Err(JsonDecodeError)
  }

  /**
    Building the RXV object from the parsed object: the subscripts are evaluated in
    argument order, so the first missing key is the one the KeyError names.
  */
  function Decode(obj: map<string, string>): (r: Result<Descriptor, LoadError>)
    ensures r.Ok? <==> RecordKeys <= obj.Keys
    ensures r.Ok? ==> r.value == Descriptor(obj[CtrlUrlKey], obj[FriendlyNameKey], obj[ModelNameKey])
    ensures r.Err? ==> r.error.KeyError? && r.error.key in RecordKeys && r.error.key !in obj
    ensures r.Err? && r.error.key != CtrlUrlKey ==> CtrlUrlKey in obj
    ensures r.Err? && r.error.key == ModelNameKey ==> FriendlyNameKey in obj
  {
    if CtrlUrlKey !in obj then Err(KeyError(CtrlUrlKey))
    else if FriendlyNameKey !in obj then Err(KeyError(FriendlyNameKey))
    else if ModelNameKey !in obj then Err(KeyError(ModelNameKey))
    else Ok(Descriptor(obj[CtrlUrlKey], obj[FriendlyNameKey], obj[ModelNameKey]))
  }

  /**
    What `cached_receiver` makes of the file: nothing when there is no file, the
    receiver when the file holds a complete record, an exception otherwise.
  */
  function Load(f: File): (r: Result<Option<Descriptor>, LoadError>)
    ensures r == Ok(None) <==> f == None
    ensures r.Ok? && f.Some? ==> r.value.Some? && f.value.JsonObject? && Decode(f.value.fields) == Ok(r.value.value)
    ensures r.Err? <==> f.Some? && (f.value.JsonObject? ==> !(RecordKeys <= f.value.fields.Keys))
  {
    match f
    case None => Ok(None)
    case Some(text) =>
      match ParseJson(text)
      case Err(e) => Err(e)
      case Ok(obj) =>
        match Decode(obj)
        case Err(e) => Err(e)
        case Ok(d) => Ok(Some(d))
  }

  /** `touch(exist_ok=True)`: creates an empty file if there is none, keeps the text otherwise. */
  function Touched(f: File): (g: File)
    ensures f.None? ==> g == Some(Empty)
    ensures f.Some? ==> g == f
  {
    if f.None? then Some(Empty) else f
  }

  /**
    The file after `cache_receiver(d)`: touched, then its text replaced by the record
    of `d`. Whatever the file held before, touched or not, is overwritten.
  */
  function Saved(f: File, d: Descriptor): File
  {
    Some(JsonObject(Encode(d)))
  }

  /** Saving then loading gives back the same three fields. */
  lemma SaveLoadRoundTrip(f: File, d: Descriptor)
    ensures Load(Saved(f, d)) == Ok(Some(d))
  {
  }

  /** A save replaces the previous contents entirely: the last write wins. */
  lemma LastWriteWins(f: File, d1: Descriptor, d2: Descriptor)
    ensures Saved(Saved(f, d1), d2) == Saved(f, d2)
    ensures Load(Saved(Saved(f, d1), d2)) == Ok(Some(d2))
  {
  }

  /** Saving the same receiver twice leaves the same file as saving it once. */
  lemma SaveIdempotent(f: File, d: Descriptor)
    ensures Saved(Saved(f, d), d) == Saved(f, d)
  {
  }

  /** The stored record holds exactly the keys ctrl_url, friendly_name and model_name. */
  lemma StoredKeys(f: File, d: Descriptor)
    ensures Saved(f, d).Some? && Saved(f, d).value.JsonObject?
    ensures Saved(f, d).value.fields.Keys == {"ctrl_url", "friendly_name", "model_name"}
  {
  }

  /** A stored object lacking one of the three keys makes loading raise KeyError, not return None. */
  lemma MissingKeyFails(obj: map<string, string>, key: string)
    requires key in RecordKeys && key !in obj
    ensures Load(Some(JsonObject(obj))).Err?
    ensures Load(Some(JsonObject(obj))).error.KeyError?
  {
  }

  /**
    Extra keys are ignored, and values are not checked: a record with empty
    strings loads as a receiver with empty fields.
  */
  lemma ExtraKeysIgnored(obj: map<string, string>)
    requires RecordKeys <= obj.Keys
    ensures Load(Some(JsonObject(obj))) == Ok(Some(Descriptor(obj[CtrlUrlKey], obj[FriendlyNameKey], obj[ModelNameKey])))
  {
  }

  /** A file that was touched but never written cannot be loaded. */
  lemma TouchedOnlyIsUnloadable()
    ensures Load(Touched(None)) == Err(JsonDecodeError)
  {
  }

  /**
    The file at the cache path, with the `pathlib.Path` operations the cache code uses.
    `read_text` and `unlink` raise on a missing file, so they require one.
  */
  class CachePath {
    var file: File

    constructor(initial: File)
      ensures file == initial
    {
      file := initial;
    }

    method Exists() returns (b: bool)
      ensures b <==> file.Some?
    {
      b := file.Some?;
    }

    method Touch()
      modifies this
      ensures file == Touched(old(file))
    {
      if file.None? {
        file := Some(Empty);
      }
    }

    method WriteText(text: Text)
      modifies this
      ensures file == Some(text)
    {
      file := Some(text);
    }

    method ReadText() returns (text: Text)
      requires file.Some?
      ensures Some(text) == file
    {
      text := file.value;
    }

    method Unlink()
      requires file.Some?
      modifies this
      ensures file == None
    {
      file := None;
    }
  }
}
