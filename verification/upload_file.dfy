/**
 * `uploadFile` of src/uploadFile/index.ts: classify the input and hand it,
 * with a strategy-specific subset of the options, to exactly one upload
 * strategy, or reject it with a `TypeError`.
 *
 * The guards `isUrl` and `isUuid` live in a file that is not part of this
 * model and are parameters; `isMultipart(getFileSize(data))` is the
 * comparison of the file's size with a threshold that is also a parameter.
 * The strategies themselves are not called: the result names the strategy
 * and the arguments it would receive.
 */
module UploadFile {
  import opened Common

  /** A value an options property can hold; a callback or controller is an opaque handle. */
  datatype Value = Undefined | Str(s: string) | Flag(b: bool) | Num(n: int) | Handle(id: nat)

  /** The properties of `FileFromOptions`. */
  datatype Key =
    | PublicKey | FileName | BaseURL | SecureSignature | SecureExpire | Store
    | Cancel | OnProgress | Source | Integration | RetryThrottledRequestMaxTimes
    | ContentType | MultipartChunkSize | MultipartMaxAttempts | MaxConcurrentRequests
    | BaseCDN | CheckForUrlDuplicates | SaveUrlForRecurrentUploads | PusherKey

  /** An options object; a property that is not there reads as `Undefined`. */
  type Options = map<Key, Value>

  /** The fields of `defaultSettings` that `uploadFile` reads. */
  datatype Defaults = Defaults(baseURL: string, baseCDN: string)

  /**
   * What `uploadFile` is given: file data (a Node buffer or a browser file,
   * identified by `id`, of `size` bytes), a string, or any other value, kept
   * as the text it shows when interpolated into a message.
   */
  datatype Input = FileData(id: nat, size: nat) | Text(text: string) | OtherValue(shown: string)

  datatype Strategy = Multipart | Base | FromUrl | FromUploaded

  /** A call to one strategy: which one, with what data and which options object. */
  datatype Route = Route(strategy: Strategy, data: Input, options: Options)

  datatype TypeError = TypeError(message: string)

  function Get(o: Options, key: Key): Value {
    if key in o then o[key] else Undefined
  }

  /** The value destructuring binds: `baseURL` and `baseCDN` fall back to the defaults when undefined. */
  function Effective(o: Options, key: Key, d: Defaults): (v: Value)
    ensures Get(o, key) != Undefined ==> v == Get(o, key)
    ensures key == BaseURL || key == BaseCDN ==> v != Undefined
    ensures key != BaseURL && key != BaseCDN ==> v == Get(o, key)
  {
    if key == BaseURL && Get(o, key) == Undefined then Str(d.baseURL)
    else if key == BaseCDN && Get(o, key) == Undefined then Str(d.baseCDN)
    else Get(o, key)
  }

  /** The object literal `{ k1, k2, ... }` that a strategy call builds from the bound values. */
  function Forward(o: Options, keys: set<Key>, d: Defaults): (r: Options)
    ensures r.Keys == keys
  {
    map k | k in keys :: Effective(o, k, d)
  }

  const MultipartKeys: set<Key> := {
    PublicKey, ContentType, MultipartChunkSize, MultipartMaxAttempts,
    FileName, BaseURL, SecureSignature, SecureExpire, Store,
    Cancel, OnProgress, Source, Integration,
    MaxConcurrentRequests, RetryThrottledRequestMaxTimes, BaseCDN}

  const BaseKeys: set<Key> := {
    PublicKey, FileName, BaseURL, SecureSignature, SecureExpire, Store,
    Cancel, OnProgress, Source, Integration,
    RetryThrottledRequestMaxTimes, BaseCDN}

  const UrlKeys: set<Key> := {
    PublicKey, FileName, BaseURL, BaseCDN,
    CheckForUrlDuplicates, SaveUrlForRecurrentUploads,
    SecureSignature, SecureExpire, Store,
    Cancel, OnProgress, Source, Integration,
    RetryThrottledRequestMaxTimes, PusherKey}

  const UploadedKeys: set<Key> := {
    PublicKey, FileName, BaseURL, Cancel, OnProgress,
    Source, Integration, RetryThrottledRequestMaxTimes, BaseCDN}

  /** The options each strategy call is given. */
  function KeysOf(s: Strategy): set<Key> {
    match s
    case Multipart => MultipartKeys
    case Base => BaseKeys
    case FromUrl => UrlKeys
    case FromUploaded => UploadedKeys
  }

  /** Whether the input is one of the three kinds `uploadFile` handles. */
  predicate Supported(data: Input, isUrl: string -> bool, isUuid: string -> bool) {
    data.FileData? || (data.Text? && (isUrl(data.text) || isUuid(data.text)))
  }

  /** The text an unsupported input shows in the error message. */
  function Shown(data: Input): string
    requires !data.FileData?
  {
    if data.Text? then data.text else data.shown
  }

  /**
   * The dispatch. The guards are tried in the order file data, URL, UUID;
   * the first that holds decides the strategy.
   */
  function Dispatch(data: Input, o: Options, d: Defaults, threshold: nat,
                    isUrl: string -> bool, isUuid: string -> bool): (r: Result<Route, TypeError>)
    ensures r.Success? <==> Supported(data, isUrl, isUuid)
    ensures r.Success? ==> r.value.data == data
    ensures r.Success? ==> r.value.options == Forward(o, KeysOf(r.value.strategy), d)
    ensures r.Success? && r.value.strategy == Multipart <==> data.FileData? && data.size >= threshold
    ensures r.Success? && r.value.strategy == Base <==> data.FileData? && data.size < threshold
    ensures r.Success? && r.value.strategy == FromUrl <==> data.Text? && isUrl(data.text)
    ensures r.Success? && r.value.strategy == FromUploaded <==>
      data.Text? && !isUrl(data.text) && isUuid(data.text)
    ensures r.Failure? ==>
      r.error.message == "File uploading from \"" + Shown(data) + "\" is not supported"
  {
    if data.FileData? then
      if data.size >= threshold then Success(Route(Multipart, data, Forward(o, MultipartKeys, d)))
      else Success(Route(Base, data, Forward(o, BaseKeys, d)))
    else if data.Text? && isUrl(data.text) then Success(Route(FromUrl, data, Forward(o, UrlKeys, d)))
    else if data.Text? && isUuid(data.text) then Success(Route(FromUploaded, data, Forward(o, UploadedKeys, d)))
    else Failure(TypeError("File uploading from \"" + Shown(data) + "\" is not supported"))
  }

  /** Whatever the route, `baseURL` and `baseCDN` are the given values, or the defaults when undefined. */
  lemma DispatchDefaults(data: Input, o: Options, d: Defaults, threshold: nat,
                         isUrl: string -> bool, isUuid: string -> bool)
    requires Supported(data, isUrl, isUuid)
    ensures var opts := Dispatch(data, o, d, threshold, isUrl, isUuid).value.options;
      && opts[BaseURL] == (if Get(o, BaseURL) == Undefined then Str(d.baseURL) else Get(o, BaseURL))
      && opts[BaseCDN] == (if Get(o, BaseCDN) == Undefined then Str(d.baseCDN) else Get(o, BaseCDN))
      && forall k :: k in opts && k != BaseURL && k != BaseCDN ==> opts[k] == Get(o, k)
  {
  }

  /** Options only the multipart upload is given. */
  const ChunkingKeys: set<Key> := {ContentType, MultipartChunkSize, MultipartMaxAttempts, MaxConcurrentRequests}

  /** Options only the URL import is given. */
  const UrlImportKeys: set<Key> := {CheckForUrlDuplicates, SaveUrlForRecurrentUploads, PusherKey}

  /** Storage and signature options, which the from-uploaded path is not given. */
  const StorageKeys: set<Key> := {Store, SecureSignature, SecureExpire}

  /** Options every strategy is given. */
  const SharedKeys: set<Key> := {
    PublicKey, FileName, BaseURL, BaseCDN, Cancel, OnProgress,
    Source, Integration, RetryThrottledRequestMaxTimes}

  /**
   * Which strategy sees which options: only multipart gets the chunking and
   * concurrency settings, only the URL import gets the duplicate and
   * push-channel settings, and the from-uploaded path gets no storage or
   * signature settings.
   */
  lemma DispatchForwardsPerStrategy(data: Input, o: Options, d: Defaults, threshold: nat,
                                    isUrl: string -> bool, isUuid: string -> bool)
    requires Supported(data, isUrl, isUuid)
    ensures var route := Dispatch(data, o, d, threshold, isUrl, isUuid).value;
      && SharedKeys <= route.options.Keys
      && (route.strategy == Multipart <==> ChunkingKeys <= route.options.Keys)
      && (route.strategy != Multipart <==> ChunkingKeys !! route.options.Keys)
      && (route.strategy == FromUrl <==> UrlImportKeys <= route.options.Keys)
      && (route.strategy != FromUrl <==> UrlImportKeys !! route.options.Keys)
      && (route.strategy != FromUploaded <==> StorageKeys <= route.options.Keys)
      && (route.strategy == FromUploaded <==> StorageKeys !! route.options.Keys)
  {
    var route := Dispatch(data, o, d, threshold, isUrl, isUuid).value;
    KeysPerStrategy(route.strategy);
  }

  lemma KeysPerStrategy(st: Strategy)
    ensures SharedKeys <= KeysOf(st)
    ensures st == Multipart <==> ChunkingKeys <= KeysOf(st)
    ensures st != Multipart <==> ChunkingKeys !! KeysOf(st)
    ensures st == FromUrl <==> UrlImportKeys <= KeysOf(st)
    ensures st != FromUrl <==> UrlImportKeys !! KeysOf(st)
    ensures st != FromUploaded <==> StorageKeys <= KeysOf(st)
    ensures st == FromUploaded <==> StorageKeys !! KeysOf(st)
  {
    match st
    case Multipart =>
      assert UrlImportKeys !! KeysOf(st);
      assert StorageKeys <= KeysOf(st);
    case Base =>
      assert ContentType !in KeysOf(st);
      assert CheckForUrlDuplicates !in KeysOf(st);
    case FromUrl =>
      assert ContentType !in KeysOf(st);
      assert ChunkingKeys !! KeysOf(st);
    case FromUploaded =>
      assert ContentType !in KeysOf(st);
      assert CheckForUrlDuplicates !in KeysOf(st);
      assert Store !in KeysOf(st);
  }

  /** A string that passes both string guards goes to the URL import: the URL guard is tried first. */
  lemma UrlGuardFirst(text: string, o: Options, d: Defaults, threshold: nat,
                      isUrl: string -> bool, isUuid: string -> bool)
    requires isUrl(text) && isUuid(text)
    ensures Dispatch(Text(text), o, d, threshold, isUrl, isUuid).Success?
    ensures Dispatch(Text(text), o, d, threshold, isUrl, isUuid).value.strategy == FromUrl
  {
  }
}
