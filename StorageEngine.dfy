/**
 * The multer storage engine of index.js: option merging in the constructor,
 * the per-size naming and upload bookkeeping of `_handleFile`, and the
 * compensating deletes of `_removeFile`.
 *
 * The store is abstract. An upload is an oracle from (number of uploads
 * dispatched so far, request) to what `s3.upload(params).promise()` does:
 * throw, or return a promise that resolves with the stored object or
 * rejects. Deletes work the same way. Streams and pixel work are not
 * modelled: each dispatched upload carries the transform plan that would
 * be piped into it.
 *
 * The engine's behaviour is first written as functions (`Construct`,
 * `Dispatch`, `Respond`, `RemoveOutcome`); the class methods follow the
 * source's loops and are proved to compute exactly those functions.
 */
module StorageEngine {
  import opened Js
  import opened FileHelper
  import opened ImageTransformer

  // ---------------------------------------------------------------------
  // Options

  /** The `sizes` option: an array of size entries, or some other value. */
  datatype Sizes = SizeList(list: seq<SizeSpec>) | NotArray(value: Value)

  /** The options object a caller passes; `None` marks a key the object does not have. */
  datatype UserOptions = UserOptions(
    acl: Option<Value>,
    rotate: Option<Value>,
    grayscale: Option<Value>,
    withMetadata: Option<Value>,
    webP: Option<Value>,
    fit: Option<Value>,
    sizes: Option<Sizes>,
    bucket: Option<Value>,
    s3Path: Option<Value>,
    cdn: Option<Value>)

  /** `{}` */
  const NoOptions := UserOptions(None, None, None, None, None, None, None, None, None, None)

  /** The environment variables the constructor reads; `None` when unset. */
  datatype Env = Env(s3Bucket: Option<string>, s3Path: Option<string>, cdnHost: Option<string>)

  /** The engine's merged options (`this.options`). */
  datatype Options = Options(
    acl: Value,
    rotate: Value,
    grayscale: Value,
    withMetadata: Value,
    webP: Value,
    fit: Value,
    sizes: Sizes,
    bucket: Value,
    s3Path: Value,
    cdn: Value)

  /** config/defaults.js; its `bucket` entry is always overwritten by the caller's options. */
  const DefaultAcl := Str("public-read")
  const DefaultRotate := Bool(true)
  const DefaultWebP := Bool(false)
  const DefaultFit := Str("outside")
  const DefaultSizes := SizeList([EmptySize])

  /** Reading a property: `undefined` when the object does not have it. */
  function Get(v: Option<Value>): Value
  {
    if v.Some? then v.value else Undefined
  }

  /** Reading `process.env.X`. */
  function EnvVar(v: Option<string>): Value
  {
    if v.Some? then Str(v.value) else Undefined
  }

  /** `Object.assign({}, defaults, options)` for one key: an own property, even `undefined`, wins. */
  function Assign(given: Option<Value>, fallback: Value): Value
  {
    if given.Some? then given.value else fallback
  }

  /** The s3 guard `!s3 && typeof s3 !== 'object'`; it lets `null` through. */
  predicate S3Rejected(s3: Value)
  {
    !Truthy(s3) && !IsObjectType(s3)
  }

  /** `options.sizes && !Array.isArray(options.sizes)` */
  predicate SizesRejected(u: UserOptions)
  {
    u.sizes.Some? && u.sizes.value.NotArray? && Truthy(u.sizes.value.value)
  }

  /** A truthy fit that is a string but not one of the five names. */
  predicate FitRejected(u: UserOptions)
  {
    Truthy(Get(u.fit)) && Get(u.fit).Str? && Get(u.fit).s !in FitTypes
  }

  /** A truthy fit that is not a string: `fit.match` throws. */
  predicate FitNotString(u: UserOptions)
  {
    Truthy(Get(u.fit)) && !Get(u.fit).Str?
  }

  /** No bucket in the options and none in the environment. */
  predicate NoBucket(u: UserOptions, env: Env)
  {
    !Truthy(Get(u.bucket)) && !Truthy(EnvVar(env.s3Bucket))
  }

  /** What the constructor guarantees of the fit it keeps. */
  predicate FitAccepted(fit: Value)
  {
    !Truthy(fit) || (fit.Str? && fit.s in FitTypes)
  }

  /** What the constructor guarantees of the sizes it keeps. */
  predicate SizesAccepted(sizes: Sizes)
  {
    sizes.SizeList? || !Truthy(sizes.value)
  }

  /**
   * The constructor's three guards, in source order. A truthy fit that is
   * not a string makes `fit.match` throw.
   */
  function CheckOptions(s3: Value, u: UserOptions): (r: Result<UserOptions>)
    ensures S3Rejected(s3) ==> r == Err(Error("aws-sdk#S3 is a required parameter"))
    ensures !S3Rejected(s3) && SizesRejected(u) ==> r == Err(Error("If sizes is provided it must be an array of objects"))
    ensures !S3Rejected(s3) && !SizesRejected(u) && FitNotString(u) ==> r.Err? && r.error.TypeError?
    ensures !S3Rejected(s3) && !SizesRejected(u) && FitRejected(u) ==>
              r == Err(Error("Invalid fit (cover|contain|fill|inside|outside)"))
    ensures r.Ok? <==> !S3Rejected(s3) && !SizesRejected(u) && !FitNotString(u) && !FitRejected(u)
    ensures r.Ok? ==> r.value == u
  {
    if !Truthy(s3) && !IsObjectType(s3) then
      Err(Error("aws-sdk#S3 is a required parameter"))
    else if u.sizes.Some? && u.sizes.value.NotArray? && Truthy(u.sizes.value.value) then
      Err(Error("If sizes is provided it must be an array of objects"))
    else
      var fit := Get(u.fit);
      var valid :- if Truthy(fit) then ValidateFitType(fit) else Ok(true);
      if !valid then Err(Error("Invalid fit (cover|contain|fill|inside|outside)"))
      else Ok(u)
  }

  /**
   * `bucket`, `s3Path` and `cdn` resolved from the options, then the
   * environment, then (for s3Path and cdn) `''`; then
   * `Object.assign({}, defaults, options)`.
   */
  function Merge(u: UserOptions, env: Env): Options
  {
    var bucket := Or(Get(u.bucket), EnvVar(env.s3Bucket));
    var s3Path := Or(Or(Get(u.s3Path), EnvVar(env.s3Path)), Str(""));
    var cdn := Or(Or(Get(u.cdn), EnvVar(env.cdnHost)), Str(""));
    Options(
      Assign(u.acl, DefaultAcl),
      Assign(u.rotate, DefaultRotate),
      Get(u.grayscale),
      Get(u.withMetadata),
      Assign(u.webP, DefaultWebP),
      Assign(u.fit, DefaultFit),
      if u.sizes.Some? then u.sizes.value else DefaultSizes,
      bucket,
      s3Path,
      cdn)
  }

  /**
   * The constructor: the guards, the merge, then the bucket check.
   * `options` is `None` when the caller passes a falsy value.
   */
  function Construct(s3: Value, options: Option<UserOptions>, env: Env): (r: Result<Options>)
    ensures var u := if options.Some? then options.value else NoOptions;
            && (CheckOptions(s3, u).Err? ==> r == Err(CheckOptions(s3, u).error))
            && (CheckOptions(s3, u).Ok? && NoBucket(u, env) ==>
                  r == Err(Error("A valid bucket must be provided through options or env.S3_BUCKET")))
            && (r.Ok? <==> CheckOptions(s3, u).Ok? && !NoBucket(u, env))
            && (r.Ok? ==> r.value == Merge(u, env))
    ensures r.Ok? ==> Truthy(r.value.bucket) && FitAccepted(r.value.fit) && SizesAccepted(r.value.sizes)
  {
    var u := if options.Some? then options.value else NoOptions;
    var checked :- CheckOptions(s3, u);
    var merged := Merge(checked, env);
    if !Truthy(merged.bucket) then
      Err(Error("A valid bucket must be provided through options or env.S3_BUCKET"))
    else
      Ok(merged)
  }

  // ---------------------------------------------------------------------
  // Paths and the store

  /** `path.join(...)` of string arguments, kept as the list of its arguments. */
  datatype Path = Joined(parts: seq<string>)

  /** `path.join` throws a TypeError when an argument is not a string. */
  function PathJoin(parts: seq<Value>): (r: Result<Path>)
    ensures r.Ok? <==> forall i :: 0 <= i < |parts| ==> parts[i].Str?
    ensures r.Ok? ==> |r.value.parts| == |parts| && forall i :: 0 <= i < |parts| ==> r.value.parts[i] == parts[i].s
    ensures r.Err? ==> r.error.TypeError?
  {
    if parts == [] then Ok(Joined([]))
    else if !parts[0].Str? then Err(TypeError("The \"path\" argument must be of type string"))
    else
      var rest :- PathJoin(parts[1..]);
      Ok(Joined([parts[0].s] + rest.parts))
  }

  /** The request `s3.upload` receives. */
  datatype UploadParams = UploadParams(bucket: Value, key: Path, acl: Value)

  /** The request `s3.deleteObject` receives. */
  datatype DeleteParams = DeleteParams(bucket: Value, key: Path)

  /** What a successful upload resolves with: `Location` and `ETag`. */
  datatype StoredObject = StoredObject(location: string, eTag: string)

  datatype Promise<+T> = Resolved(value: T) | Rejected(error: Error)

  /** Calling a store operation: it throws, or returns a promise. */
  datatype Call<+T> = Threw(error: Error) | Returned(promise: Promise<T>)

  /** `s3.upload(params).promise()`, given how many uploads were dispatched before it. */
  type UploadService = (nat, UploadParams) -> Call<StoredObject>

  /** `s3.deleteObject(params).promise()`, given how many deletes were issued before it. */
  type DeleteService = (nat, DeleteParams) -> Call<Value>

  /**
   * getUploadWriteStream: the request must carry a bucket, a key and an ACL
   * (a joined key is never empty), and the store must be an object.
   */
  function GetUploadWriteStream(s3: Value, params: UploadParams, upload: UploadService, index: nat): Call<StoredObject>
  {
    if !Truthy(params.bucket) || !Truthy(params.acl) then
      Threw(Error("Params are required (i.e. {Bucket:{bucket},Key:{key},ACL:{acl})"))
    else if !s3.Object? then
      Threw(Error("aws-sdk.S3 is a required paramter"))
    else
      upload(index, params)
  }

  /** removeAsync */
  function RemoveAsync(s3: Value, params: DeleteParams, remove: DeleteService, index: nat): Call<Value>
  {
    if s3.Object? then remove(index, params) else Threw(TypeError("s3.deleteObject is not a function"))
  }

  /**
   * `Promise.all`: the values in order when every promise resolves, else
   * the error of a rejected one. Which rejection wins depends on timing in
   * the source; the model takes the first, and its contract promises only
   * "one of them".
   */
  function AwaitAll<T>(ps: seq<Promise<T>>): (r: Result<seq<T>>)
    ensures r.Ok? <==> forall i :: 0 <= i < |ps| ==> ps[i].Resolved?
    ensures r.Ok? ==> |r.value| == |ps| && forall i :: 0 <= i < |ps| ==> ps[i] == Resolved(r.value[i])
    ensures r.Err? ==> exists i :: 0 <= i < |ps| && ps[i] == Rejected(r.error)
  {
    if ps == [] then Ok([])
    else
      match ps[0]
      case Rejected(e) => Err(e)
      case Resolved(v) =>
        var rest :- AwaitAll(ps[1..]);
        Ok([v] + rest)
  }

  // ---------------------------------------------------------------------
  // _handleFile as functions

  const DefaultFileType := "original"

  /** The `type` of a result entry: `size.name ? size.name : 'original'`. */
  function Label(size: SizeSpec): Value
  {
    if Truthy(size.name) then size.name else Str(DefaultFileType)
  }

  /** The engine options as the transform reads them. */
  function View(o: Options): TransformOptions
  {
    TransformOptions(o.rotate, o.grayscale, o.withMetadata, o.webP, o.fit)
  }

  /**
   * The WebP sibling's options `{webP: true, ...this.options}`: merged options
   * always have their own `webP` key, so the spread overrides the `true`.
   */
  function SiblingView(view: TransformOptions): TransformOptions
  {
    view
  }

  /** Where uploads go: the request's bucket and ACL, and the key prefix. */
  datatype Target = Target(bucket: Value, acl: Value, s3Path: Value)

  function TargetOf(o: Options): Target
  {
    Target(o.bucket, o.acl, o.s3Path)
  }

  /** An entry of `fileInfo`. */
  datatype FileInfo = FileInfo(name: string, kind: Value, promise: Promise<StoredObject>)

  /** The transform piped into an upload, and the key it is stored under. */
  datatype Pipeline = Pipeline(key: Path, plan: seq<Step>)

  /** One dispatched upload, and the size entry as the transform left it. */
  datatype Started = Started(info: FileInfo, pipeline: Pipeline, size: SizeSpec)

  /**
   * transformAndUpload: key `path.join(s3Path, filename)`, the upload
   * request, the `fileInfo` entry, and the transform the file stream is
   * piped through. `index` is the number of uploads dispatched before.
   */
  function StartUpload(t: Target, s3: Value, upload: UploadService, index: nat, name: string, size: SizeSpec, view: TransformOptions): (r: Result<Started>)
    ensures r.Ok? ==> t.s3Path.Str? && r.value.pipeline.key == Joined([t.s3Path.s, name])
    ensures r.Ok? ==> r.value.info.name == name && r.value.info.kind == Label(size)
    ensures r.Ok? ==> upload(index, UploadParams(t.bucket, r.value.pipeline.key, t.acl)) == Returned(r.value.info.promise)
    ensures r.Ok? ==> r.value.size == Rewritten(view, size)
    ensures !t.s3Path.Str? ==> r.Err?
  {
    var key :- PathJoin([t.s3Path, Str(name)]);
    match GetUploadWriteStream(s3, UploadParams(t.bucket, key, t.acl), upload, index)
    case Threw(e) => Err(e)
    case Returned(promise) =>
      var transform := ImageTransform(Some(view), Some(size));
      Ok(Started(FileInfo(name, Label(size), promise), Pipeline(key, transform.plan), transform.size))
  }

  /** The name of a size entry's WebP sibling. */
  function SiblingName(base: string, suffix: Value): Result<string>
  {
    var webPFilename :- UpdateExtension(Str(base), Str("webp"));
    AddSuffix(Str(webPFilename), suffix)
  }

  /**
   * The state of `_handleFile` while it walks the sizes: the names pushed
   * into the map entry, `fileInfo`, the pipelines wired, how many size
   * entries the transform has rewritten, and the error thrown, if any.
   */
  datatype Progress = Progress(
    names: seq<string>,
    infos: seq<FileInfo>,
    pipelines: seq<Pipeline>,
    settled: nat,
    thrown: Option<Error>)

  const Start := Progress([], [], [], 0, None)

  /** Pushing a dispatched upload, or stopping at the error it threw. */
  function Record(p: Progress, r: Result<Started>): Progress
  {
    match r
    case Err(e) => p.(thrown := Some(e))
    case Ok(started) => p.(infos := p.infos + [started.info], pipelines := p.pipelines + [started.pipeline])
  }

  /**
   * One iteration of the `forEach` over the sizes, for uploads to `t`
   * with transform options `view`.
   */
  function SizeStep(t: Target, view: TransformOptions, s3: Value, upload: UploadService, base: string, size: SizeSpec, p: Progress): Progress
  {
    match AddSuffix(Str(base), size.name)
    case Err(e) => p.(thrown := Some(e))
    case Ok(name) => PrimaryStep(t, view, s3, upload, base, size, p.(names := p.names + [name]), name)
  }

  /** The upload of the entry's own file, once its name is pushed. */
  function PrimaryStep(t: Target, view: TransformOptions, s3: Value, upload: UploadService, base: string, size: SizeSpec, p: Progress, name: string): Progress
  {
    var primary := StartUpload(t, s3, upload, |p.infos|, name, size, view);
    var p1 := Record(p, primary);
    if primary.Err? then p1
    else SiblingStep(t, view, s3, upload, base, primary.value.size, p1.(settled := p1.settled + 1))
  }

  /** The WebP sibling, when `webP` is set globally or on the entry, which the transform has rewritten. */
  function SiblingStep(t: Target, view: TransformOptions, s3: Value, upload: UploadService, base: string, size: SizeSpec, p: Progress): Progress
  {
    if !(Truthy(view.webP) || Truthy(size.webP)) then p
    else
      match SiblingName(base, size.name)
      case Err(e) => p.(thrown := Some(e))
      case Ok(sibling) =>
        Record(p.(names := p.names + [sibling]),
               StartUpload(t, s3, upload, |p.infos|, sibling, size, SiblingView(view)))
  }

  /** The walk over `sizes`; the first error thrown ends it. */
  function Run(t: Target, view: TransformOptions, s3: Value, upload: UploadService, base: string, sizes: seq<SizeSpec>): Progress
    decreases |sizes|
  {
    if sizes == [] then Start
    else
      var p := Run(t, view, s3, upload, base, sizes[..|sizes| - 1]);
      if p.thrown.Some? then p else SizeStep(t, view, s3, upload, base, sizes[|sizes| - 1], p)
  }

  /** `this.options.sizes.length` throws on `undefined` and `null`. */
  function LengthError(v: Value): Error
  {
    TypeError("Cannot read properties of " + (if v.Null? then "null" else "undefined") + " (reading 'length')")
  }

  /**
   * The `try` block up to `Promise.all`: walk the sizes when there are
   * any. A falsy non-array `sizes` (the constructor lets those through)
   * has no length to read when it is `undefined` or `null`, and otherwise
   * counts as empty.
   */
  function Dispatch(o: Options, s3: Value, upload: UploadService, base: string): Progress
  {
    match o.sizes
    case SizeList(list) => Run(TargetOf(o), View(o), s3, upload, base, list)
    case NotArray(v) => if v.Undefined? || v.Null? then Start.(thrown := Some(LengthError(v))) else Start
  }

  /** `ETag.replace(/['"]+/g, '')` */
  function StripQuotes(s: string): (r: string)
    ensures '\'' !in r && '"' !in r
    ensures |r| <= |s|
    ensures '\'' !in s && '"' !in s ==> r == s
  {
    if s == [] then []
    else (if s[0] == '\'' || s[0] == '"' then [] else [s[0]]) + StripQuotes(s[1..])
  }

  /** Stripping works character by character: a quote goes, anything else stays. */
  lemma StripQuotesChar(c: char)
    ensures StripQuotes([c]) == if c == '\'' || c == '"' then [] else [c]
  {
    assert [c][1..] == [];
  }

  /** Stripping a concatenation strips each part, keeping their order. */
  lemma {:induction false} StripQuotesAppend(a: string, b: string)
    ensures StripQuotes(a + b) == StripQuotes(a) + StripQuotes(b)
  {
    if a != [] {
      assert (a + b)[0] == a[0] && (a + b)[1..] == a[1..] + b;
      StripQuotesAppend(a[1..], b);
    } else {
      assert a + b == b;
    }
  }

  /** The `url` of a result entry. */
  datatype Url = CdnUrl(path: Path) | StoreUrl(location: string)

  /** `this.options.cdn && this.options.cdn.length > 0` */
  predicate CdnConfigured(cdn: Value)
  {
    cdn.Str? && cdn.s != ""
  }

  /** The CDN URL is built from the base name, whatever the entry. */
  function FileUrl(cdn: Value, s3Path: Value, base: string, stored: StoredObject): Result<Url>
  {
    if CdnConfigured(cdn) then
      var path :- PathJoin([cdn, s3Path, Str(base)]);
      Ok(CdnUrl(path))
    else
      Ok(StoreUrl(stored.location))
  }

  /** An entry of the `files` the callback receives. */
  datatype FileRecord = FileRecord(eTag: string, name: string, kind: Value, url: Url)

  /** The `forEach` that builds `files`, in `fileInfo` order. */
  function Records(cdn: Value, s3Path: Value, base: string, infos: seq<FileInfo>, objects: seq<StoredObject>): Result<seq<FileRecord>>
    requires |infos| == |objects|
    decreases |infos|
  {
    if infos == [] then Ok([])
    else
      var n := |infos| - 1;
      var front :- Records(cdn, s3Path, base, infos[..n], objects[..n]);
      var url :- FileUrl(cdn, s3Path, base, objects[n]);
      Ok(front + [FileRecord(StripQuotes(objects[n].eTag), infos[n].name, infos[n].kind, url)])
  }

  function Promises(infos: seq<FileInfo>): (ps: seq<Promise<StoredObject>>)
    ensures |ps| == |infos| && forall i :: 0 <= i < |infos| ==> ps[i] == infos[i].promise
  {
    seq(|infos|, i requires 0 <= i < |infos| => infos[i].promise)
  }

  /** What the callback receives once the walk is over. */
  function Respond(o: Options, base: string, p: Progress): Result<seq<FileRecord>>
  {
    if p.thrown.Some? then Err(p.thrown.value)
    else
      var objects :- AwaitAll(Promises(p.infos));
      Records(o.cdn, o.s3Path, base, p.infos, objects)
  }

  /** The size entries after the transforms of the first `n` of them rewrote them in place. */
  function SettleList(view: TransformOptions, list: seq<SizeSpec>, n: nat): (settled: seq<SizeSpec>)
    ensures |settled| == |list|
    decreases n
  {
    if n == 0 then list
    else
      var prev := SettleList(view, list, n - 1);
      if n - 1 < |prev| then prev[n - 1 := Rewritten(view, list[n - 1])] else prev
  }

  /** The transform of entry `n` rewrites it. */
  lemma SettleListNext(view: TransformOptions, list: seq<SizeSpec>, n: nat)
    requires n < |list|
    ensures SettleList(view, list, n + 1) == SettleList(view, list, n)[n := Rewritten(view, list[n])]
  {
  }

  /** `this.options` after the transforms of the first `n` size entries rewrote them. */
  function Settle(o: Options, n: nat): Options
  {
    match o.sizes
    case NotArray(_) => o
    case SizeList(list) => o.(sizes := SizeList(SettleList(View(o), list, n)))
  }

  // ---------------------------------------------------------------------
  // _removeFile as functions

  /** What `_removeFile` reports. */
  datatype Removal =
    | NothingToRemove            // `cb(null, true)`
    | NoCallback                 // an empty entry: deleted, and the callback is never called
    | Removed(data: seq<Value>)  // `cb(null, data)`
    | RemoveFailed(error: Error) // `cb(err)`

  /** The `forEach` issuing one delete per recorded name, in order. */
  function DeleteAll(s3: Value, s3Path: Value, bucket: Value, remove: DeleteService, names: seq<string>): Result<seq<Promise<Value>>>
    decreases |names|
  {
    if names == [] then Ok([])
    else
      var n := |names| - 1;
      var front :- DeleteAll(s3, s3Path, bucket, remove, names[..n]);
      var key :- PathJoin([s3Path, Str(names[n])]);
      match RemoveAsync(s3, DeleteParams(bucket, key), remove, n)
      case Threw(e) => Err(e)
      case Returned(promise) => Ok(front + [promise])
  }

  /** `_removeFile` once the entry `names` has been taken out of the map. */
  function RemoveOutcome(s3: Value, s3Path: Value, bucket: Value, remove: DeleteService, names: seq<string>): Removal
  {
    if names == [] then NoCallback
    else
      match DeleteAll(s3, s3Path, bucket, remove, names)
      case Err(e) => RemoveFailed(e)
      case Ok(promises) =>
        match AwaitAll(promises)
        case Err(e) => RemoveFailed(e)
        case Ok(data) => Removed(data)
  }

  // ---------------------------------------------------------------------
  // Facts the methods need

  /** Once the walk has thrown, later sizes change nothing. */
  lemma {:induction false} RunStopped(t: Target, view: TransformOptions, s3: Value, upload: UploadService, base: string, sizes: seq<SizeSpec>, i: nat)
    requires i <= |sizes| && Run(t, view, s3, upload, base, sizes[..i]).thrown.Some?
    ensures Run(t, view, s3, upload, base, sizes) == Run(t, view, s3, upload, base, sizes[..i])
    decreases |sizes| - i
  {
    if i < |sizes| {
      assert sizes[..i + 1][..i] == sizes[..i];
      RunStopped(t, view, s3, upload, base, sizes, i + 1);
    } else {
      assert sizes[..i] == sizes;
    }
  }

  /** One more size entry, while nothing has been thrown. */
  lemma RunNext(t: Target, view: TransformOptions, s3: Value, upload: UploadService, base: string, sizes: seq<SizeSpec>, i: nat, p: Progress)
    requires i < |sizes| && p == Run(t, view, s3, upload, base, sizes[..i]) && p.thrown.None?
    ensures Run(t, view, s3, upload, base, sizes[..i + 1]) == SizeStep(t, view, s3, upload, base, sizes[i], p)
  {
    assert sizes[..i + 1][..i] == sizes[..i];
  }

  /** Once building the records has thrown, the remaining entries change nothing. */
  lemma {:induction false} RecordsStopped(cdn: Value, s3Path: Value, base: string, infos: seq<FileInfo>, objects: seq<StoredObject>, i: nat)
    requires |infos| == |objects| && i <= |infos|
    requires Records(cdn, s3Path, base, infos[..i], objects[..i]).Err?
    ensures Records(cdn, s3Path, base, infos, objects) == Records(cdn, s3Path, base, infos[..i], objects[..i])
    decreases |infos| - i
  {
    if i < |infos| {
      assert infos[..i + 1][..i] == infos[..i];
      assert objects[..i + 1][..i] == objects[..i];
      RecordsStopped(cdn, s3Path, base, infos, objects, i + 1);
    } else {
      assert infos[..i] == infos && objects[..i] == objects;
    }
  }

  /** Once issuing the deletes has thrown, the remaining names change nothing. */
  lemma {:induction false} DeleteAllStopped(s3: Value, s3Path: Value, bucket: Value, remove: DeleteService, names: seq<string>, i: nat)
    requires i <= |names| && DeleteAll(s3, s3Path, bucket, remove, names[..i]).Err?
    ensures DeleteAll(s3, s3Path, bucket, remove, names) == DeleteAll(s3, s3Path, bucket, remove, names[..i])
    decreases |names| - i
  {
    if i < |names| {
      assert names[..i + 1][..i] == names[..i];
      DeleteAllStopped(s3, s3Path, bucket, remove, names, i + 1);
    } else {
      assert names[..i] == names;
    }
  }

  /** One more record, when the URL can be built. */
  lemma RecordsNext(cdn: Value, s3Path: Value, base: string, infos: seq<FileInfo>, objects: seq<StoredObject>, k: nat)
    requires |infos| == |objects| && k < |infos|
    ensures var front := Records(cdn, s3Path, base, infos[..k], objects[..k]);
            var url := FileUrl(cdn, s3Path, base, objects[k]);
            Records(cdn, s3Path, base, infos[..k + 1], objects[..k + 1]) ==
              if front.Err? then front
              else if url.Err? then Err(url.error)
              else Ok(front.value + [FileRecord(StripQuotes(objects[k].eTag), infos[k].name, infos[k].kind, url.value)])
  {
    assert infos[..k + 1][..k] == infos[..k];
    assert objects[..k + 1][..k] == objects[..k];
  }

  /** Rewriting size entries changes nothing but the entries, and keeps the engine's invariant. */
  lemma SettleKeeps(o: Options, n: nat)
    ensures var s := Settle(o, n);
            && TargetOf(s) == TargetOf(o) && View(s) == View(o) && s.cdn == o.cdn
            && s.sizes.SizeList? == o.sizes.SizeList?
            && (Truthy(o.bucket) && FitAccepted(o.fit) && SizesAccepted(o.sizes) ==>
                  Truthy(s.bucket) && FitAccepted(s.fit) && SizesAccepted(s.sizes))
  {
  }

  /** Deleting a key forgets what it was last set to. */
  lemma RemoveAfterUpdate(m: map<string, seq<string>>, k: string, v: seq<string>)
    ensures m[k := v] - {k} == m - {k}
  {
  }

  // ---------------------------------------------------------------------
  // The `forEach` callback over the sizes, on the walk's local state

  /**
   * transformAndUpload: dispatches one upload to `t` and pushes its
   * `fileInfo` entry and its pipeline.
   */
  method TransformAndUpload(t: Target, view: TransformOptions, s3: Value, upload: UploadService, filename: string, size: SizeSpec, p: Progress)
    returns (p': Progress, started: Result<Started>)
    ensures started == StartUpload(t, s3, upload, |p.infos|, filename, size, view)
    ensures p' == Record(p, started)
  {
    started := StartUpload(t, s3, upload, |p.infos|, filename, size, view);
    p' := p;
    if started.Ok? {
      p' := p'.(infos := p'.infos + [started.value.info], pipelines := p'.pipelines + [started.value.pipeline]);
    } else {
      p' := p'.(thrown := Some(started.error));
    }
  }

  /**
   * The callback for one size entry: its name, then its uploads. The
   * entry as the transform rewrote it comes back in `rewritten` once its
   * own upload is under way.
   */
  method SizeCallback(t: Target, view: TransformOptions, s3: Value, upload: UploadService, filename: string, size: SizeSpec, p: Progress)
    returns (p': Progress, rewritten: Option<SizeSpec>)
    ensures p' == SizeStep(t, view, s3, upload, filename, size, p)
    ensures rewritten.None? ==> p'.settled == p.settled && p'.thrown.Some?
    ensures rewritten.Some? ==> p'.settled == p.settled + 1 && rewritten.value == Rewritten(view, size)
  {
    var newFilename := AddSuffix(Str(filename), size.name);
    if newFilename.Err? {
      return p.(thrown := Some(newFilename.error)), None;
    }
    p' := p.(names := p.names + [newFilename.value]);
    p', rewritten := UploadEntry(t, view, s3, upload, filename, size, p', newFilename.value);
  }

  /** The entry's own upload under `name`, then its WebP sibling. */
  method UploadEntry(t: Target, view: TransformOptions, s3: Value, upload: UploadService, filename: string, size: SizeSpec, p: Progress, name: string)
    returns (p': Progress, rewritten: Option<SizeSpec>)
    ensures p' == PrimaryStep(t, view, s3, upload, filename, size, p, name)
    ensures rewritten.None? ==> p'.settled == p.settled && p'.thrown.Some?
    ensures rewritten.Some? ==> p'.settled == p.settled + 1 && rewritten.value == Rewritten(view, size)
  {
    var primary;
    p', primary := TransformAndUpload(t, view, s3, upload, name, size, p);
    if primary.Err? {
      return p', None;
    }
    rewritten := Some(primary.value.size);
    p' := UploadSibling(t, view, s3, upload, filename, primary.value.size, p'.(settled := p'.settled + 1));
  }

  /** The WebP sibling of a size entry, when `webP` is set globally or on the entry. */
  method UploadSibling(t: Target, view: TransformOptions, s3: Value, upload: UploadService, filename: string, size: SizeSpec, p: Progress)
    returns (p': Progress)
    ensures p' == SiblingStep(t, view, s3, upload, filename, size, p)
    ensures p'.settled == p.settled
  {
    p' := p;
    if Truthy(view.webP) || Truthy(size.webP) {
      var sibling := SiblingName(filename, size.name);
      if sibling.Err? {
        return p.(thrown := Some(sibling.error));
      }
      var second;
      p', second := TransformAndUpload(t, SiblingView(view), s3, upload, sibling.value, size, p.(names := p.names + [sibling.value]));
    }
  }

  /** One turn of the walk: the callback for entry `i`, and the entry stored back once rewritten. */
  method WalkStep(t: Target, view: TransformOptions, s3: Value, upload: UploadService, filename: string,
                  sizes: seq<SizeSpec>, i: nat, p: Progress, list: seq<SizeSpec>)
    returns (p': Progress, list': seq<SizeSpec>)
    requires i < |sizes| && p == Run(t, view, s3, upload, filename, sizes[..i]) && p.thrown.None?
    requires p.settled == i && list == SettleList(view, sizes, i)
    ensures p' == Run(t, view, s3, upload, filename, sizes[..i + 1])
    ensures list' == SettleList(view, sizes, p'.settled)
    ensures p'.thrown.None? ==> p'.settled == i + 1
  {
    RunNext(t, view, s3, upload, filename, sizes, i, p);
    var rewritten;
    p', rewritten := SizeCallback(t, view, s3, upload, filename, sizes[i], p);
    list' := list;
    if rewritten.Some? {
      SettleListNext(view, sizes, i);
      list' := list[i := rewritten.value];
    }
  }

  // ---------------------------------------------------------------------
  // The engine

  class ImageStorageEngine {
    var s3: Value
    var options: Options
    /** Original file name to the names generated for it, while its uploads are in flight. */
    var fileMap: map<string, seq<string>>

    /** What the constructor establishes about the options and the methods keep. */
    ghost predicate Valid()
      reads this
    {
      Truthy(options.bucket) && FitAccepted(options.fit) && SizesAccepted(options.sizes)
    }

    constructor (s3: Value, options: Options)
      requires Truthy(options.bucket) && FitAccepted(options.fit) && SizesAccepted(options.sizes)
      ensures Valid()
      ensures this.s3 == s3 && this.options == options && fileMap == map[]
    {
      this.s3 := s3;
      this.options := options;
      fileMap := map[];
    }

    /** `new ImageStorageEngine(s3, options)`, or the error the constructor throws. */
    static method New(s3: Value, options: Option<UserOptions>, env: Env) returns (r: Result<ImageStorageEngine>)
      ensures r.Err? <==> Construct(s3, options, env).Err?
      ensures r.Err? ==> r.error == Construct(s3, options, env).error
      ensures r.Ok? ==> fresh(r.value) && r.value.Valid()
      ensures r.Ok? ==> r.value.s3 == s3 && r.value.options == Construct(s3, options, env).value && r.value.fileMap == map[]
    {
      var merged := Construct(s3, options, env);
      if merged.Err? {
        return Err(merged.error);
      }
      var engine := new ImageStorageEngine(s3, merged.value);
      return Ok(engine);
    }

    /**
     * The `forEach` over the sizes. Each name is pushed into the map entry
     * and each rewritten entry stored back into `options` as the walk goes.
     */
    method WalkSizes(originalname: string, filename: string, upload: UploadService, sizes: seq<SizeSpec>)
      returns (p: Progress)
      requires options.sizes == SizeList(sizes) && originalname in fileMap && fileMap[originalname] == []
      modifies this
      ensures s3 == old(s3) && fileMap == old(fileMap)[originalname := p.names]
      ensures p == Run(TargetOf(old(options)), View(old(options)), s3, upload, filename, sizes)
      ensures options == Settle(old(options), p.settled)
    {
      ghost var o := options;
      var t, view := TargetOf(options), View(options);
      p := Start;
      var list := sizes;
      var i := 0;
      while i < |sizes| && p.thrown.None?
        invariant 0 <= i <= |sizes| && s3 == old(s3)
        invariant fileMap == old(fileMap)[originalname := p.names]
        invariant p == Run(t, view, s3, upload, filename, sizes[..i])
        invariant list == SettleList(view, sizes, p.settled) && options == o
        invariant p.thrown.None? ==> p.settled == i
      {
        p, list := WalkStep(t, view, s3, upload, filename, sizes, i, p, list);
        fileMap := fileMap[originalname := p.names];
        i := i + 1;
      }
      options := options.(sizes := SizeList(list));
      if p.thrown.Some? {
        RunStopped(t, view, s3, upload, filename, sizes, i);
      } else {
        assert sizes[..i] == sizes;
      }
    }

    /** The `forEach` building `files` from the uploads' results, in order. */
    method BuildFiles(filename: string, fileInfo: seq<FileInfo>, data: seq<StoredObject>) returns (r: Result<seq<FileRecord>>)
      requires |fileInfo| == |data|
      ensures r == Records(options.cdn, options.s3Path, filename, fileInfo, data)
    {
      var files: seq<FileRecord> := [];
      var k := 0;
      while k < |fileInfo|
        invariant 0 <= k <= |fileInfo|
        invariant Records(options.cdn, options.s3Path, filename, fileInfo[..k], data[..k]) == Ok(files)
      {
        var url := FileUrl(options.cdn, options.s3Path, filename, data[k]);
        RecordsNext(options.cdn, options.s3Path, filename, fileInfo, data, k);
        if url.Err? {
          RecordsStopped(options.cdn, options.s3Path, filename, fileInfo, data, k + 1);
          return Err(url.error);
        }
        files := files + [FileRecord(StripQuotes(data[k].eTag), fileInfo[k].name, fileInfo[k].kind, url.value)];
        k := k + 1;
      }
      assert fileInfo[..k] == fileInfo && data[..k] == data;
      return Ok(files);
    }

    /**
     * _handleFile for an upload named `originalname`; `random` is the error
     * crypto reported for the random bytes, if any, and `digest` the hash
     * getName computes from them. Returns what the callback receives and the
     * pipelines wired. The map entry is kept when the callback gets an
     * error and deleted when it gets the files.
     */
    method HandleFile(originalname: string, random: Option<Error>, digest: Result<string>, upload: UploadService)
      returns (r: Result<seq<FileRecord>>, pipelines: seq<Pipeline>)
      requires Valid()
      modifies this
      ensures Valid() && s3 == old(s3)
      ensures var named := GetName(random, digest, Some(Str(originalname)));
              named.Err? ==> r == Err(named.error) && pipelines == [] && options == old(options) && fileMap == old(fileMap)
      ensures var named := GetName(random, digest, Some(Str(originalname)));
              named.Ok? ==>
                var p := Dispatch(old(options), s3, upload, named.value);
                && pipelines == p.pipelines
                && r == Respond(old(options), named.value, p)
                && options == Settle(old(options), p.settled)
                && fileMap == if r.Ok? then old(fileMap) - {originalname} else old(fileMap)[originalname := p.names]
    {
      var named := GetName(random, digest, Some(Str(originalname)));
      if named.Err? {
        return Err(named.error), [];
      }
      ghost var o := options;
      var p := Upload(originalname, named.value, upload);
      SettleKeeps(o, p.settled);
      pipelines := p.pipelines;
      r := Collect(named.value, p);
      if r.Ok? {
        RemoveAfterUpdate(old(fileMap), originalname, p.names);
        fileMap := fileMap - {originalname};
      }
    }

    /** The map entry for `originalname`, then the walk over the sizes when there are any. */
    method Upload(originalname: string, filename: string, upload: UploadService) returns (p: Progress)
      modifies this
      ensures s3 == old(s3) && p == Dispatch(old(options), s3, upload, filename)
      ensures options == Settle(old(options), p.settled)
      ensures fileMap == old(fileMap)[originalname := p.names]
    {
      fileMap := fileMap[originalname := []];
      p := Start;
      match options.sizes {
        case NotArray(v) =>
          if v.Undefined? || v.Null? {
            p := p.(thrown := Some(LengthError(v)));
          }
        case SizeList(sizes) =>
          p := WalkSizes(originalname, filename, upload, sizes);
      }
    }

    /** `await Promise.all(...)`, then the files, unless the walk threw. */
    method Collect(filename: string, p: Progress) returns (r: Result<seq<FileRecord>>)
      ensures r == Respond(options, filename, p)
    {
      if p.thrown.Some? {
        return Err(p.thrown.value);
      }
      var data := AwaitAll(Promises(p.infos));
      if data.Err? {
        return Err(data.error);
      }
      r := BuildFiles(filename, p.infos, data.value);
    }

    /**
     * _removeFile for an upload named `originalname`; `envBucket` is
     * `process.env.S3_BUCKET` at the time of the call.
     */
    method RemoveFile(originalname: string, envBucket: Option<string>, remove: DeleteService) returns (r: Removal)
      modifies this
      ensures s3 == old(s3) && options == old(options)
      ensures originalname !in old(fileMap) ==> r == NothingToRemove && fileMap == old(fileMap)
      ensures originalname in old(fileMap) ==>
                && fileMap == old(fileMap) - {originalname}
                && r == RemoveOutcome(s3, options.s3Path, EnvVar(envBucket), remove, old(fileMap)[originalname])
    {
      if originalname !in fileMap {
        return NothingToRemove;
      }
      var filesToDelete := fileMap[originalname];
      fileMap := fileMap - {originalname};
      if |filesToDelete| == 0 {
        return NoCallback;
      }
      var bucket := EnvVar(envBucket);
      var promises: seq<Promise<Value>> := [];
      var k := 0;
      while k < |filesToDelete|
        invariant 0 <= k <= |filesToDelete|
        invariant DeleteAll(s3, options.s3Path, bucket, remove, filesToDelete[..k]) == Ok(promises)
      {
        assert filesToDelete[..k + 1][..k] == filesToDelete[..k];
        var key := PathJoin([options.s3Path, Str(filesToDelete[k])]);
        if key.Err? {
          DeleteAllStopped(s3, options.s3Path, bucket, remove, filesToDelete, k + 1);
          return RemoveFailed(key.error);
        }
        var call := RemoveAsync(s3, DeleteParams(bucket, key.value), remove, k);
        if call.Threw? {
          DeleteAllStopped(s3, options.s3Path, bucket, remove, filesToDelete, k + 1);
          return RemoveFailed(call.error);
        }
        promises := promises + [call.promise];
        k := k + 1;
      }
      assert filesToDelete[..k] == filesToDelete;
      var data := AwaitAll(promises);
      if data.Err? {
        return RemoveFailed(data.error);
      }
      return Removed(data.value);
    }
  }
}
