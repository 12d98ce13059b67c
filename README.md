# multer-image-transform-s3, modelled in Dafny

A model of the multer storage engine `ImageStorageEngine`. It takes an uploaded image and generates a hashed file name for it. Each configured size entry gets a suffixed name, plus an optional `.webp` sibling. Each of those files is piped through a sharp transform into an S3 upload. The engine then reports one result entry per stored file. If a later step fails, the engine deletes what it recorded for that upload.

The model has five modules:

- `Js` holds the JavaScript values the engine inspects: undefined, null, booleans, numbers, strings and objects. It also holds truthiness, `||`, thrown errors (`Error` and `TypeError`), and result types.
- `FileHelper` models the name helpers of `utils/fileHelper.js` by splitting and joining on `.`. Each helper is specified against an independent index of the last dot.
- `ImageTransformer` models the `imageTransform` of `utils/imageTransformer.js` as a plan: the sharp builder calls it makes, in order. It also holds the fit-type check.
- `StorageEngine` covers `index.js` in two layers:
  - The behaviour of the constructor, `_handleFile` and `_removeFile` as functions: `Construct`, then `Dispatch` (the walk over the sizes), then `Respond` (the callback's outcome), and `RemoveOutcome`.
  - The class `ImageStorageEngine`, whose fields are `s3`, `options` and `fileMap`. Its methods follow the source's loops and are proved to compute exactly those functions and to update the fields as the source does.
- `EngineProperties` compares the walk with an independent reference plan, `UploadPlan`, which only names files and chooses their transforms. It proves what the engine promises about names, order, transforms, results, the in-flight map, the constructor's checks and defaults, and the compensating deletes.

The S3 client is an oracle. `UploadService` takes the number of uploads dispatched before the call, plus the request, and says whether `s3.upload(params).promise()` throws or returns a promise that resolves or rejects. `DeleteService` works the same way for `s3.deleteObject`. The environment (`S3_BUCKET`, `S3_PATH`, `CDN_HOST`), the error crypto reports for the random bytes, and the hex digest of those bytes are parameters.

Where the code's own documentation and the code disagree, the model follows the code:

- **Global fit versus per-size fit.** The constructor's documentation says a size entry's own `options.fit` overrides the global fit (index.js:43-44). In the code, a truthy global `fit` replaces the entry's whole `options` with `{fit}` (utils/imageTransformer.js:18-20). The default fit `'outside'` is truthy, so a size entry's own fit or position never reaches sharp unless the caller sets a falsy `fit`. See `GlobalFitOverridesSize` and `DefaultFitWins`.
- **Which `webP` flag decides the output format.** The WebP sibling is transformed with `{webP: true, ...this.options}`. The merged options always have their own `webP` key, so the spread overrides the `true` (index.js:127). A sibling asked for only by its size entry therefore gets the `.webp` name but keeps the input format. With a global `webP: true`, the primary files are WebP output too, under their original extension. See `SiblingView`, `TransformedAs` and `TwoEntries`.

Other behaviours of the code that the model keeps:

- The CDN URL is built from the base name for every entry (index.js:138-140).
- `_removeFile` deletes from `process.env.S3_BUCKET`, not from the configured bucket (index.js:175-177).
- An empty in-flight entry is deleted without the callback ever being called (index.js:173).
- A `null` s3 passes the constructor's guard (index.js:50).
- `getExtension` of `""` throws no error: a dot-free string, the empty one included, has no extension (utils/fileHelper.js:27-31).
- The `name` errors of `updateExtension` and `addSuffix` carry only `"name"` as their message, because a second argument to `Error` is not part of its message (utils/fileHelper.js:38, 55).

## Model

| member | source | states |
|---|---|---|
| ImageTransformer.ValidateFitType | utils/imageTransformer.js:42 | throws exactly for a non-string fit; otherwise accepts exactly the five fit names, as a whole-string match |
| ImageTransformer.Plan | utils/imageTransformer.js:23-39 | the planned builder calls follow the fixed order; rotate, grayscale, withMetadata and webp appear exactly when their flag is truthy; the resize step is always present, and it is the only resize |
| ImageTransformer.ImageTransform | utils/imageTransformer.js:15-40 | missing options and size count as `{}`; a truthy global fit replaces the size entry's options with `{fit}`, and the rewritten entry is returned; the plan has exactly the flagged steps in order and one resize with the rewritten entry's width, height and options |
| ImageTransformer.InOrderPairwise | utils/imageTransformer.js:23-37 | a plan ordered step by step ranks every earlier step below every later one |
| ImageTransformer.ChainInOrder | utils/imageTransformer.js:23-37 | whichever flags are set, the conditional builder calls come out in the fixed order |
| ImageTransformer.GlobalFitOverridesSize | utils/imageTransformer.js:18-34 | with a truthy global fit, every planned resize carries exactly `{fit}`, never the entry's own fit or position |
| ImageTransformer.TransformIdempotent | utils/imageTransformer.js:15-40 | transforming the entry it already rewrote plans the same pipeline and leaves the entry unchanged |
| ImageTransformer.MissingArgumentsAreEmpty | utils/imageTransformer.js:16-17 | omitting options or size behaves exactly as passing `{}` |
| FileHelper.GetExtension | utils/fileHelper.js:26-34 | throws exactly for non-strings; `undefined` when there is no dot; otherwise exactly the text after the last dot |
| FileHelper.UpdateExtension | utils/fileHelper.js:36-51 | succeeds exactly for two non-empty strings, with the message `name` for a bad name; a dot-free name gets `.ext` appended; otherwise everything up to the last dot, then the new extension |
| FileHelper.AddSuffix | utils/fileHelper.js:53-69 | a bad name throws `name`; a missing, empty or non-string suffix returns the name unchanged; a real suffix succeeds exactly when the name has a dot, and inserts `_suffix` just before the last dot |
| FileHelper.GetName | utils/fileHelper.js:6-24 | a randomness error reaches the callback first, before the extension is read; otherwise an extension error, then a hashing error; on success the name starts with the digest; with no file descriptor, the name is the digest itself |
| FileHelper.JoinSplit | utils/fileHelper.js:44-50 | joining the parts of a split on `.` gives back the string |
| FileHelper.ExtensionOfDotted | utils/fileHelper.js:26-34 | `getExtension(p + '.' + e)` is `e` for dot-free `e`, and `''` after a trailing dot |
| FileHelper.UpdateExtensionOfDotted | utils/fileHelper.js:36-51 | `updateExtension(p + '.' + e, x)` is `p + '.' + x`, with earlier dots kept |
| FileHelper.AddSuffixOfDotted | utils/fileHelper.js:53-69 | `addSuffix(p + '.' + e, x)` is `p + '_' + x + '.' + e` |
| FileHelper.AddSuffixKeepsExtension | utils/fileHelper.js:53-69 | suffixing never changes what getExtension reports |
| FileHelper.AddSuffixNoOpIdempotent | utils/fileHelper.js:57-59 | a no-op suffix applied after a real one changes nothing |
| FileHelper.UpdateExtensionSetsExtension | utils/fileHelper.js:36-51 | after updateExtension with a dot-free extension, getExtension reports that extension |
| FileHelper.UpdateExtensionRoundTrip | utils/fileHelper.js:36-51 | replacing the extension and then restoring the old one gives back the original name when the old extension is non-empty; after a trailing dot, restoring `''` throws |
| FileHelper.GetNameExtension | utils/fileHelper.js:11-13 | for a dot-free digest, the generated name is the digest plus `.` and the stored extension, if any; getExtension of that name reports exactly that extension |
| FileHelper.GetNameShape | utils/fileHelper.js:11-19 | a non-empty digest always yields `digest` followed by the dotted stored extension |
| FileHelper.ExtensionOfGenerated | utils/fileHelper.js:13 | getExtension reads back the extension a generated name was given, or none |
| FileHelper.StoredExtensionDotFree | utils/fileHelper.js:11-12 | the extension a generated name carries never contains a dot (`gif` and `svg` become `png`) |
| StorageEngine.CheckOptions | index.js:49-58 | the three guards in source order, each with its message; the fit check throws a TypeError for a truthy non-string fit; it passes exactly when no guard fires, and leaves the options unchanged |
| StorageEngine.Construct | index.js:48-75 | the guard errors, then "A valid bucket must be provided ..." exactly when neither the options nor the environment give a bucket; success exactly when neither fails, with the merged options, a truthy bucket, an accepted fit and accepted sizes |
| StorageEngine.PathJoin | index.js:78 | `path.join` succeeds exactly when every argument is a string, keeps the arguments in order, and otherwise throws a TypeError |
| StorageEngine.AwaitAll | index.js:136 | `Promise.all` resolves exactly when every promise resolves, with their values in order; otherwise it rejects with the error of one of the rejected promises |
| StorageEngine.StartUpload | index.js:77-91 | the key is `path.join(s3Path, filename)`; the `fileInfo` entry has the name and type; the entry's promise is the store's answer to exactly that request; and the size entry comes back as the transform rewrote it |
| StorageEngine.StripQuotes | index.js:142 | no quote or apostrophe is left, the result is no longer than the ETag, and an ETag without quotes is unchanged |
| StorageEngine.StripQuotesChar | index.js:142 | a single character is dropped exactly when it is a quote or an apostrophe, and kept otherwise |
| StorageEngine.StripQuotesAppend | index.js:142 | stripping a concatenation is the concatenation of the stripped parts, so every other character survives, in order |
| StorageEngine.RunStopped | index.js:108-152 | once something has been thrown, later size entries change nothing |
| StorageEngine.TransformAndUpload | index.js:77-91 | pushes exactly the started upload's `fileInfo` entry and pipeline, or records the error thrown |
| StorageEngine.SizeCallback | index.js:110-133 | one `forEach` callback computes exactly `SizeStep`, and hands back the rewritten entry exactly when the entry's own upload started |
| StorageEngine.UploadEntry | index.js:112-132 | the entry's own upload, then its sibling, compute exactly `PrimaryStep` |
| StorageEngine.UploadSibling | index.js:121-132 | the WebP sibling is dispatched only when `webP` is set globally or on the entry, and computes exactly `SiblingStep` |
| StorageEngine.WalkStep | index.js:110-133 | one turn of the walk extends `Run` by one size entry, and stores back that entry as rewritten |
| StorageEngine.ImageStorageEngine.constructor | index.js:64-74 | stores `s3` and the merged options, with an empty in-flight map |
| StorageEngine.ImageStorageEngine.New | index.js:48-75 | fails exactly when `Construct` does, with its error; otherwise a fresh engine holding the merged options and an empty map, satisfying the invariant |
| StorageEngine.ImageStorageEngine.WalkSizes | index.js:109-134 | the loop computes `Run`; the map entry holds exactly the names pushed; the options hold the size entries the transforms rewrote |
| StorageEngine.ImageStorageEngine.BuildFiles | index.js:137-147 | the loop builds exactly `Records`: one entry per `fileInfo` entry, in order |
| StorageEngine.ImageStorageEngine.HandleFile | index.js:93-160 | a naming error goes to the callback and changes nothing; otherwise the callback gets `Respond` of the walk; the map entry is deleted exactly when the files are delivered, and otherwise holds the names pushed; the invariant is kept |
| StorageEngine.ImageStorageEngine.Upload | index.js:99-134 | registers the map entry, then walks the sizes, or throws on reading the length of `undefined` or `null` |
| StorageEngine.ImageStorageEngine.Collect | index.js:136-152 | an error thrown by the walk, then `Promise.all`, then the `files` list |
| StorageEngine.ImageStorageEngine.RemoveFile | index.js:162-191 | an unknown upload gives `cb(null, true)`; otherwise the entry is removed from the map, and the outcome is exactly `RemoveOutcome` of its names, deleted from the environment's bucket |
| EngineProperties.UploadStarts | index.js:77-79 | a store that accepts the request, with a bucket, an ACL, an object client and a string prefix, lets the upload start |
| EngineProperties.SiblingTransform | index.js:121-131 | the sibling's transform sees the entry its primary rewrote, and plans the same pipeline under the same type |
| EngineProperties.RunFollowsPlan | index.js:108-134 | the walk carries out the reference plan: in full when nothing is thrown, and up to where it stopped otherwise; a plan that cannot name its files means an error was thrown; names pushed are always planned names; a plan the store accepts in full throws nothing |
| EngineProperties.PlanLength | index.js:110-133 | every size entry plans its own file and, when it wants WebP, exactly one sibling more |
| EngineProperties.EntrySharesPlan | index.js:113-131 | the files of one size entry, its sibling included, all get the entry's own transform |
| EngineProperties.PlanTransforms | index.js:113-131 | every planned file's transform is in the fixed order, has WebP output exactly when the engine's `webP` is set, and, under a global fit, resizes with `{fit}` |
| EngineProperties.RecordsOk | index.js:137-147 | once there is a key prefix, building the files never fails and gives one entry per `fileInfo` entry |
| EngineProperties.RecordsEntry | index.js:137-147 | entry `i` of the files is built from entry `i` of `fileInfo` and of the stored objects: stripped ETag, name, type and URL |
| EngineProperties.RespondFollowsPlan | index.js:136-158 | the callback gets the files exactly when every planned upload resolves; the files are then one per planned file, in plan order; otherwise the error is the rejection of some planned upload |
| EngineProperties.HandleOutcome | index.js:93-160 | for a sizes array: a plan that cannot name its files gives an error; the map entry always holds planned names in order; delivered files mean every name was pushed and the files match the plan; a store that accepts and resolves everything means success |
| EngineProperties.NoSizes | index.js:109-158 | an empty sizes array pushes no names, dispatches nothing, and delivers an empty list |
| EngineProperties.SizesNotArray | index.js:109 | a falsy non-array sizes throws on reading the length of `undefined` or `null`, and otherwise walks nothing |
| EngineProperties.ConstructRejects | index.js:50-70 | each constructor failure gives its own error, in source order |
| EngineProperties.ConstructAccepts | index.js:48-75 | the constructor succeeds exactly when no guard fires and a bucket is found |
| EngineProperties.ConstructResolves | index.js:60-62 | bucket, s3Path and cdn come from the option when truthy, else the environment, else `''` for the last two |
| EngineProperties.ConstructDefaults | config/defaults.js:8-15 | an own option key wins even when falsy, otherwise the default applies: acl `public-read`, rotate true, webP false, fit `outside`, sizes `[{}]`; `sizes: []` stays empty |
| EngineProperties.DefaultFitWins | config/defaults.js:12 | unless the caller sets `fit`, every planned resize uses `{fit: 'outside'}` |
| EngineProperties.DeleteAllShape | index.js:173-183 | the deletes can be issued exactly when the client is an object, the prefix a string and no call throws; then there is one promise per recorded name, in order, each for key `path.join(s3Path, name)` |
| EngineProperties.RemoveOutcomeShape | index.js:162-191 | an empty entry gives no callback; `cb(null, data)` exactly when every delete is issued and resolves, with one result per name in order; otherwise, once all deletes are issued, the error is one delete's rejection |
| EngineProperties.TwoEntries | index.js:110-133 | sizes `[{name: x, webP: true}, {}]` with the engine's webP off give three files: the suffixed name, its `.webp` sibling of the same type and without WebP output, then the base name as `original` |
| EngineProperties.TwoEntriesNames | utils/fileHelper.js:36-69 | for base name `p.e`, the names in that example are `p_x.e`, `p.webp` and `p_x.webp` |

## Left out

- Streams, piping and sharp's pixel work are not modelled. Each upload carries the plan of builder calls that would be piped into it. Errors emitted on the streams (index.js:88, 90) and sharp's own argument checks are left out.
- Randomness and hashing (`crypto.pseudoRandomBytes`, the MD5 digest) are left out. `FileHelper.GetName` receives, as parameters, the error `pseudoRandomBytes` reported, if any, and the digest or the error hashing threw.
- FileHelper.GetName: after a `pseudoRandomBytes` error the source passes it to the callback and then goes on (utils/fileHelper.js:8). A second callback then follows, with an extension error, or with the error hashing the missing bytes throws, or with the name. The model reports only the first call.
- AwaitAll: which rejection `Promise.all` reports depends on timing. The model takes the first in index order, and its contract promises only "one of the rejected promises".
- `path.join` normalisation is not modelled. A joined path is kept as the list of its arguments, so two keys are equal exactly when their parts are.
- The `params` object is shared and its `Key` is rewritten for each upload and delete (index.js:78, 181). The model gives each request its own key, which is the same as assuming the client reads `params` when it is called.
- Concurrency and the async interleaving of several `_handleFile` and `_removeFile` calls on one engine are not modelled. Each method runs to completion.
- The constructor writes `bucket`, `s3Path` and `cdn` back into the caller's own options object (index.js:60-62). The model only computes the merged options.
- StorageEngine.ImageStorageEngine.WalkSizes stores the rewritten size entries into `options` once, after the loop. The source writes each entry as its transform runs. Nothing in the walk reads the entries back, so the final state is the same.
- The user's `sizes` array is shared by reference with `this.options.sizes`, so imageTransform's rewrite of each entry is visible to the caller. The model keeps the rewrite in the engine's options only.
- `fileMap` is a plain object (index.js:74), so inherited names such as `toString`, `constructor` and `__proto__` behave as entries before anything is registered. The model's map holds only registered names. For such an original name `_removeFile` gives `cb(null, true)` in the model. In the source, `toString` gives no callback, `constructor` makes `path.join` throw, and `__proto__` is never really registered or deleted (index.js:99, 154, 164-181).
- The default `sizes: [{}]` (config/defaults.js:13) is one array, shared by every engine built without `sizes` (index.js:66). The `{fit}` that imageTransform writes into its `{}` (utils/imageTransformer.js:19) therefore carries over to later engines. EngineProperties.ConstructDefaults and the model start every such engine at a fresh `[{}]`.
- A `sizes` entry that is not an object, such as `null`, passes the constructor's check (index.js:53) and then throws on `size.name` (index.js:111). `SizeSpec` represents only object entries, so that error path is not modelled.
- Option keys the engine does not read are left out. So are an `originalname` that is not a string and a missing `file` in `_handleFile`.
- Numbers are unbounded integers. The engine only tests them for truthiness, and width and height go to sharp unread.
- TypeErrors thrown by the runtime (`fit.match`, `path.join`, the `sizes` length) carry approximate messages. The contracts state only that they are TypeErrors.
- A truthy options argument that is not an object is left out. `Construct` takes either an options record or none.
- getUploadWriteStream and removeAsync (utils/awsHelper.js) are modelled by their argument checks around the store oracle. The S3 client itself is an oracle.
- The `EventEmitter.defaultMaxListeners` setting (index.js:12) has no counterpart.
