/**
 * What `_handleFile`, the constructor and `_removeFile` promise, proved of
 * the functions in StorageEngine that the class methods are shown to
 * compute.
 *
 * The walk over the sizes is compared with an independent plan that only
 * names files and picks their transforms, with no store involved: for each
 * size entry in order, its own file and, when `webP` is set globally or on
 * the entry, a `.webp` sibling right after it.
 */
module EngineProperties {
  import opened Js
  import opened FileHelper
  import opened ImageTransformer
  import opened StorageEngine

  // ---------------------------------------------------------------------
  // The upload plan

  /** A file the engine is meant to store: its name, its `type`, and the transform piped into it. */
  datatype PlannedUpload = PlannedUpload(name: string, kind: Value, plan: seq<Step>)

  /** Whether a size entry gets a WebP sibling. */
  predicate WantsWebP(view: TransformOptions, size: SizeSpec)
  {
    Truthy(view.webP) || Truthy(size.webP)
  }

  /** A plan so far, extended by more planned files or failing with their naming error. */
  function Extend(plan: seq<PlannedUpload>, more: Result<seq<PlannedUpload>>): Result<seq<PlannedUpload>>
  {
    if more.Err? then Err(more.error) else Ok(plan + more.value)
  }

  /**
   * The sibling of an entry whose own transform is `own`: named by
   * `addSuffix(updateExtension(base, 'webp'), size.name)` and transformed
   * exactly as its primary.
   */
  function SiblingPlan(view: TransformOptions, base: string, size: SizeSpec, own: seq<Step>): Result<seq<PlannedUpload>>
  {
    if !WantsWebP(view, size) then Ok([])
    else
      var webPName :- UpdateExtension(Str(base), Str("webp"));
      var sibling :- AddSuffix(Str(webPName), size.name);
      Ok([PlannedUpload(sibling, Label(size), own)])
  }

  /** The files of one size entry: `addSuffix(base, size.name)`, then its sibling. */
  function EntryPlan(view: TransformOptions, base: string, size: SizeSpec): Result<seq<PlannedUpload>>
  {
    var name :- AddSuffix(Str(base), size.name);
    var own := ImageTransform(Some(view), Some(size)).plan;
    Extend([PlannedUpload(name, Label(size), own)], SiblingPlan(view, base, size, own))
  }

  /** The files of all size entries, entry by entry in order; a naming error fails the plan. */
  function UploadPlan(view: TransformOptions, base: string, sizes: seq<SizeSpec>): Result<seq<PlannedUpload>>
    decreases |sizes|
  {
    if sizes == [] then Ok([])
    else
      var front :- UploadPlan(view, base, sizes[..|sizes| - 1]);
      Extend(front, EntryPlan(view, base, sizes[|sizes| - 1]))
  }

  /** How many size entries get a WebP sibling. */
  function WebPCount(view: TransformOptions, sizes: seq<SizeSpec>): nat
    decreases |sizes|
  {
    if sizes == [] then 0
    else WebPCount(view, sizes[..|sizes| - 1]) + (if WantsWebP(view, sizes[|sizes| - 1]) then 1 else 0)
  }

  /** The request of the upload of file `name`: key `path.join(s3Path, name)`. */
  function Request(t: Target, name: string): UploadParams
    requires t.s3Path.Str?
  {
    UploadParams(t.bucket, Joined([t.s3Path.s, name]), t.acl)
  }

  /**
   * The walk's state is the plan carried out: the map entry holds the
   * planned names, `fileInfo` their names and types, each pipeline the
   * planned transform under key `path.join(s3Path, name)`, and upload `i`
   * is that request, dispatched `i`-th.
   */
  predicate Follows(t: Target, upload: UploadService, p: Progress, plan: seq<PlannedUpload>)
  {
    && |p.names| == |plan| && |p.infos| == |plan| && |p.pipelines| == |plan|
    && forall i :: 0 <= i < |plan| ==>
         && p.names[i] == plan[i].name
         && p.infos[i].name == plan[i].name && p.infos[i].kind == plan[i].kind
         && t.s3Path.Str?
         && p.pipelines[i] == Pipeline(Joined([t.s3Path.s, plan[i].name]), plan[i].plan)
         && upload(i, Request(t, plan[i].name)) == Returned(p.infos[i].promise)
  }

  /** The names pushed are the first planned names. */
  predicate NamesPrefix(names: seq<string>, plan: seq<PlannedUpload>)
  {
    |names| <= |plan| && forall i :: 0 <= i < |names| ==> names[i] == plan[i].name
  }

  /**
   * Nothing stands in the way of dispatching the plan: the request carries
   * a bucket and an ACL, the store is an object, the key prefix a string,
   * and the store accepts every planned request.
   */
  predicate Dispatchable(t: Target, s3: Value, upload: UploadService, plan: seq<PlannedUpload>)
  {
    && Truthy(t.bucket) && Truthy(t.acl) && s3.Object? && t.s3Path.Str?
    && forall i :: 0 <= i < |plan| ==> upload(i, Request(t, plan[i].name)).Returned?
  }

  /**
   * The walk's state `p` against the plan so far: when nothing was thrown
   * the plan names its files and `p` follows it; a plan that cannot name
   * its files means something was thrown; the names pushed are planned
   * ones; and a plan the store accepts in full means nothing was thrown.
   */
  predicate Carries(t: Target, s3: Value, upload: UploadService, p: Progress, plan: Result<seq<PlannedUpload>>)
  {
    && (p.thrown.None? ==> plan.Ok? && Follows(t, upload, p, plan.value))
    && (plan.Err? ==> p.thrown.Some?)
    && (plan.Ok? ==> NamesPrefix(p.names, plan.value))
    && (plan.Ok? && Dispatchable(t, s3, upload, plan.value) ==> p.thrown.None?)
  }

  // ---------------------------------------------------------------------
  // The walk carries out the plan

  /** Pushing one dispatched upload to a state that follows the plan. */
  lemma PushUpload(t: Target, s3: Value, upload: UploadService, p: Progress, plan: seq<PlannedUpload>,
                   name: string, size: SizeSpec, view: TransformOptions, u: PlannedUpload)
    requires Follows(t, upload, p, plan)
    requires u == PlannedUpload(name, Label(size), ImageTransform(Some(view), Some(size)).plan)
    requires StartUpload(t, s3, upload, |p.infos|, name, size, view).Ok?
    ensures Follows(t, upload, Record(p.(names := p.names + [name]), StartUpload(t, s3, upload, |p.infos|, name, size, view)), plan + [u])
  {
    var started := StartUpload(t, s3, upload, |p.infos|, name, size, view).value;
    var q := Record(p.(names := p.names + [name]), Ok(started));
    var plan' := plan + [u];
    forall i | 0 <= i < |plan'|
      ensures q.names[i] == plan'[i].name && q.infos[i].name == plan'[i].name && q.infos[i].kind == plan'[i].kind
      ensures t.s3Path.Str? && q.pipelines[i] == Pipeline(Joined([t.s3Path.s, plan'[i].name]), plan'[i].plan)
      ensures upload(i, Request(t, plan'[i].name)) == Returned(q.infos[i].promise)
    {
      if i == |plan| {
        assert q.infos[i] == started.info && q.pipelines[i] == started.pipeline;
      } else {
        assert plan'[i] == plan[i] && q.infos[i] == p.infos[i] && q.pipelines[i] == p.pipelines[i];
      }
    }
  }

  /** A store that accepts the request, with a bucket, an ACL and a string prefix, lets the upload start. */
  lemma UploadStarts(t: Target, s3: Value, upload: UploadService, index: nat, name: string, size: SizeSpec, view: TransformOptions)
    requires Truthy(t.bucket) && Truthy(t.acl) && s3.Object? && t.s3Path.Str?
    requires upload(index, Request(t, name)).Returned?
    ensures StartUpload(t, s3, upload, index, name, size, view).Ok?
  {
    var parts := [t.s3Path, Str(name)];
    assert parts[0].Str? && parts[1].Str?;
    assert PathJoin(parts).value == Joined([t.s3Path.s, name]);
  }

  /** The file names pushed so far stay a prefix of the plan as it grows. */
  lemma PrefixGrows(names: seq<string>, plan: seq<PlannedUpload>, more: seq<PlannedUpload>)
    requires NamesPrefix(names, plan)
    ensures NamesPrefix(names, plan + more)
  {
    forall i | 0 <= i < |names|
      ensures names[i] == (plan + more)[i].name
    {
      assert (plan + more)[i] == plan[i];
    }
  }

  /** A state that follows the plan has pushed exactly the planned names. */
  lemma FollowsPrefix(t: Target, upload: UploadService, p: Progress, plan: seq<PlannedUpload>)
    requires Follows(t, upload, p, plan)
    ensures NamesPrefix(p.names, plan)
  {
  }

  /** One name pushed beyond a state that follows the plan, the next planned one. */
  lemma PushName(t: Target, upload: UploadService, p: Progress, plan: seq<PlannedUpload>, u: PlannedUpload)
    requires Follows(t, upload, p, plan)
    ensures NamesPrefix(p.names + [u.name], plan + [u])
  {
    var names, plan' := p.names + [u.name], plan + [u];
    forall i | 0 <= i < |names|
      ensures names[i] == plan'[i].name
    {
      if i < |plan| {
        assert names[i] == p.names[i] && plan'[i] == plan[i];
      }
    }
  }

  /**
   * The sibling's transform sees the entry its primary's transform
   * rewrote, and plans the same pipeline under the same `type`.
   */
  lemma SiblingTransform(view: TransformOptions, size: SizeSpec)
    ensures ImageTransform(Some(SiblingView(view)), Some(Rewritten(view, size))).plan == ImageTransform(Some(view), Some(size)).plan
    ensures Label(Rewritten(view, size)) == Label(size)
  {
    TransformIdempotent(Some(view), Some(size));
  }

  /** The sibling's own upload, named `sibling` and transformed as its primary. */
  lemma SiblingUpload(t: Target, view: TransformOptions, s3: Value, upload: UploadService, size: SizeSpec,
                      p: Progress, plan: seq<PlannedUpload>, sibling: string)
    requires Follows(t, upload, p, plan) && p.thrown.None?
    ensures var u := PlannedUpload(sibling, Label(size), ImageTransform(Some(view), Some(size)).plan);
            var q := Record(p.(names := p.names + [sibling]),
                            StartUpload(t, s3, upload, |p.infos|, sibling, Rewritten(view, size), SiblingView(view)));
            q.settled == p.settled && Carries(t, s3, upload, q, Ok(plan + [u]))
  {
    var rewritten := Rewritten(view, size);
    var u := PlannedUpload(sibling, Label(size), ImageTransform(Some(view), Some(size)).plan);
    SiblingTransform(view, size);
    PushName(t, upload, p, plan, u);
    if StartUpload(t, s3, upload, |p.infos|, sibling, rewritten, view).Ok? {
      PushUpload(t, s3, upload, p, plan, sibling, rewritten, view, u);
    } else if Dispatchable(t, s3, upload, plan + [u]) {
      assert (plan + [u])[|plan|] == u;
      UploadStarts(t, s3, upload, |p.infos|, sibling, rewritten, view);
    }
  }

  /**
   * The WebP sibling step carries out the sibling's plan, once its primary,
   * whose own transform rewrote the entry, has been dispatched.
   */
  lemma SiblingFollows(t: Target, view: TransformOptions, s3: Value, upload: UploadService, base: string,
                       size: SizeSpec, p: Progress, plan: seq<PlannedUpload>)
    requires Follows(t, upload, p, plan) && p.thrown.None?
    ensures var q := SiblingStep(t, view, s3, upload, base, Rewritten(view, size), p);
            q.settled == p.settled &&
            Carries(t, s3, upload, q, Extend(plan, SiblingPlan(view, base, size, ImageTransform(Some(view), Some(size)).plan)))
  {
    if !WantsWebP(view, size) {
      assert plan + [] == plan;
      FollowsPrefix(t, upload, p, plan);
    } else {
      var sibling := SiblingName(base, size.name);
      if sibling.Ok? {
        SiblingUpload(t, view, s3, upload, size, p, plan, sibling.value);
      }
    }
  }

  /** What can be dispatched in full can be dispatched up to any point. */
  lemma DispatchablePrefix(t: Target, s3: Value, upload: UploadService, plan: seq<PlannedUpload>, more: seq<PlannedUpload>)
    requires Dispatchable(t, s3, upload, plan + more)
    ensures Dispatchable(t, s3, upload, plan)
  {
    forall i | 0 <= i < |plan|
      ensures upload(i, Request(t, plan[i].name)).Returned?
    {
      assert (plan + more)[i] == plan[i];
    }
  }

  /** Once the walk has stopped, the plan may grow: the state still carries it. */
  lemma CarriesStopped(t: Target, s3: Value, upload: UploadService, p: Progress, plan: seq<PlannedUpload>,
                       more: Result<seq<PlannedUpload>>)
    requires Carries(t, s3, upload, p, Ok(plan)) && p.thrown.Some?
    ensures Carries(t, s3, upload, p, Extend(plan, more))
  {
    if more.Ok? {
      PrefixGrows(p.names, plan, more.value);
      if Dispatchable(t, s3, upload, plan + more.value) {
        DispatchablePrefix(t, s3, upload, plan, more.value);
      }
    }
  }

  lemma ExtendAssoc(plan: seq<PlannedUpload>, u: PlannedUpload, more: Result<seq<PlannedUpload>>)
    ensures Extend(plan + [u], more) == Extend(plan, Extend([u], more))
  {
    if more.Ok? {
      assert plan + [u] + more.value == plan + ([u] + more.value);
    }
  }

  /** An entry's own upload under `name`, then its sibling, carry out the entry's plan. */
  lemma PrimaryFollows(t: Target, view: TransformOptions, s3: Value, upload: UploadService, base: string,
                       size: SizeSpec, p: Progress, plan: seq<PlannedUpload>, name: string)
    requires Follows(t, upload, p, plan) && p.thrown.None?
    ensures var u := PlannedUpload(name, Label(size), ImageTransform(Some(view), Some(size)).plan);
            Carries(t, s3, upload, PrimaryStep(t, view, s3, upload, base, size, p.(names := p.names + [name]), name),
                    Extend(plan + [u], SiblingPlan(view, base, size, u.plan)))
  {
    if StartUpload(t, s3, upload, |p.infos|, name, size, view).Ok? {
      PrimaryDispatched(t, view, s3, upload, base, size, p, plan, name);
    } else {
      PrimaryThrew(t, view, s3, upload, base, size, p, plan, name);
    }
  }

  lemma PrimaryDispatched(t: Target, view: TransformOptions, s3: Value, upload: UploadService, base: string,
                          size: SizeSpec, p: Progress, plan: seq<PlannedUpload>, name: string)
    requires Follows(t, upload, p, plan) && p.thrown.None?
    requires StartUpload(t, s3, upload, |p.infos|, name, size, view).Ok?
    ensures var u := PlannedUpload(name, Label(size), ImageTransform(Some(view), Some(size)).plan);
            Carries(t, s3, upload, PrimaryStep(t, view, s3, upload, base, size, p.(names := p.names + [name]), name),
                    Extend(plan + [u], SiblingPlan(view, base, size, u.plan)))
  {
    var u := PlannedUpload(name, Label(size), ImageTransform(Some(view), Some(size)).plan);
    var p1 := Record(p.(names := p.names + [name]), StartUpload(t, s3, upload, |p.infos|, name, size, view));
    PushUpload(t, s3, upload, p, plan, name, size, view, u);
    var p2 := p1.(settled := p1.settled + 1);
    assert Follows(t, upload, p2, plan + [u]);
    SiblingFollows(t, view, s3, upload, base, size, p2, plan + [u]);
    assert PrimaryStep(t, view, s3, upload, base, size, p.(names := p.names + [name]), name)
        == SiblingStep(t, view, s3, upload, base, Rewritten(view, size), p2);
  }

  lemma PrimaryThrew(t: Target, view: TransformOptions, s3: Value, upload: UploadService, base: string,
                     size: SizeSpec, p: Progress, plan: seq<PlannedUpload>, name: string)
    requires Follows(t, upload, p, plan) && p.thrown.None?
    requires StartUpload(t, s3, upload, |p.infos|, name, size, view).Err?
    ensures var u := PlannedUpload(name, Label(size), ImageTransform(Some(view), Some(size)).plan);
            Carries(t, s3, upload, PrimaryStep(t, view, s3, upload, base, size, p.(names := p.names + [name]), name),
                    Extend(plan + [u], SiblingPlan(view, base, size, u.plan)))
  {
    var u := PlannedUpload(name, Label(size), ImageTransform(Some(view), Some(size)).plan);
    var p1 := Record(p.(names := p.names + [name]), StartUpload(t, s3, upload, |p.infos|, name, size, view));
    PushName(t, upload, p, plan, u);
    if Dispatchable(t, s3, upload, plan + [u]) {
      assert (plan + [u])[|plan|] == u;
      UploadStarts(t, s3, upload, |p.infos|, name, size, view);
    }
    CarriesStopped(t, s3, upload, p1, plan + [u], SiblingPlan(view, base, size, u.plan));
  }

  /** One iteration of the walk carries out the plan of its size entry. */
  lemma SizeFollows(t: Target, view: TransformOptions, s3: Value, upload: UploadService, base: string,
                    size: SizeSpec, p: Progress, plan: seq<PlannedUpload>)
    requires Follows(t, upload, p, plan) && p.thrown.None?
    ensures Carries(t, s3, upload, SizeStep(t, view, s3, upload, base, size, p), Extend(plan, EntryPlan(view, base, size)))
  {
    var name := AddSuffix(Str(base), size.name);
    if name.Ok? {
      var u := PlannedUpload(name.value, Label(size), ImageTransform(Some(view), Some(size)).plan);
      PrimaryFollows(t, view, s3, upload, base, size, p, plan, name.value);
      ExtendAssoc(plan, u, SiblingPlan(view, base, size, u.plan));
    }
  }

  /**
   * The walk over the sizes carries out the upload plan: in full when
   * nothing is thrown, and up to the point where it stops otherwise. A
   * plan that cannot name its files makes the walk throw, and a plan the
   * store accepts in full makes it succeed.
   */
  lemma {:induction false} RunFollowsPlan(t: Target, view: TransformOptions, s3: Value, upload: UploadService,
                                          base: string, sizes: seq<SizeSpec>)
    ensures Carries(t, s3, upload, Run(t, view, s3, upload, base, sizes), UploadPlan(view, base, sizes))
    decreases |sizes|
  {
    if sizes != [] {
      var front := sizes[..|sizes| - 1];
      var size := sizes[|sizes| - 1];
      RunFollowsPlan(t, view, s3, upload, base, front);
      var p0 := Run(t, view, s3, upload, base, front);
      var plan0 := UploadPlan(view, base, front);
      if p0.thrown.Some? {
        if plan0.Ok? {
          CarriesStopped(t, s3, upload, p0, plan0.value, EntryPlan(view, base, size));
        }
      } else {
        SizeFollows(t, view, s3, upload, base, size, p0, plan0.value);
      }
    }
  }

  // ---------------------------------------------------------------------
  // What the plan holds

  /** A size entry plans its own file, and one more when it wants WebP. */
  lemma EntryLength(view: TransformOptions, base: string, size: SizeSpec)
    ensures var e := EntryPlan(view, base, size);
            e.Ok? ==> |e.value| == 1 + (if WantsWebP(view, size) then 1 else 0)
  {
  }

  /** Every size entry plans its own file, and one more when it wants WebP. */
  lemma {:induction false} PlanLength(view: TransformOptions, base: string, sizes: seq<SizeSpec>)
    ensures UploadPlan(view, base, sizes).Ok? ==> |UploadPlan(view, base, sizes).value| == |sizes| + WebPCount(view, sizes)
    decreases |sizes|
  {
    if sizes != [] {
      PlanLength(view, base, sizes[..|sizes| - 1]);
      EntryLength(view, base, sizes[|sizes| - 1]);
    }
  }

  /**
   * What sharp is asked to do with a planned file: the steps in the fixed
   * order; WebP output exactly when the engine's own `webP` is set (a
   * sibling asked for only by its size entry gets the `.webp` name but not
   * the WebP output); and under a global fit, every resize with `{fit}`.
   */
  predicate TransformedAs(view: TransformOptions, plan: seq<Step>)
  {
    && InOrder(plan)
    && (ToWebP in plan <==> Truthy(view.webP))
    && (Truthy(view.fit) ==> ResizesWith(plan, Some(ResizeOptions(view.fit, Undefined))))
  }

  /** Every planned file is transformed as `view` says. */
  predicate AllTransformedAs(view: TransformOptions, plan: seq<PlannedUpload>)
  {
    forall i :: 0 <= i < |plan| ==> TransformedAs(view, plan[i].plan)
  }

  lemma AllTransformedConcat(view: TransformOptions, a: seq<PlannedUpload>, b: seq<PlannedUpload>)
    requires AllTransformedAs(view, a) && AllTransformedAs(view, b)
    ensures AllTransformedAs(view, a + b)
  {
    forall i | 0 <= i < |a + b|
      ensures TransformedAs(view, (a + b)[i].plan)
    {
      if i >= |a| {
        assert (a + b)[i] == b[i - |a|];
      } else {
        assert (a + b)[i] == a[i];
      }
    }
  }

  lemma TransformShape(view: TransformOptions, size: SizeSpec)
    ensures TransformedAs(view, ImageTransform(Some(view), Some(size)).plan)
  {
    if Truthy(view.fit) {
      GlobalFitOverridesSize(view, Some(size));
    }
  }

  /** Every file of an entry, its sibling included, gets the entry's own transform. */
  lemma EntrySharesPlan(view: TransformOptions, base: string, size: SizeSpec)
    ensures var e := EntryPlan(view, base, size);
            e.Ok? ==> forall i :: 0 <= i < |e.value| ==> e.value[i].plan == ImageTransform(Some(view), Some(size)).plan
  {
  }

  /** The files of one entry, the sibling included, are transformed as `view` says. */
  lemma EntryTransforms(view: TransformOptions, base: string, size: SizeSpec)
    ensures EntryPlan(view, base, size).Ok? ==> AllTransformedAs(view, EntryPlan(view, base, size).value)
  {
    TransformShape(view, size);
    EntrySharesPlan(view, base, size);
  }

  lemma {:induction false} PlanTransforms(view: TransformOptions, base: string, sizes: seq<SizeSpec>)
    ensures UploadPlan(view, base, sizes).Ok? ==> AllTransformedAs(view, UploadPlan(view, base, sizes).value)
    decreases |sizes|
  {
    if sizes != [] {
      var front, size := sizes[..|sizes| - 1], sizes[|sizes| - 1];
      PlanTransforms(view, base, front);
      EntryTransforms(view, base, size);
      if UploadPlan(view, base, sizes).Ok? {
        AllTransformedConcat(view, UploadPlan(view, base, front).value, EntryPlan(view, base, size).value);
      }
    }
  }

  // ---------------------------------------------------------------------
  // What the callback receives

  /** The `url` of every result entry: the CDN one from the base name, or the stored `Location`. */
  function ExpectedUrl(cdn: Value, s3Path: Value, base: string, stored: StoredObject): Url
    requires s3Path.Str?
  {
    if CdnConfigured(cdn) then CdnUrl(Joined([cdn.s, s3Path.s, base])) else StoreUrl(stored.location)
  }

  /** Building the files never fails once there is a key prefix, and gives one entry per `fileInfo` entry. */
  lemma {:induction false} RecordsOk(cdn: Value, s3Path: Value, base: string, infos: seq<FileInfo>, objects: seq<StoredObject>)
    requires |infos| == |objects| && (|infos| > 0 ==> s3Path.Str?)
    ensures Records(cdn, s3Path, base, infos, objects).Ok?
    ensures |Records(cdn, s3Path, base, infos, objects).value| == |infos|
    decreases |infos|
  {
    if infos != [] {
      var n := |infos| - 1;
      RecordsOk(cdn, s3Path, base, infos[..n], objects[..n]);
      UrlOf(cdn, s3Path, base, objects[n]);
    }
  }

  lemma UrlOf(cdn: Value, s3Path: Value, base: string, stored: StoredObject)
    requires s3Path.Str?
    ensures FileUrl(cdn, s3Path, base, stored) == Ok(ExpectedUrl(cdn, s3Path, base, stored))
  {
    if CdnConfigured(cdn) {
      var parts := [cdn, s3Path, Str(base)];
      assert parts[0].Str? && parts[1].Str? && parts[2].Str?;
      assert PathJoin(parts).value == Joined([cdn.s, s3Path.s, base]);
    }
  }

  /** Entry `i` of the files is built from entry `i` of `fileInfo` and of the stored objects. */
  lemma {:induction false} RecordsEntry(cdn: Value, s3Path: Value, base: string, infos: seq<FileInfo>, objects: seq<StoredObject>, i: nat)
    requires |infos| == |objects| && i < |infos| && s3Path.Str?
    ensures var r := Records(cdn, s3Path, base, infos, objects);
            r.Ok? && |r.value| == |infos| && r.value[i] ==
              FileRecord(StripQuotes(objects[i].eTag), infos[i].name, infos[i].kind, ExpectedUrl(cdn, s3Path, base, objects[i]))
    decreases |infos|
  {
    RecordsOk(cdn, s3Path, base, infos, objects);
    var n := |infos| - 1;
    RecordsOk(cdn, s3Path, base, infos[..n], objects[..n]);
    UrlOf(cdn, s3Path, base, objects[n]);
    if i < n {
      RecordsEntry(cdn, s3Path, base, infos[..n], objects[..n], i);
    }
  }

  /** Every planned upload was dispatched and its promise resolved. */
  predicate AllResolve(t: Target, upload: UploadService, plan: seq<PlannedUpload>)
  {
    && t.s3Path.Str?
    && forall i :: 0 <= i < |plan| ==>
         upload(i, Request(t, plan[i].name)).Returned? && upload(i, Request(t, plan[i].name)).promise.Resolved?
  }

  /**
   * The files the callback receives for a plan: one per planned file, in
   * order, with its name and `type`, the ETag of what the store resolved
   * with, stripped of quotes, and its URL.
   */
  predicate Delivered(o: Options, upload: UploadService, base: string, plan: seq<PlannedUpload>, files: seq<FileRecord>)
  {
    && |files| == |plan|
    && (|plan| > 0 ==> o.s3Path.Str?)
    && forall i :: 0 <= i < |plan| ==>
         && o.s3Path.Str?
         && var c := upload(i, Request(TargetOf(o), plan[i].name));
            && c.Returned? && c.promise.Resolved?
            && files[i] == FileRecord(StripQuotes(c.promise.value.eTag), plan[i].name, plan[i].kind,
                                      ExpectedUrl(o.cdn, o.s3Path, base, c.promise.value))
  }

  /** The callback's outcome once a walk that threw nothing followed `plan`. */
  lemma RespondFollowsPlan(o: Options, upload: UploadService, base: string, p: Progress, plan: seq<PlannedUpload>)
    requires p.thrown.None? && Follows(TargetOf(o), upload, p, plan)
    ensures var r := Respond(o, base, p);
            && (r.Ok? <==> AllResolve(TargetOf(o), upload, plan) || plan == [])
            && (r.Ok? ==> Delivered(o, upload, base, plan, r.value))
            && (r.Err? ==> exists i :: 0 <= i < |plan| && o.s3Path.Str? &&
                                       upload(i, Request(TargetOf(o), plan[i].name)) == Returned(Rejected(r.error)))
  {
    var t := TargetOf(o);
    var objects := AwaitAll(Promises(p.infos));
    if objects.Ok? {
      RecordsOk(o.cdn, o.s3Path, base, p.infos, objects.value);
      forall i | 0 <= i < |plan|
        ensures upload(i, Request(t, plan[i].name)) == Returned(Resolved(objects.value[i]))
        ensures Respond(o, base, p).value[i] == FileRecord(StripQuotes(objects.value[i].eTag), plan[i].name, plan[i].kind,
                                                           ExpectedUrl(o.cdn, o.s3Path, base, objects.value[i]))
      {
        assert Promises(p.infos)[i] == Resolved(objects.value[i]);
        RecordsEntry(o.cdn, o.s3Path, base, p.infos, objects.value, i);
      }
    } else {
      var k :| 0 <= k < |p.infos| && Promises(p.infos)[k] == Rejected(objects.error);
      assert upload(k, Request(t, plan[k].name)) == Returned(Rejected(objects.error));
    }
  }

  /**
   * `_handleFile` from the end of getName to the callback, for a `sizes`
   * array: the callback gets the files exactly when the walk and every
   * upload succeed, and then one per planned file, in plan order; a plan
   * that cannot name its files gives an error; the map entry always holds
   * planned names, in order, and all of them when the callback gets the
   * files.
   */
  lemma HandleOutcome(o: Options, s3: Value, upload: UploadService, base: string)
    requires o.sizes.SizeList?
    ensures var p := Dispatch(o, s3, upload, base);
            var plan := UploadPlan(View(o), base, o.sizes.list);
            var r := Respond(o, base, p);
            && (plan.Err? ==> r.Err?)
            && (plan.Ok? ==> NamesPrefix(p.names, plan.value))
            && (r.Ok? ==> plan.Ok? && |p.names| == |plan.value| && Delivered(o, upload, base, plan.value, r.value))
            && (plan.Ok? && Dispatchable(TargetOf(o), s3, upload, plan.value) &&
                  (plan.value == [] || AllResolve(TargetOf(o), upload, plan.value))
                ==> r.Ok?)
  {
    var t := TargetOf(o);
    RunFollowsPlan(t, View(o), s3, upload, base, o.sizes.list);
    var p := Dispatch(o, s3, upload, base);
    if p.thrown.None? {
      RespondFollowsPlan(o, upload, base, p, UploadPlan(View(o), base, o.sizes.list).value);
    }
  }

  /** An empty `sizes` array: no names, no uploads, and an empty result list. */
  lemma NoSizes(o: Options, s3: Value, upload: UploadService, base: string)
    requires o.sizes == SizeList([])
    ensures Dispatch(o, s3, upload, base).names == [] && Dispatch(o, s3, upload, base).pipelines == []
    ensures Respond(o, base, Dispatch(o, s3, upload, base)) == Ok([])
  {
  }

  /**
   * A falsy `sizes` that is not an array: reading its length throws on
   * `undefined` and `null`; any other such value walks nothing.
   */
  lemma SizesNotArray(o: Options, s3: Value, upload: UploadService, base: string)
    requires o.sizes.NotArray?
    ensures var v := o.sizes.value;
            Respond(o, base, Dispatch(o, s3, upload, base)) == if v.Undefined? || v.Null? then Err(LengthError(v)) else Ok([])
    ensures Dispatch(o, s3, upload, base).names == []
  {
  }

  // ---------------------------------------------------------------------
  // The constructor

  /**
   * The constructor throws exactly when its guards or the bucket check
   * fail, each with its own message, in source order.
   */
  lemma ConstructRejects(s3: Value, options: Option<UserOptions>, env: Env)
    ensures var u := if options.Some? then options.value else NoOptions;
            var r := Construct(s3, options, env);
            && (S3Rejected(s3) ==> r == Err(Error("aws-sdk#S3 is a required parameter")))
            && (!S3Rejected(s3) && SizesRejected(u) ==> r == Err(Error("If sizes is provided it must be an array of objects")))
            && (!S3Rejected(s3) && !SizesRejected(u) && FitNotString(u) ==> r.Err? && r.error.TypeError?)
            && (!S3Rejected(s3) && !SizesRejected(u) && FitRejected(u) ==> r == Err(Error("Invalid fit (cover|contain|fill|inside|outside)")))
            && (!S3Rejected(s3) && !SizesRejected(u) && !FitNotString(u) && !FitRejected(u) && NoBucket(u, env) ==>
                  r == Err(Error("A valid bucket must be provided through options or env.S3_BUCKET")))
  {
  }

  /** The constructor succeeds exactly when none of its guards and not the bucket check fails. */
  lemma ConstructAccepts(s3: Value, options: Option<UserOptions>, env: Env)
    ensures var u := if options.Some? then options.value else NoOptions;
            Construct(s3, options, env).Ok? <==>
              !S3Rejected(s3) && !SizesRejected(u) && !FitNotString(u) && !FitRejected(u) && !NoBucket(u, env)
  {
  }

  /** `bucket`, `s3Path` and `cdn`: the option when truthy, else the environment, else `''` for the last two. */
  lemma ConstructResolves(s3: Value, options: Option<UserOptions>, env: Env)
    requires Construct(s3, options, env).Ok?
    ensures var u := if options.Some? then options.value else NoOptions;
            var o := Construct(s3, options, env).value;
            && o.bucket == (if Truthy(Get(u.bucket)) then Get(u.bucket) else EnvVar(env.s3Bucket))
            && o.s3Path == (if Truthy(Get(u.s3Path)) then Get(u.s3Path)
                            else if Truthy(EnvVar(env.s3Path)) then EnvVar(env.s3Path) else Str(""))
            && o.cdn == (if Truthy(Get(u.cdn)) then Get(u.cdn)
                         else if Truthy(EnvVar(env.cdnHost)) then EnvVar(env.cdnHost) else Str(""))
  {
  }

  /**
   * Every other option: the caller's own key wins, even when it holds a
   * falsy value, and otherwise the default applies; so `sizes: []` stays
   * empty while a missing `sizes` is `[{}]`.
   */
  lemma ConstructDefaults(s3: Value, options: Option<UserOptions>, env: Env)
    requires Construct(s3, options, env).Ok?
    ensures var u := if options.Some? then options.value else NoOptions;
            var o := Construct(s3, options, env).value;
            && o.acl == (if u.acl.Some? then u.acl.value else Str("public-read"))
            && o.rotate == (if u.rotate.Some? then u.rotate.value else Bool(true))
            && o.webP == (if u.webP.Some? then u.webP.value else Bool(false))
            && o.fit == (if u.fit.Some? then u.fit.value else Str("outside"))
            && o.grayscale == Get(u.grayscale) && o.withMetadata == Get(u.withMetadata)
            && o.sizes == (if u.sizes.Some? then u.sizes.value else SizeList([EmptySize]))
            && (u.sizes == Some(SizeList([])) ==> o.sizes == SizeList([]))
  {
  }

  /**
   * Unless the caller sets `fit` themselves, the default fit `outside`
   * reaches every size entry: no planned resize ever uses a size entry's
   * own fit or position.
   */
  lemma DefaultFitWins(s3: Value, u: UserOptions, env: Env, base: string)
    requires Construct(s3, Some(u), env).Ok? && u.fit.None?
    requires Construct(s3, Some(u), env).value.sizes.SizeList?
    ensures var o := Construct(s3, Some(u), env).value;
            var plan := UploadPlan(View(o), base, o.sizes.list);
            plan.Ok? ==> forall i :: 0 <= i < |plan.value| ==>
                           ResizesWith(plan.value[i].plan, Some(ResizeOptions(Str("outside"), Undefined)))
  {
    var o := Construct(s3, Some(u), env).value;
    PlanTransforms(View(o), base, o.sizes.list);
  }

  // ---------------------------------------------------------------------
  // _removeFile

  /** The request deleting file `name`: key `path.join(s3Path, name)`, bucket from the environment. */
  function DeleteRequest(s3Path: Value, bucket: Value, name: string): DeleteParams
    requires s3Path.Str?
  {
    DeleteParams(bucket, Joined([s3Path.s, name]))
  }

  /** The deletes can all be issued: the store is an object, the prefix a string, and no call throws. */
  predicate Deletable(s3: Value, s3Path: Value, bucket: Value, remove: DeleteService, names: seq<string>)
  {
    && s3.Object? && s3Path.Str?
    && forall i :: 0 <= i < |names| ==> remove(i, DeleteRequest(s3Path, bucket, names[i])).Returned?
  }

  /** One delete per recorded name, in order, each returning its promise, unless one cannot be issued. */
  lemma {:induction false} DeleteAllShape(s3: Value, s3Path: Value, bucket: Value, remove: DeleteService, names: seq<string>)
    ensures var r := DeleteAll(s3, s3Path, bucket, remove, names);
            && (r.Ok? <==> names == [] || Deletable(s3, s3Path, bucket, remove, names))
            && (r.Ok? ==> |r.value| == |names|)
            && (r.Ok? ==> forall i :: 0 <= i < |names| ==>
                            s3Path.Str? && remove(i, DeleteRequest(s3Path, bucket, names[i])) == Returned(r.value[i]))
    decreases |names|
  {
    if names != [] {
      var n := |names| - 1;
      var front := names[..n];
      DeleteAllShape(s3, s3Path, bucket, remove, front);
      var parts := [s3Path, Str(names[n])];
      assert s3Path.Str? ==> parts[0].Str? && parts[1].Str? && PathJoin(parts).value == Joined([s3Path.s, names[n]]);
      var r := DeleteAll(s3, s3Path, bucket, remove, names);
      if Deletable(s3, s3Path, bucket, remove, names) {
        assert Deletable(s3, s3Path, bucket, remove, front) by {
          forall i | 0 <= i < |front|
            ensures remove(i, DeleteRequest(s3Path, bucket, front[i])).Returned?
          {
            assert front[i] == names[i];
          }
        }
      }
      if r.Ok? {
        var promises := r.value;
        forall i | 0 <= i < |names|
          ensures s3Path.Str? && remove(i, DeleteRequest(s3Path, bucket, names[i])) == Returned(promises[i])
        {
          if i < n {
            assert names[i] == front[i];
          }
        }
      }
    }
  }

  /**
   * What `_removeFile` reports for a taken entry: no callback for an empty
   * one; the deletes' results, one per name in order, when every delete is
   * issued and resolves; otherwise an error thrown while issuing them or
   * one delete's rejection.
   */
  lemma RemoveOutcomeShape(s3: Value, s3Path: Value, bucket: Value, remove: DeleteService, names: seq<string>)
    ensures var r := RemoveOutcome(s3, s3Path, bucket, remove, names);
            && (names == [] <==> r.NoCallback?)
            && (r.Removed? <==> names != [] && Deletable(s3, s3Path, bucket, remove, names) &&
                                forall i :: 0 <= i < |names| ==> remove(i, DeleteRequest(s3Path, bucket, names[i])).promise.Resolved?)
            && (r.Removed? ==> |r.data| == |names| &&
                                forall i :: 0 <= i < |names| ==> remove(i, DeleteRequest(s3Path, bucket, names[i])) == Returned(Resolved(r.data[i])))
            && (r.RemoveFailed? && Deletable(s3, s3Path, bucket, remove, names) ==>
                  exists i :: 0 <= i < |names| && remove(i, DeleteRequest(s3Path, bucket, names[i])) == Returned(Rejected(r.error)))
  {
    DeleteAllShape(s3, s3Path, bucket, remove, names);
  }

  // ---------------------------------------------------------------------
  // Two size entries

  /**
   * Sizes `[{name: x, webP: true}, {}]` with the engine's `webP` off: the
   * files are `addSuffix(base, x)`, then its sibling
   * `addSuffix(updateExtension(base, 'webp'), x)` right after it, both of
   * type `x`, and `base` itself of type `original`; the sibling keeps the
   * input format, because the engine's own `webP` decides it.
   */
  lemma TwoEntries(view: TransformOptions, base: string, x: string, primary: string, webPName: string, sibling: string)
    requires base != "" && x != "" && !Truthy(view.webP)
    requires AddSuffix(Str(base), Str(x)) == Ok(primary)
    requires UpdateExtension(Str(base), Str("webp")) == Ok(webPName) && AddSuffix(Str(webPName), Str(x)) == Ok(sibling)
    ensures var size := SizeSpec(Str(x), Undefined, Undefined, None, Bool(true));
            var plan := UploadPlan(view, base, [size, EmptySize]);
            && plan.Ok? && |plan.value| == 3
            && plan.value[0].name == primary && plan.value[0].kind == Str(x)
            && plan.value[1].name == sibling && plan.value[1].kind == Str(x)
            && plan.value[2].name == base && plan.value[2].kind == Str("original")
            && ToWebP !in plan.value[1].plan
  {
    var size := SizeSpec(Str(x), Undefined, Undefined, None, Bool(true));
    var e0 := SuffixedEntry(view, base, x, primary, webPName, sibling);
    var e1 := [PlannedUpload(base, Str("original"), ImageTransform(Some(view), Some(EmptySize)).plan)];
    assert e1 + [] == e1;
    assert EntryPlan(view, base, EmptySize) == Ok(e1);
    PlanOfTwo(view, base, size, EmptySize, e0, e1);
    TransformShape(view, size);
  }

  /** The first entry of that example: its own upload, then its sibling, with the same steps. */
  lemma SuffixedEntry(view: TransformOptions, base: string, x: string, primary: string, webPName: string, sibling: string)
    returns (entry: seq<PlannedUpload>)
    requires x != "" && !Truthy(view.webP)
    requires AddSuffix(Str(base), Str(x)) == Ok(primary)
    requires UpdateExtension(Str(base), Str("webp")) == Ok(webPName) && AddSuffix(Str(webPName), Str(x)) == Ok(sibling)
    ensures var size := SizeSpec(Str(x), Undefined, Undefined, None, Bool(true));
            var own := ImageTransform(Some(view), Some(size)).plan;
            EntryPlan(view, base, size) == Ok(entry) &&
            entry == [PlannedUpload(primary, Str(x), own), PlannedUpload(sibling, Str(x), own)]
  {
    var size := SizeSpec(Str(x), Undefined, Undefined, None, Bool(true));
    var own := ImageTransform(Some(view), Some(size)).plan;
    entry := [PlannedUpload(primary, Str(x), own), PlannedUpload(sibling, Str(x), own)];
    assert SiblingPlan(view, base, size, own) == Ok([entry[1]]);
    assert [entry[0]] + [entry[1]] == entry;
  }

  /** The plan for two entries is the first entry's uploads followed by the second's. */
  lemma PlanOfTwo(view: TransformOptions, base: string, a: SizeSpec, b: SizeSpec,
                  ea: seq<PlannedUpload>, eb: seq<PlannedUpload>)
    requires EntryPlan(view, base, a) == Ok(ea) && EntryPlan(view, base, b) == Ok(eb)
    ensures UploadPlan(view, base, [a, b]) == Ok(ea + eb)
  {
    assert [a, b][..1] == [a] && [a][..0] == [];
    assert [] + ea == ea;
    assert UploadPlan(view, base, [a]) == Ok(ea);
  }

  /** The names in that example for a base name `p.e`: `p_x.e`, `p.webp` and `p_x.webp`. */
  lemma TwoEntriesNames(p: string, e: string, x: string)
    requires '.' !in e && x != ""
    ensures AddSuffix(Str(p + "." + e), Str(x)) == Ok(p + "_" + x + "." + e)
    ensures UpdateExtension(Str(p + "." + e), Str("webp")) == Ok(p + "." + "webp")
    ensures AddSuffix(Str(p + "." + "webp"), Str(x)) == Ok(p + "_" + x + "." + "webp")
  {
    AddSuffixOfDotted(p, e, x);
    UpdateExtensionOfDotted(p, e, "webp");
    AddSuffixOfDotted(p, "webp", x);
  }
}
