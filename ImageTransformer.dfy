/**
 * The transform stage (utils/imageTransformer.js). The source builds a sharp
 * pipeline by calling its builder methods in a fixed conditional order; the
 * model records that order as a plan of abstract steps. What sharp does with
 * the pixels is outside the model.
 */
module ImageTransformer {
  import opened Js

  /** The fit names sharp's resize accepts. */
  const FitTypes: seq<string> := ["cover", "contain", "fill", "inside", "outside"]

  /**
   * validateFitType: `fit.match(/^(cover|contain|fill|inside|outside)$/)`,
   * a whole-string match against one of the five names. A value that is not
   * a string has no `match` method, so the call throws.
   */
  function ValidateFitType(fit: Value): (r: Result<bool>)
    ensures r.Err? <==> !fit.Str?
    ensures fit.Str? ==> (r.value <==> fit.s in FitTypes)
  {
    if !fit.Str? then Err(TypeError("fit.match is not a function"))
    else
      var s := fit.s;
      Ok(s == "cover" || s == "contain" || s == "fill" || s == "inside" || s == "outside")
  }

  /** The `options` object of a size entry, handed to sharp's resize. */
  datatype ResizeOptions = ResizeOptions(fit: Value, position: Value)

  /** One entry of the `sizes` option. `options: None` means the entry has no `options` key. */
  datatype SizeSpec = SizeSpec(name: Value, width: Value, height: Value, options: Option<ResizeOptions>, webP: Value)

  /** `{}` */
  const EmptySize := SizeSpec(Undefined, Undefined, Undefined, None, Undefined)

  /** The options the transform reads. */
  datatype TransformOptions = TransformOptions(rotate: Value, grayscale: Value, withMetadata: Value, webP: Value, fit: Value)

  /** `{}` */
  const NoTransformOptions := TransformOptions(Undefined, Undefined, Undefined, Undefined, Undefined)

  /** The sharp builder calls, in the order the source can make them. */
  datatype Step =
    | Rotate
    | Grayscale
    | WithMetadata
    | Resize(width: Value, height: Value, options: Option<ResizeOptions>)
    | ToWebP

  /** Position of a step in the fixed order rotate, grayscale, withMetadata, resize, webp. */
  function Rank(step: Step): nat
  {
    match step
    case Rotate => 0
    case Grayscale => 1
    case WithMetadata => 2
    case Resize(_, _, _) => 3
    case ToWebP => 4
  }

  /** The planned pipeline, and the caller's size entry as the transform leaves it. */
  datatype Transform = Transform(plan: seq<Step>, size: SizeSpec)

  /** `if (!options) options = {}` */
  function OptionsOrEmpty(options: Option<TransformOptions>): TransformOptions
  {
    if options.Some? then options.value else NoTransformOptions
  }

  /** `if (!size) size = {}` */
  function SizeOrEmpty(size: Option<SizeSpec>): SizeSpec
  {
    if size.Some? then size.value else EmptySize
  }

  /**
   * The size entry as the transform leaves it: a truthy global fit
   * replaces the entry's whole `options` with `{fit}`.
   */
  function Rewritten(o: TransformOptions, s: SizeSpec): SizeSpec
  {
    if Truthy(o.fit) then s.(options := Some(ResizeOptions(o.fit, Undefined))) else s
  }

  /** A plan whose steps strictly follow the fixed order: each ranks above the one before it. */
  predicate InOrder(plan: seq<Step>)
  {
    forall i :: 0 < i < |plan| ==> Rank(plan[i - 1]) < Rank(plan[i])
  }

  /** Ordered step by step means ordered pairwise. */
  lemma {:induction false} InOrderPairwise(plan: seq<Step>, i: nat, j: nat)
    requires InOrder(plan) && i < j < |plan|
    ensures Rank(plan[i]) < Rank(plan[j])
    decreases j - i
  {
    if i + 1 < j {
      InOrderPairwise(plan, i, j - 1);
    }
  }

  /** A step planned only when its flag is set. */
  function Flag(c: bool, step: Step): seq<Step>
  {
    if c then [step] else []
  }

  /** The last step planned so far ranks below `k`. */
  predicate LastBelow(plan: seq<Step>, k: nat)
  {
    |plan| > 0 ==> Rank(plan[|plan| - 1]) < k
  }

  /** Appending a step ranked above everything planned so far keeps the order. */
  lemma {:induction false} AppendInOrder(plan: seq<Step>, c: bool, step: Step)
    requires InOrder(plan) && LastBelow(plan, Rank(step))
    ensures InOrder(plan + Flag(c, step))
    ensures LastBelow(plan + Flag(c, step), Rank(step) + 1)
  {
    var p := plan + Flag(c, step);
    forall i | 0 < i < |p|
      ensures Rank(p[i - 1]) < Rank(p[i])
    {
      if i >= |plan| {
        assert p[i] == step;
        assert p[i - 1] == plan[i - 1];
      } else {
        assert p[i - 1] == plan[i - 1] && p[i] == plan[i];
      }
    }
  }

  /** The five optional or fixed steps, in the order imageTransform calls them. */
  function Chain(rotate: bool, grayscale: bool, withMetadata: bool, resize: Step, webP: bool): seq<Step>
  {
    Flag(rotate, Rotate) + Flag(grayscale, Grayscale) + Flag(withMetadata, WithMetadata) +
    Flag(true, resize) + Flag(webP, ToWebP)
  }

  /** Whatever the flags, the chain follows the fixed order. */
  lemma {:induction false} ChainInOrder(rotate: bool, grayscale: bool, withMetadata: bool, resize: Step, webP: bool)
    requires resize.Resize?
    ensures InOrder(Chain(rotate, grayscale, withMetadata, resize, webP))
  {
    var p0 := Flag(rotate, Rotate);
    var p1 := p0 + Flag(grayscale, Grayscale);
    var p2 := p1 + Flag(withMetadata, WithMetadata);
    var p3 := p2 + Flag(true, resize);
    assert InOrder(p0) && LastBelow(p0, 1);
    AppendInOrder(p0, grayscale, Grayscale);
    AppendInOrder(p1, withMetadata, WithMetadata);
    AppendInOrder(p2, true, resize);
    AppendInOrder(p3, webP, ToWebP);
  }

  /** What the chain holds: each optional step exactly when its flag is set, and the resize step. */
  lemma ChainMember(rotate: bool, grayscale: bool, withMetadata: bool, resize: Step, webP: bool, x: Step)
    ensures x in Chain(rotate, grayscale, withMetadata, resize, webP) <==>
            (rotate && x == Rotate) || (grayscale && x == Grayscale) || (withMetadata && x == WithMetadata) ||
            x == resize || (webP && x == ToWebP)
  {
  }

  /** The resize step is the only one of its kind in the chain. */
  lemma {:induction false} ChainResize(rotate: bool, grayscale: bool, withMetadata: bool, resize: Step, webP: bool)
    requires resize.Resize?
    ensures var plan := Chain(rotate, grayscale, withMetadata, resize, webP);
            forall i :: 0 <= i < |plan| && plan[i].Resize? ==> plan[i] == resize
  {
    var plan := Chain(rotate, grayscale, withMetadata, resize, webP);
    forall i | 0 <= i < |plan| && plan[i].Resize?
      ensures plan[i] == resize
    {
      ChainMember(rotate, grayscale, withMetadata, resize, webP, plan[i]);
    }
  }

  /** The builder calls imageTransform makes for options `o` on size entry `s`. */
  function Plan(o: TransformOptions, s: SizeSpec): (plan: seq<Step>)
    ensures InOrder(plan)
    ensures Rotate in plan <==> Truthy(o.rotate)
    ensures Grayscale in plan <==> Truthy(o.grayscale)
    ensures WithMetadata in plan <==> Truthy(o.withMetadata)
    ensures ToWebP in plan <==> Truthy(o.webP)
    ensures Resize(s.width, s.height, s.options) in plan
    ensures forall i :: 0 <= i < |plan| && plan[i].Resize? ==> plan[i] == Resize(s.width, s.height, s.options)
  {
    var resize := Resize(s.width, s.height, s.options);
    var r, g, m, w := Truthy(o.rotate), Truthy(o.grayscale), Truthy(o.withMetadata), Truthy(o.webP);
    ChainMember(r, g, m, resize, w, Rotate);
    ChainMember(r, g, m, resize, w, Grayscale);
    ChainMember(r, g, m, resize, w, WithMetadata);
    ChainMember(r, g, m, resize, w, ToWebP);
    ChainMember(r, g, m, resize, w, resize);
    ChainResize(r, g, m, resize, w);
    ChainInOrder(r, g, m, resize, w);
    Chain(r, g, m, resize, w)
  }

  /**
   * imageTransform. A global `fit` replaces the size entry's whole
   * `options` with `{fit}` (dropping any per-size fit and position); that
   * write is visible to the caller, who shares the entry. Rotate,
   * grayscale, withMetadata and webp are planned only when their flag is
   * truthy; resize is always planned, with possibly undefined dimensions.
   */
  function ImageTransform(options: Option<TransformOptions>, size: Option<SizeSpec>): (t: Transform)
    ensures var o, s := OptionsOrEmpty(options), SizeOrEmpty(size);
            && InOrder(t.plan)
            && (Rotate in t.plan <==> Truthy(o.rotate))
            && (Grayscale in t.plan <==> Truthy(o.grayscale))
            && (WithMetadata in t.plan <==> Truthy(o.withMetadata))
            && (ToWebP in t.plan <==> Truthy(o.webP))
            && Resize(t.size.width, t.size.height, t.size.options) in t.plan
            && (forall i :: 0 <= i < |t.plan| && t.plan[i].Resize? ==>
                  t.plan[i] == Resize(t.size.width, t.size.height, t.size.options))
            && t.size == (if Truthy(o.fit) then s.(options := Some(ResizeOptions(o.fit, Undefined))) else s)
  {
    var o := OptionsOrEmpty(options);
    var s := SizeOrEmpty(size);
    var s := Rewritten(o, s);
    Transform(Plan(o, s), s)
  }

  /** The resize options every planned resize step carries. */
  predicate ResizesWith(plan: seq<Step>, options: Option<ResizeOptions>)
  {
    forall i :: 0 <= i < |plan| && plan[i].Resize? ==> plan[i].options == options
  }

  /**
   * With a truthy global fit, the entry's own resize options never reach
   * sharp: every resize step carries exactly `{fit}`.
   */
  lemma GlobalFitOverridesSize(options: TransformOptions, size: Option<SizeSpec>)
    requires Truthy(options.fit)
    ensures ResizesWith(ImageTransform(Some(options), size).plan, Some(ResizeOptions(options.fit, Undefined)))
  {
  }

  /**
   * Running the transform again on the entry it already rewrote plans the
   * same pipeline and leaves the entry as it was; so the WebP sibling, whose
   * transform sees the rewritten entry, gets the same resize as the primary.
   */
  lemma TransformIdempotent(options: Option<TransformOptions>, size: Option<SizeSpec>)
    ensures var t := ImageTransform(options, size);
            ImageTransform(options, Some(t.size)) == t
  {
  }

  /** Missing arguments behave as empty objects. */
  lemma MissingArgumentsAreEmpty(options: Option<TransformOptions>, size: Option<SizeSpec>)
    ensures ImageTransform(None, size) == ImageTransform(Some(NoTransformOptions), size)
    ensures ImageTransform(options, None) == ImageTransform(options, Some(EmptySize))
  {
  }
}
