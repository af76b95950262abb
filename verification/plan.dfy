/** The stages `imageTransform` requests from the imaging engine, in the order
    it requests them (src/img.resource.ts). */
module TransformPlan {
  import opened Wrappers
  import opened ImageOptions
  import opened FormatNegotiation

  /** The options object passed to `toFormat`; absent values stay absent. */
  datatype EncoderOptions = EncoderOptions(
    quality: int,
    lossless: Option<bool>,
    speed: Option<int>,
    compressionLevel: Option<int>,
    reductionEffort: Option<int>,
    palette: Option<bool>)

  /** One requested engine operation: `toFormat`, `resize` or `trim`. */
  datatype Stage =
    | Encode(format: string, options: EncoderOptions)
    | Resize(width: Option<int>, height: Option<int>, fit: Option<FitEnum>, position: ImgPosition)
    | Trim(threshold: int)

  /** The order in which the handler requests the stages. */
  function Rank(st: Stage): nat {
    match st
    case Encode(_, _) => 0
    case Resize(_, _, _, _) => 1
    case Trim(_) => 2
  }

  /** The number of stages of rank `k` in a plan. */
  function Count(stages: seq<Stage>, k: nat): nat {
    if |stages| == 0 then 0
    else (if Rank(stages[0]) == k then 1 else 0) + Count(stages[1..], k)
  }

  lemma {:induction false} CountAppend(a: seq<Stage>, b: seq<Stage>, k: nat)
    ensures Count(a + b, k) == Count(a, k) + Count(b, k)
    decreases |a|
  {
    if |a| == 0 {
      assert a + b == b;
    } else {
      assert (a + b)[1..] == a[1..] + b;
      CountAppend(a[1..], b, k);
    }
  }

  /** JavaScript truthiness of an optional number: present and not zero. */
  predicate Truthy(v: Option<int>) {
    v.Some? && v.value != 0
  }

  /** The plan of `imageTransform` for options `o` and Accept header `accept`:
      always an encode stage, a resize stage when a width or height is truthy,
      and a trim stage when the trim threshold is truthy. */
  function Plan(o: ImageTransformOptions, accept: string): (stages: seq<Stage>)
    ensures 1 <= |stages| <= 3
    ensures Count(stages, 0) == 1
    ensures Count(stages, 1) == (if Truthy(o.width) || Truthy(o.height) then 1 else 0)
    ensures Count(stages, 2) == (if Truthy(o.trim) then 1 else 0)
    ensures forall i, j :: 0 <= i < j < |stages| ==> Rank(stages[i]) < Rank(stages[j])
    ensures stages[0].Encode?
    ensures stages[0].format == ResolveFormat(o.format, accept, o.sourceImageUrl)
    ensures o.quality.None? ==> stages[0].options.quality == 100
    ensures o.quality.Some? ==> stages[0].options.quality == o.quality.value
    ensures stages[0].options.lossless == o.lossless && stages[0].options.speed == o.speed
    ensures stages[0].options.compressionLevel == o.compressionLevel
    ensures stages[0].options.reductionEffort == o.reductionEffort && stages[0].options.palette == o.palette
    ensures forall i :: 0 <= i < |stages| && stages[i].Resize? ==>
      && stages[i].width == o.width && stages[i].height == o.height && stages[i].fit == o.fit
      && stages[i].position == (if o.position.Some? then o.position.value else Center)
    ensures forall i :: 0 <= i < |stages| && stages[i].Trim? ==>
      o.trim.Some? && stages[i].threshold == o.trim.value
  {
    var d := WithDefaults(o);
    var encode := [Encode(ResolveFormat(d.format, accept, d.sourceImageUrl),
                          EncoderOptions(d.quality.value, d.lossless, d.speed,
                                         d.compressionLevel, d.reductionEffort, d.palette))];
    var resize := if Truthy(d.width) || Truthy(d.height)
                  then [Resize(d.width, d.height, d.fit, d.position.value)] else [];
    var trim := if Truthy(d.trim) then [Trim(d.trim.value)] else [];
    CountAppend(encode, resize, 0);
    CountAppend(encode, resize, 1);
    CountAppend(encode, resize, 2);
    CountAppend(encode + resize, trim, 0);
    CountAppend(encode + resize, trim, 1);
    CountAppend(encode + resize, trim, 2);
    encode + resize + trim
  }

  /** For options the schema accepted, truthy and present coincide: a resize
      stage is planned exactly when a width or height is given, a trim stage
      exactly when a trim threshold is given. */
  lemma PlanOfValidOptions(o: ImageTransformOptions, accept: string)
    requires Valid(o)
    ensures Count(Plan(o, accept), 1) == 1 <==> o.width.Some? || o.height.Some?
    ensures Count(Plan(o, accept), 2) == 1 <==> o.trim.Some?
  {
  }

  /** Without validation a zero width and height is falsy: no resize is planned. */
  lemma ZeroSizeSkipsResize(o: ImageTransformOptions, accept: string)
    requires o.width == Some(0) && (o.height.None? || o.height == Some(0))
    ensures Count(Plan(o, accept), 1) == 0
  {
  }

  /** Without `auto` the Accept header does not affect the plan. */
  lemma PlanIgnoresHeaderWithoutAuto(o: ImageTransformOptions, accept1: string, accept2: string)
    requires o.format != Some(Auto)
    ensures Plan(o, accept1) == Plan(o, accept2)
  {
    HeaderOnlyMattersForAuto(o.format, accept1, accept2, o.sourceImageUrl);
  }
}
