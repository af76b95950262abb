/** The transform options record, the query schema that validates it, and the
    defaults the handler applies before planning (src/img.resource.ts). */
module ImageOptions {
  import opened Wrappers

  datatype FitEnum = Contain | Cover | Fill | Inside | Outside

  datatype ImgPosition = Center | Entropy | Attention

  /** The string each fit mode is at run time (the TypeScript enum's value). */
  function FitValue(f: FitEnum): string {
    match f
    case Contain => "contain"
    case Cover => "cover"
    case Fill => "fill"
    case Inside => "inside"
    case Outside => "outside"
  }

  function PositionValue(p: ImgPosition): string {
    match p
    case Center => "center"
    case Entropy => "entropy"
    case Attention => "attention"
  }

  /** `Object.values(FitEnum)`: the strings the schema's enum accepts for `fit`. */
  const FitValues: set<string> := {"contain", "cover", "fill", "inside", "outside"}

  /** `Object.values(ImgPosition)`. */
  const PositionValues: set<string> := {"center", "entropy", "attention"}

  /** Membership test of the schema's `fit` enum, returning the enum member. */
  function ParseFit(s: string): (r: Option<FitEnum>)
    ensures r.Some? <==> s in FitValues
    ensures r.Some? ==> FitValue(r.value) == s
  {
    if s == "contain" then Some(Contain)
    else if s == "cover" then Some(Cover)
    else if s == "fill" then Some(Fill)
    else if s == "inside" then Some(Inside)
    else if s == "outside" then Some(Outside)
    else None
  }

  function ParsePosition(s: string): (r: Option<ImgPosition>)
    ensures r.Some? <==> s in PositionValues
    ensures r.Some? ==> PositionValue(r.value) == s
  {
    if s == "center" then Some(Center)
    else if s == "entropy" then Some(Entropy)
    else if s == "attention" then Some(Attention)
    else None
  }

  /** Every enum member is accepted by the schema and parses back to itself. */
  lemma EnumValuesRoundTrip(f: FitEnum, p: ImgPosition)
    ensures FitValue(f) in FitValues && ParseFit(FitValue(f)) == Some(f)
    ensures PositionValue(p) in PositionValues && ParsePosition(PositionValue(p)) == Some(p)
  {
    match f
    case Contain =>
    case Cover =>
    case Fill =>
    case Inside =>
    case Outside =>
  }

  /** `ImageTransformOptions`: the typed options after validation.  Every
      property but the source URL may be absent. */
  datatype ImageTransformOptions = ImageTransformOptions(
    sourceImageUrl: string,
    format: Option<string>,
    width: Option<int>,
    height: Option<int>,
    fit: Option<FitEnum>,
    position: Option<ImgPosition>,
    trim: Option<int>,
    quality: Option<int>,
    lossless: Option<bool>,
    speed: Option<int>,
    reductionEffort: Option<int>,
    compressionLevel: Option<int>,
    palette: Option<bool>)

  /** An optional integer that, when present, is at least `lo`. */
  predicate AtLeast(v: Option<int>, lo: int) {
    v.Some? ==> lo <= v.value
  }

  /** An optional integer that, when present, lies in `[lo, hi]`. */
  predicate Between(v: Option<int>, lo: int, hi: int) {
    v.Some? ==> lo <= v.value <= hi
  }

  /** The request query after the schema's type coercion: numbers and booleans
      are typed, the enum fields are still plain strings, and the required URL
      may be missing. */
  datatype QueryOptions = QueryOptions(
    sourceImageUrl: Option<string>,
    format: Option<string>,
    width: Option<int>,
    height: Option<int>,
    fit: Option<string>,
    position: Option<string>,
    trim: Option<int>,
    quality: Option<int>,
    lossless: Option<bool>,
    speed: Option<int>,
    reductionEffort: Option<int>,
    compressionLevel: Option<int>,
    palette: Option<bool>)

  /** The error the schema raises, naming the offending property. */
  datatype ValidationError = ValidationError(field: string)

  /** The properties whose values the schema constrains. */
  const CheckedFields: seq<string> := [
    "sourceImageUrl", "width", "height", "fit", "position", "trim",
    "quality", "speed", "reductionEffort", "compressionLevel"]

  /** What the schema demands of one property of the query, by name. */
  predicate FieldAccepted(q: QueryOptions, field: string) {
    match field
    case "sourceImageUrl" => q.sourceImageUrl.Some?
    case "width" => AtLeast(q.width, 1)
    case "height" => AtLeast(q.height, 1)
    case "fit" => q.fit.Some? ==> q.fit.value in FitValues
    case "position" => q.position.Some? ==> q.position.value in PositionValues
    case "trim" => AtLeast(q.trim, 1)
    case "quality" => Between(q.quality, 1, 100)
    case "speed" => Between(q.speed, 1, 8)
    case "reductionEffort" => Between(q.reductionEffort, 0, 6)
    case "compressionLevel" => Between(q.compressionLevel, 0, 9)
    case _ => true
  }

  /** The query meets every constraint of the schema. */
  predicate SchemaAccepts(q: QueryOptions) {
    forall field :: field in CheckedFields ==> FieldAccepted(q, field)
  }

  /** Typed options written back as the query that carries them. */
  function ToQuery(o: ImageTransformOptions): QueryOptions {
    QueryOptions(
      Some(o.sourceImageUrl), o.format, o.width, o.height,
      if o.fit.Some? then Some(FitValue(o.fit.value)) else None,
      if o.position.Some? then Some(PositionValue(o.position.value)) else None,
      o.trim, o.quality, o.lossless, o.speed, o.reductionEffort,
      o.compressionLevel, o.palette)
  }

  /** The integer ranges the schema declares; the enum fields are in range by
      their type.  A typed record is valid exactly when the query carrying it
      meets every constraint of the schema. */
  function Valid(o: ImageTransformOptions): (r: bool)
    ensures r <==> SchemaAccepts(ToQuery(o))
  {
    RangesAreSchema(o);
    && AtLeast(o.width, 1)
    && AtLeast(o.height, 1)
    && AtLeast(o.trim, 1)
    && Between(o.quality, 1, 100)
    && Between(o.speed, 1, 8)
    && Between(o.reductionEffort, 0, 6)
    && Between(o.compressionLevel, 0, 9)
  }

  /** The constrained property names are exactly the ten listed. */
  lemma CheckedFieldNames(field: string)
    requires field in CheckedFields
    ensures || field == "sourceImageUrl" || field == "width" || field == "height"
            || field == "fit" || field == "position" || field == "trim"
            || field == "quality" || field == "speed" || field == "reductionEffort"
            || field == "compressionLevel"
  {
    var i :| 0 <= i < |CheckedFields| && CheckedFields[i] == field;
  }

  /** For a typed record the schema's per-property checks reduce to the
      integer ranges: the URL is present and the enum values are members. */
  lemma RangesAreSchema(o: ImageTransformOptions)
    ensures (&& AtLeast(o.width, 1) && AtLeast(o.height, 1) && AtLeast(o.trim, 1)
             && Between(o.quality, 1, 100) && Between(o.speed, 1, 8)
             && Between(o.reductionEffort, 0, 6) && Between(o.compressionLevel, 0, 9))
            <==> SchemaAccepts(ToQuery(o))
  {
    var q := ToQuery(o);
    EnumValuesRoundTrip(o.fit.GetOr(Contain), o.position.GetOr(Center));
    assert FieldAccepted(q, "fit") && FieldAccepted(q, "position");
    assert CheckedFields[1] == "width" && FieldAccepted(q, "width") == AtLeast(o.width, 1);
    assert CheckedFields[2] == "height" && FieldAccepted(q, "height") == AtLeast(o.height, 1);
    assert CheckedFields[5] == "trim" && FieldAccepted(q, "trim") == AtLeast(o.trim, 1);
    assert CheckedFields[6] == "quality" && FieldAccepted(q, "quality") == Between(o.quality, 1, 100);
    assert CheckedFields[7] == "speed" && FieldAccepted(q, "speed") == Between(o.speed, 1, 8);
    assert CheckedFields[8] == "reductionEffort"
        && FieldAccepted(q, "reductionEffort") == Between(o.reductionEffort, 0, 6);
    assert CheckedFields[9] == "compressionLevel"
        && FieldAccepted(q, "compressionLevel") == Between(o.compressionLevel, 0, 9);
    if && AtLeast(o.width, 1) && AtLeast(o.height, 1) && AtLeast(o.trim, 1)
       && Between(o.quality, 1, 100) && Between(o.speed, 1, 8)
       && Between(o.reductionEffort, 0, 6) && Between(o.compressionLevel, 0, 9)
    {
      forall field | field in CheckedFields
        ensures FieldAccepted(q, field)
      {
        CheckedFieldNames(field);
      }
    }
  }

  /** `imageTransformOptionsSchema.validate`: accept the query as typed options
      or fail on a property the schema rejects. */
  function Validate(q: QueryOptions): (r: Result<ImageTransformOptions, ValidationError>)
    ensures r.Success? ==> Valid(r.value) && ToQuery(r.value) == q
    ensures r.Failure? ==> r.error.field in CheckedFields && !FieldAccepted(q, r.error.field)
  {
    if q.sourceImageUrl.None? then Failure(ValidationError("sourceImageUrl"))
    else if !AtLeast(q.width, 1) then Failure(ValidationError("width"))
    else if !AtLeast(q.height, 1) then Failure(ValidationError("height"))
    else if q.fit.Some? && ParseFit(q.fit.value).None? then Failure(ValidationError("fit"))
    else if q.position.Some? && ParsePosition(q.position.value).None? then Failure(ValidationError("position"))
    else if !AtLeast(q.trim, 1) then Failure(ValidationError("trim"))
    else if !Between(q.quality, 1, 100) then Failure(ValidationError("quality"))
    else if !Between(q.speed, 1, 8) then Failure(ValidationError("speed"))
    else if !Between(q.reductionEffort, 0, 6) then Failure(ValidationError("reductionEffort"))
    else if !Between(q.compressionLevel, 0, 9) then Failure(ValidationError("compressionLevel"))
    else
      Success(ImageTransformOptions(
        q.sourceImageUrl.value, q.format, q.width, q.height,
        if q.fit.Some? then ParseFit(q.fit.value) else None,
        if q.position.Some? then ParsePosition(q.position.value) else None,
        q.trim, q.quality, q.lossless, q.speed, q.reductionEffort,
        q.compressionLevel, q.palette))
  }

  /** The schema accepts a query exactly when every constrained property is
      acceptable. */
  lemma ValidateAcceptsIff(q: QueryOptions)
    ensures Validate(q).Success? <==> SchemaAccepts(q)
  {
    if SchemaAccepts(q) {
      assert FieldAccepted(q, "sourceImageUrl");
      assert FieldAccepted(q, "width");
      assert FieldAccepted(q, "height");
      assert FieldAccepted(q, "fit");
      assert FieldAccepted(q, "position");
      assert FieldAccepted(q, "trim");
      assert FieldAccepted(q, "quality");
      assert FieldAccepted(q, "speed");
      assert FieldAccepted(q, "reductionEffort");
      assert FieldAccepted(q, "compressionLevel");
    }
  }

  /** Every valid options record passes the schema unchanged. */
  lemma ValidateComplete(o: ImageTransformOptions)
    requires Valid(o)
    ensures Validate(ToQuery(o)) == Success(o)
  {
    var q := ToQuery(o);
    if o.fit.Some? {
      EnumValuesRoundTrip(o.fit.value, Center);
    }
    if o.position.Some? {
      EnumValuesRoundTrip(Contain, o.position.value);
    }
  }

  const DefaultQuality := 100
  const DefaultPosition := Center

  /** The destructuring defaults of `imageTransform`: `quality = 100` and
      `position = ImgPosition.center`, applied only to absent values. */
  function WithDefaults(o: ImageTransformOptions): (d: ImageTransformOptions)
    ensures d.quality.Some? && d.position.Some?
    ensures o.quality.None? ==> d.quality == Some(100)
    ensures o.quality.Some? ==> d.quality == o.quality
    ensures o.position.None? ==> d.position == Some(Center)
    ensures o.position.Some? ==> d.position == o.position
    ensures d.(quality := o.quality, position := o.position) == o
    ensures Valid(o) ==> Valid(d)
  {
    o.(quality := Some(o.quality.GetOr(DefaultQuality)),
       position := Some(o.position.GetOr(DefaultPosition)))
  }

  /** Defaulting twice changes nothing more. */
  lemma WithDefaultsIdempotent(o: ImageTransformOptions)
    ensures WithDefaults(WithDefaults(o)) == WithDefaults(o)
  {
  }
}
