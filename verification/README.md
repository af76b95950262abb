# Image transform request planning

A Dafny model of the request-to-plan logic of the image transform endpoint of
the backend demo (`src/img.resource.ts`). A query string is validated against
the `ImageTransformOptions` schema. Defaults are applied. The output format is
resolved from the requested format, the `Accept` header and the source URL.
The handler then asks the imaging engine for an encode stage, an optional
resize stage and an optional trim stage. Finally the engine's reported format
is turned into a `Content-Type`, next to a fixed one-year `Cache-Control`.

The model is a set of pure functions:

- `wrappers.dfy`: `Option` stands for `undefined`. `Result` stands for a value or a thrown error.
- `strings.dfy`: `String.prototype.includes`, `lastIndexOf` and the library helper `_substringAfterLast`.
- `options.dfy`: `FitEnum`, `ImgPosition`, the options record, schema validation and the destructuring defaults.
- `format.dfy`: output-format resolution (`auto` negotiation, then the URL-suffix fallback).
- `plan.dfy`: the list of engine stages `imageTransform` requests, in request order.
- `response.dfy`: the middleware: validate, run the engine (a parameter), build the response headers.

The imaging engine and the HTTP fetch are not modelled. The handler takes them
as one function parameter (`ImageResponse.ImageEngine`). That function maps the
source image URL and the planned stages to encoded bytes plus `OutputInfo`, or
to an error.

An `auto` request matching neither `image/avif` nor `image/webp` does not
defer to the engine: line 162 sets the format to `''` and line 166 replaces it
with the URL suffix (`FormatNegotiation.UnmatchedAutoUsesUrlSuffix`).

## Model

| member | source | states |
|---|---|---|
| StringUtil.ContainsStep | src/img.resource.ts:157-159 | an occurrence of a non-empty needle either starts at the front or lies wholly in the tail, the step the `includes` scan relies on |
| StringUtil.Includes | src/img.resource.ts:157-159 | `includes` is true exactly when the needle occurs at some index of the header (an empty needle always occurs) |
| StringUtil.LastIndexOf | src/img.resource.ts:166 | -1 exactly when the character is absent; otherwise an index of that character with no occurrence after it |
| StringUtil.SubstringAfterLast | src/img.resource.ts:166 | when the string contains the delimiter, the result is a proper suffix preceded by the delimiter and free of it |
| StringUtil.SubstringAfterLastOf | src/img.resource.ts:166 | for any prefix, `prefix + '.' + suffix` with a dot-free suffix yields exactly that suffix |
| ImageOptions.ParseFit | src/img.resource.ts:112 | a string is accepted as `fit` exactly when it is one of the five `FitEnum` values, and parses to the member with that value |
| ImageOptions.ParsePosition | src/img.resource.ts:113 | a string is accepted as `position` exactly when it is one of the three `ImgPosition` values, and parses to the member with that value |
| ImageOptions.EnumValuesRoundTrip | src/img.resource.ts:13-25 | every enum member's string value is accepted by the schema and parses back to that member |
| ImageOptions.Valid | src/img.resource.ts:110-119 | typed options are valid exactly when the query carrying them meets every schema constraint: width/height/trim at least 1, quality in [1,100], speed in [1,8], reductionEffort in [0,6], compressionLevel in [0,9], enum values for fit/position |
| ImageOptions.RangesAreSchema | src/img.resource.ts:107-120 | for a typed record, the schema's per-property checks hold exactly when the seven integer ranges hold: the URL is present and enum values are always members |
| ImageOptions.Validate | src/img.resource.ts:105-126 | an accepted query yields options inside every declared range that write back to the same query; a rejection names a constrained property the query violates |
| ImageOptions.ValidateAcceptsIff | src/img.resource.ts:107-120 | the schema accepts a query exactly when the URL is present, width/height/trim are at least 1, quality is in [1,100], speed in [1,8], reductionEffort in [0,6], compressionLevel in [0,9], and fit/position are enum values |
| ImageOptions.ValidateComplete | src/img.resource.ts:105-126 | every options record inside the declared ranges passes validation unchanged |
| ImageOptions.WithDefaults | src/img.resource.ts:137-151 | an absent quality becomes 100 and an absent position becomes `center`; present values and all other properties are unchanged; validity is preserved |
| ImageOptions.WithDefaultsIdempotent | src/img.resource.ts:139-144 | applying the defaults a second time changes nothing |
| FormatNegotiation.Negotiate | src/img.resource.ts:156-164 | `avif` when the header contains `image/avif`, otherwise `webp` when it contains `image/webp`, otherwise the empty string |
| FormatNegotiation.ResolveFormat | src/img.resource.ts:156-166 | `auto` gives `avif` (priority) or `webp` by header substring; a non-empty format other than `auto` is returned verbatim; an absent, empty or unmatched-`auto` format gives the URL text after the last dot |
| FormatNegotiation.ResolveFormatRange | src/img.resource.ts:156-166 | the resolved format is always the URL suffix, a negotiated `avif`/`webp` for `auto`, or the explicitly requested format |
| FormatNegotiation.ExplicitFormatIgnoresContext | src/img.resource.ts:156-166 | a concrete requested format is the result whatever the header and URL are |
| FormatNegotiation.HeaderOnlyMattersForAuto | src/img.resource.ts:156 | unless the format is `auto`, changing the Accept header does not change the result |
| FormatNegotiation.UrlSuffixKeepsCase | src/img.resource.ts:38 | with no format, `http://x/y/pic.JPG` resolves to `JPG`: the extension is taken as written, not normalised or sniffed |
| FormatNegotiation.AvifHasPriority | src/img.resource.ts:157-158 | a header listing both `image/avif` and `image/webp` resolves `auto` to `avif` |
| FormatNegotiation.UnmatchedAutoUsesUrlSuffix | src/img.resource.ts:161-166 | `auto` with a `text/html` header and a `.png` URL resolves to `png`, not to an engine default |
| TransformPlan.Plan | src/img.resource.ts:168-189 | exactly one encode stage, first, with the resolved format, the defaulted quality and lossless/speed/compressionLevel/reductionEffort/palette passed through unchanged; one resize stage iff width or height is truthy, carrying width/height/fit and the defaulted position; one trim stage iff trim is truthy, carrying its threshold; stages in request order |
| TransformPlan.PlanOfValidOptions | src/img.resource.ts:178-189 | for schema-valid options, a resize stage is planned iff width or height is present and a trim stage iff trim is present |
| TransformPlan.ZeroSizeSkipsResize | src/img.resource.ts:178 | without validation, a zero width with no or zero height is falsy and plans no resize |
| TransformPlan.PlanIgnoresHeaderWithoutAuto | src/img.resource.ts:156-189 | unless the format is `auto`, the plan does not depend on the Accept header |
| ImageResponse.ContentType | src/img.resource.ts:212-218 | `image/avif` for a reported `heif`; `image/<format>` for any other non-empty format; `image/jpeg` for an empty one |
| ImageResponse.ContentTypeInjective | src/img.resource.ts:212-218 | two reported formats share a content type only if equal, or `heif`/`avif`, or empty/`jpeg` |
| ImageResponse.HandleRequest | src/img.resource.ts:204-220 | a validation error is raised before the engine runs; the engine is given the validated source URL and the plan; an engine error is raised with no body; a success carries `max-age=31536000`, the engine's bytes and the content type of the reported format |
| ImageResponse.MissingAcceptIsEmpty | src/img.resource.ts:135 | a request with no Accept header is handled as one with an empty Accept header |

## Left out

- Streaming and encoding by the imaging engine (`sharp`, cloning, `toBuffer`): opaque library. The model records only which stages are requested. The engine is a function parameter of `HandleRequest`.
- The HTTP fetch of the source image, the stream pipeline and the concurrent `Promise.all` join: network I/O and concurrency. They sit inside the engine parameter, which receives the validated source URL; any failure there surfaces as an `EngineError`.
- Ajv's string-to-number and string-to-boolean coercion, and its handling of array-valued or extra query properties: library behaviour. Validation is modelled over already-coerced values (`QueryOptions`). The integer type stands in for the schema's `integer` check, so non-integral numbers are not represented.
- ImageOptions.Validate: when several properties are invalid, the contract does not say which one the error names, because the order in which the schema library reports errors is not part of this model.
- StringUtil.SubstringAfterLast: the contract commits only to the case where the delimiter occurs. The body returns the whole string when it does not, but that case is left uncommitted because the defining library is not part of this model. The delimiter is a single character, since the only call passes `'.'`.
- ImageResponse.ContentType: the alias table is a plain JavaScript object, so a reported format that names an `Object.prototype` property (such as `constructor`) would read an inherited value. The model treats the table as a map with the single `heif` entry. The engine does not report such format names.
- Strings are sequences of Unicode scalar values, while JavaScript strings are UTF-16 code units: lone surrogates cannot be represented and `lastIndexOf` indices can differ. The results here are the same, because every needle is ASCII and the delimiter is `.`.
- Router registration, `console.log` calls and the middleware options argument: framework wiring and logging.
- `src/root.resource.ts` and `src/startServer.ts`: handlers that delegate to a framework library that is not part of this model, plus process bootstrap.
- `docs/.vuepress/config.js`: documentation-site configuration.
