/**
 * The request normaliser of the screenshot service (handler.go): the
 * ScreenshotRequest record, the in-place defaulting of out-of-range fields,
 * the field-tagged validation and the validation error's message.
 */
module Handler {
  import opened Wrappers

  /** The clip rectangle of a request, in CSS pixels (float64 in the source). */
  datatype ClipRect = ClipRect(x: real, y: real, width: real, height: real)

  /**
   * A snapshot of the fields of a ScreenshotRequest that the core reads.
   * The raw JSON text fields (HeadersRaw, ClipRaw) belong to the binding
   * layer and are not part of it.
   */
  datatype Request = Request(
    url: string,
    width: int,
    height: int,
    format: string,
    quality: int,
    waitTime: int,
    waitFor: string,
    fullPage: bool,
    headers: map<string, string>,
    userAgent: string,
    clip: Option<ClipRect>,
    deviceScale: real,
    mobile: bool,
    landscape: bool,
    timeout: int)

  const DefaultWidth: int := 1920
  const DefaultHeight: int := 1080
  const DefaultFormat: string := "png"
  const DefaultQuality: int := 90
  const DefaultTimeout: int := 30
  const MaxTimeout: int := 120

  /** The formats Validate accepts; "jpg" is an alias of "jpeg". */
  const ValidFormats: set<string> := {"png", "jpeg", "jpg", "webp"}

  // ---------------------------------------------------------------------
  // Lower-casing (strings.ToLower, on ASCII letters)
  // ---------------------------------------------------------------------

  predicate IsUpper(c: char) {
    'A' <= c <= 'Z'
  }

  predicate IsLowerCase(s: string) {
    forall i :: 0 <= i < |s| ==> !IsUpper(s[i])
  }

  function LowerChar(c: char): (d: char)
    ensures !IsUpper(d)
    ensures !IsUpper(c) ==> d == c
    ensures IsUpper(c) ==> 'a' <= d <= 'z' && d as int - 'a' as int == c as int - 'A' as int
  {
    if IsUpper(c) then (c as int - 'A' as int + 'a' as int) as char else c
  }

  /** Maps every upper-case ASCII letter to its lower-case letter, position by position. */
  function ToLower(s: string): (r: string)
    ensures |r| == |s|
    ensures forall i :: 0 <= i < |s| ==> r[i] == LowerChar(s[i])
    ensures IsLowerCase(r)
  {
    if s == [] then [] else [LowerChar(s[0])] + ToLower(s[1..])
  }

  /** Lower-casing leaves a lower-case string alone, so it is idempotent. */
  lemma LowerCaseIsFixed(s: string)
    requires IsLowerCase(s)
    ensures ToLower(s) == s
  {
    assert forall i :: 0 <= i < |s| ==> ToLower(s)[i] == s[i];
  }

  // ---------------------------------------------------------------------
  // SetDefaults
  // ---------------------------------------------------------------------

  /** The fields SetDefaults leaves in range; those it repairs when they are not. */
  predicate InRange(v: Request) {
    && v.width > 0
    && v.height > 0
    && v.format != ""
    && IsLowerCase(v.format)
    && 1 <= v.quality <= 100
    && v.waitTime >= 0
    && v.deviceScale > 0.0
    && 1 <= v.timeout <= MaxTimeout
  }

  /** A width or height of zero or less becomes its default. */
  function PositiveOr(x: int, default: int): (y: int)
    requires default > 0
    ensures y > 0
    ensures x > 0 ==> y == x
    ensures x <= 0 ==> y == default
  {
    if x <= 0 then default else x
  }

  /** A quality outside 1..100 becomes 90. */
  function RepairedQuality(quality: int): (q: int)
    ensures 1 <= q <= 100
    ensures 1 <= quality <= 100 ==> q == quality
    ensures !(1 <= quality <= 100) ==> q == DefaultQuality
  {
    if quality <= 0 || quality > 100 then DefaultQuality else quality
  }

  /** A negative wait time becomes zero. */
  function NonNegative(waitTime: int): (w: int)
    ensures w >= 0
    ensures waitTime >= 0 ==> w == waitTime
    ensures waitTime < 0 ==> w == 0
  {
    if waitTime < 0 then 0 else waitTime
  }

  /** A device scale factor of zero or less becomes 1.0. */
  function RepairedScale(scale: real): (s: real)
    ensures s > 0.0
    ensures scale > 0.0 ==> s == scale
    ensures scale <= 0.0 ==> s == 1.0
  {
    if scale <= 0.0 then 1.0 else scale
  }

  /** An empty format becomes "png"; any format is then lower-cased. */
  function NormalFormat(format: string): (f: string)
    ensures f != "" && IsLowerCase(f)
    ensures format == "" ==> f == DefaultFormat
    ensures format != "" ==> f == ToLower(format)
  {
    ToLower(if format == "" then DefaultFormat else format)
  }

  /** A timeout of zero or less becomes 30 seconds; one above 120 becomes 120. */
  function ClampedTimeout(timeout: int): (t: int)
    ensures 1 <= t <= MaxTimeout
    ensures timeout <= 0 ==> t == DefaultTimeout
    ensures timeout > MaxTimeout ==> t == MaxTimeout
    ensures 1 <= timeout <= MaxTimeout ==> t == timeout
  {
    var t := if timeout <= 0 then DefaultTimeout else timeout;
    if t > MaxTimeout then MaxTimeout else t
  }

  /**
   * The request SetDefaults leaves behind: each out-of-range numeric field
   * replaced by its default (the timeout clamped to 120 from above), an
   * empty format replaced by "png" and the format lower-cased.
   */
  function Defaulted(v: Request): (r: Request)
    ensures InRange(r)
    ensures r.url == v.url && r.waitFor == v.waitFor && r.fullPage == v.fullPage
    ensures r.headers == v.headers && r.userAgent == v.userAgent && r.clip == v.clip
    ensures r.mobile == v.mobile && r.landscape == v.landscape
  {
    Request(
      v.url,
      PositiveOr(v.width, DefaultWidth),
      PositiveOr(v.height, DefaultHeight),
      NormalFormat(v.format),
      RepairedQuality(v.quality),
      NonNegative(v.waitTime),
      v.waitFor,
      v.fullPage,
      v.headers,
      v.userAgent,
      v.clip,
      RepairedScale(v.deviceScale),
      v.mobile,
      v.landscape,
      ClampedTimeout(v.timeout))
  }

  /**
   * SetDefaults only replaces out-of-range values, and every field outside
   * the seven it repairs is untouched.
   */
  lemma DefaultedRepairsOnlyOutOfRange(v: Request)
    ensures v.width > 0 ==> Defaulted(v).width == v.width
    ensures v.width <= 0 ==> Defaulted(v).width == DefaultWidth
    ensures v.height > 0 ==> Defaulted(v).height == v.height
    ensures v.height <= 0 ==> Defaulted(v).height == DefaultHeight
    ensures Defaulted(v).format == NormalFormat(v.format)
    ensures 1 <= v.quality <= 100 ==> Defaulted(v).quality == v.quality
    ensures !(1 <= v.quality <= 100) ==> Defaulted(v).quality == DefaultQuality
    ensures v.waitTime >= 0 ==> Defaulted(v).waitTime == v.waitTime
    ensures v.waitTime < 0 ==> Defaulted(v).waitTime == 0
    ensures v.deviceScale > 0.0 ==> Defaulted(v).deviceScale == v.deviceScale
    ensures v.deviceScale <= 0.0 ==> Defaulted(v).deviceScale == 1.0
    ensures Defaulted(v).timeout == ClampedTimeout(v.timeout)
    // every other field is untouched
    ensures Defaulted(v).url == v.url && Defaulted(v).waitFor == v.waitFor && Defaulted(v).fullPage == v.fullPage
    ensures Defaulted(v).headers == v.headers && Defaulted(v).userAgent == v.userAgent && Defaulted(v).clip == v.clip
    ensures Defaulted(v).mobile == v.mobile && Defaulted(v).landscape == v.landscape
  {
  }

  /** The requests SetDefaults leaves unchanged are exactly the in-range ones. */
  lemma DefaultedFixpoints(v: Request)
    ensures Defaulted(v) == v <==> InRange(v)
  {
    if InRange(v) {
      LowerCaseIsFixed(v.format);
    }
  }

  /** SetDefaults is idempotent. */
  lemma DefaultedIdempotent(v: Request)
    ensures Defaulted(Defaulted(v)) == Defaulted(v)
  {
    DefaultedFixpoints(Defaulted(v));
  }

  /**
   * A ScreenshotRequest, whose fields SetDefaults updates in place. The
   * fields the core never writes after binding are constants here.
   */
  class ScreenshotRequest {
    const url: string
    var width: int
    var height: int
    var format: string
    var quality: int
    var waitTime: int
    const waitFor: string
    const fullPage: bool
    const headers: map<string, string>
    const userAgent: string
    const clip: Option<ClipRect>
    var deviceScale: real
    const mobile: bool
    const landscape: bool
    var timeout: int

    /** The current values of the fields. */
    function Snapshot(): Request
      reads this
    {
      Request(url, width, height, format, quality, waitTime, waitFor, fullPage,
              headers, userAgent, clip, deviceScale, mobile, landscape, timeout)
    }

    constructor (v: Request)
      ensures Snapshot() == v
    {
      url, width, height, format, quality := v.url, v.width, v.height, v.format, v.quality;
      waitTime, waitFor, fullPage, headers := v.waitTime, v.waitFor, v.fullPage, v.headers;
      userAgent, clip, deviceScale := v.userAgent, v.clip, v.deviceScale;
      mobile, landscape, timeout := v.mobile, v.landscape, v.timeout;
    }

    /** Rewrites the out-of-range fields one after another, each by its repair rule above. */
    method SetDefaults()
      modifies this
      ensures Snapshot() == Defaulted(old(Snapshot()))
    {
      width := PositiveOr(width, DefaultWidth);
      height := PositiveOr(height, DefaultHeight);
      format := NormalFormat(format);
      quality := RepairedQuality(quality);
      waitTime := NonNegative(waitTime);
      deviceScale := RepairedScale(deviceScale);
      timeout := ClampedTimeout(timeout);
    }
  }

  // ---------------------------------------------------------------------
  // Validate and ValidationError
  // ---------------------------------------------------------------------

  datatype ValidationError = ValidationError(field: string, message: string) {

    /** The message reported to the client: the field, a colon and a blank, the text. */
    function Error(): (s: string)
      ensures |s| == |field| + 2 + |message|
      ensures s[..|field|] == field && s[|field|..|field| + 2] == ": " && s[|field| + 2..] == message
    {
      field + ": " + message
    }
  }

  const FormatError := ValidationError("format", "must be png, jpeg, or webp")
  const WidthError := ValidationError("width", "must be between 100 and 4096")
  const HeightError := ValidationError("height", "must be between 100 and 10000")

  /** Checks format, width and height, in that order, and reports the first failure. */
  function Validate(r: Request): (err: Option<ValidationError>)
    ensures err == None <==> r.format in ValidFormats && 100 <= r.width <= 4096 && 100 <= r.height <= 10000
    ensures err == Some(FormatError) <==> r.format !in ValidFormats
    ensures err == Some(WidthError) <==> r.format in ValidFormats && !(100 <= r.width <= 4096)
    ensures err == Some(HeightError) <==>
              r.format in ValidFormats && 100 <= r.width <= 4096 && !(100 <= r.height <= 10000)
  {
    if r.format !in ValidFormats then
      Some(FormatError)
    else if r.width > 4096 || r.width < 100 then
      Some(WidthError)
    else if r.height > 10000 || r.height < 100 then
      Some(HeightError)
    else
      None
  }

  /**
   * Defaults run before validation, so a missing width or height is never
   * reported: a request is accepted iff its normalised format is valid and
   * each dimension is either absent (zero or negative) or within bounds.
   */
  lemma AcceptedAfterDefaults(v: Request)
    ensures Validate(Defaulted(v)) == None <==>
              && NormalFormat(v.format) in ValidFormats
              && (v.width <= 0 || 100 <= v.width <= 4096)
              && (v.height <= 0 || 100 <= v.height <= 10000)
  {
    DefaultedRepairsOnlyOutOfRange(v);
  }

  /** The position of the first occurrence of c in s, or |s| when there is none. */
  function IndexOf(s: string, c: char): (k: nat)
    ensures k <= |s|
    ensures forall i :: 0 <= i < k ==> s[i] != c
    ensures k < |s| ==> s[k] == c
  {
    if s == [] then 0 else if s[0] == c then 0 else 1 + IndexOf(s[1..], c)
  }

  /** Reads a field and a message back from an error message, splitting at the first ": ". */
  function ParseError(s: string): Option<ValidationError> {
    var k := IndexOf(s, ':');
    if k + 1 < |s| && s[k + 1] == ' ' then Some(ValidationError(s[..k], s[k + 2..])) else None
  }

  /** The message of an error whose field has no colon determines the error. */
  lemma {:induction false} ErrorRoundTrip(e: ValidationError)
    requires forall i :: 0 <= i < |e.field| ==> e.field[i] != ':'
    ensures ParseError(e.Error()) == Some(e)
  {
    var s := e.Error();
    assert s[|e.field|] == ':';
    assert IndexOf(s, ':') == |e.field|;
  }
}
