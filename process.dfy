/**
 * processScreenshot of handler.go: defaults, validation, capture, and the
 * response it writes (status, headers, body). It calls into the capture
 * planner, so it sits in a module of its own above Handler and Screenshot.
 */
module Process {
  import opened Wrappers
  import opened Handler
  import opened Screenshot

  const StatusOK: int := 200
  const StatusBadRequest: int := 400
  const StatusInternalServerError: int := 500
  const CacheControl: string := "public, max-age=86400"

  /** What the handler writes back: a JSON error body, or the image under its headers. */
  datatype Response =
    | JsonError(status: int, error: string)
    | ImageData(status: int, headers: seq<(string, string)>, body: seq<byte>)

  // ---------------------------------------------------------------------
  // Content-Disposition
  // ---------------------------------------------------------------------

  const FilenameStem: string := "screenshot."

  /** The download name: "screenshot." and the format, with "jpg" spelled "jpeg". */
  function Filename(format: string): (name: string)
    ensures |name| >= |FilenameStem| && name[..|FilenameStem|] == FilenameStem
    ensures format == "jpg" ==> name[|FilenameStem|..] == "jpeg"
    ensures format != "jpg" ==> name[|FilenameStem|..] == format
  {
    if format == "jpg" then "screenshot.jpeg" else FilenameStem + format
  }

  /**
   * For every accepted format the file extension names the same image type
   * as the Content-Type header, so the "jpg" alias never leaks into a name.
   */
  lemma FilenameMatchesContentType(format: string)
    requires format in ValidFormats
    ensures |Filename(format)| > |FilenameStem| && Filename(format)[..|FilenameStem|] == FilenameStem
    ensures "image/" + Filename(format)[|FilenameStem|..] == ContentTypeOf(format)
  {
    if format == "jpg" {
      assert Filename(format) == FilenameStem + "jpeg";
    }
  }

  function ContentDisposition(format: string): string {
    "inline; filename=\"" + Filename(format) + "\""
  }

  // ---------------------------------------------------------------------
  // Content-Length (strconv.Itoa on a length)
  // ---------------------------------------------------------------------

  predicate IsDigit(c: char) {
    '0' <= c <= '9'
  }

  function DigitChar(d: nat): (c: char)
    requires d < 10
    ensures IsDigit(c) && c as int - '0' as int == d
  {
    (d + '0' as int) as char
  }

  /** The decimal numeral of n: digits only, and no leading zero. */
  function DecimalString(n: nat): (s: string)
    ensures |s| > 0
    ensures forall i :: 0 <= i < |s| ==> IsDigit(s[i])
    ensures s[0] == '0' ==> n == 0
    decreases n
  {
    if n < 10 then [DigitChar(n)] else DecimalString(n / 10) + [DigitChar(n % 10)]
  }

  function DigitValue(c: char): (d: nat)
    requires IsDigit(c)
    ensures d < 10 && DigitChar(d) == c
  {
    c as int - '0' as int
  }

  /** The value of a string of decimal digits. */
  function DecimalValue(s: string): nat
    requires forall i :: 0 <= i < |s| ==> IsDigit(s[i])
  {
    if s == [] then 0 else DecimalValue(s[..|s| - 1]) * 10 + DigitValue(s[|s| - 1])
  }

  /** Reading the Content-Length header back gives the length it was written from. */
  lemma {:induction false} DecimalRoundTrip(n: nat)
    ensures DecimalValue(DecimalString(n)) == n
    decreases n
  {
    if n >= 10 {
      var s := DecimalString(n);
      assert s[..|s| - 1] == DecimalString(n / 10);
      DecimalRoundTrip(n / 10);
    }
  }

  /**
   * The headers of a successful response, in the order the handler sets
   * them: the content type of the format, a Content-Length that reads back
   * as the body length, a one-day public cache, and an inline disposition.
   */
  function ImageHeaders(format: string, length: nat): (h: seq<(string, string)>)
    ensures |h| == 4
    ensures h[0] == ("Content-Type", ContentTypeOf(format))
    ensures h[1].0 == "Content-Length" && (forall i :: 0 <= i < |h[1].1| ==> IsDigit(h[1].1[i]))
    ensures DecimalValue(h[1].1) == length
    ensures h[2] == ("Cache-Control", CacheControl)
    ensures h[3] == ("Content-Disposition", ContentDisposition(format))
  {
    DecimalRoundTrip(length);
    [ ("Content-Type", ContentTypeOf(format)),
      ("Content-Length", DecimalString(length)),
      ("Cache-Control", CacheControl),
      ("Content-Disposition", ContentDisposition(format)) ]
  }

  // ---------------------------------------------------------------------
  // processScreenshot
  // ---------------------------------------------------------------------

  /**
   * Applies the defaults in place, validates, and only for a valid request
   * opens a browser session; answers 400 with the validation message, 500
   * with the wrapped capture error, or 200 with the image. The second
   * result is the task list handed to the browser, None when no session was
   * started.
   */
  method ProcessScreenshot(req: ScreenshotRequest, browser: (Session, seq<Task>) -> RunOutcome)
    returns (resp: Response, session: Option<seq<Task>>)
    modifies req
    ensures req.Snapshot() == Defaulted(old(req.Snapshot()))
    ensures Validate(req.Snapshot()).Some? ==>
              resp == JsonError(StatusBadRequest, Validate(req.Snapshot()).value.Error()) && session == None
    ensures Validate(req.Snapshot()).None? ==>
              var r := req.Snapshot();
              var run := browser(Session(r.width, r.height, r.timeout), Tasks(r));
              && session == Some(Tasks(r))
              && (run.Failed? ==> resp == JsonError(StatusInternalServerError, FailurePrefix + run.cause))
              && (run.Captured? ==> resp == ImageData(StatusOK, ImageHeaders(r.format, |run.image|), run.image))
  {
    req.SetDefaults();

    var r := req.Snapshot();
    var invalid := Validate(r);
    if invalid.Some? {
      return JsonError(StatusBadRequest, invalid.value.Error()), None;
    }

    var tasks, data, contentType, err := TakeScreenshot(r, browser);
    session := Some(tasks);
    if err.Some? {
      return JsonError(StatusInternalServerError, err.value), session;
    }

    var headers := [("Content-Type", contentType), ("Content-Length", DecimalString(|data|)),
                    ("Cache-Control", CacheControl)];
    var filename := FilenameStem + r.format;
    if r.format == "jpg" {
      filename := "screenshot.jpeg";
    }
    assert filename == Filename(r.format);
    headers := headers + [("Content-Disposition", "inline; filename=\"" + filename + "\"")];
    assert headers == ImageHeaders(r.format, |data|);
    resp := ImageData(StatusOK, headers, data);
  }
}
