/**
 * The capture planner of the screenshot service (screenshot.go): the format
 * mappings, the three capture strategies, the ordered task list that
 * TakeScreenshot hands to the browser, and the asset URL rewrite decision
 * taken for every intercepted request. The browser itself is opaque: the
 * model says which commands are issued, in what order, with which arguments.
 */
module Screenshot {
  import opened Wrappers
  import opened Handler

  newtype byte = b: int | 0 <= b < 256

  // ---------------------------------------------------------------------
  // Formats (getChromeFormat, getContentType)
  // ---------------------------------------------------------------------

  /** The image encodings of the browser's CaptureScreenshot command. */
  datatype ChromeFormat = Png | Jpeg | Webp

  /** The MIME type of each encoding. */
  function MimeType(f: ChromeFormat): string {
    match f
    case Png => "image/png"
    case Jpeg => "image/jpeg"
    case Webp => "image/webp"
  }

  /** "jpeg" and "jpg" select JPEG, "webp" selects WEBP, every other string PNG. */
  function ChromeFormatOf(format: string): (f: ChromeFormat)
    ensures f == Jpeg <==> format == "jpeg" || format == "jpg"
    ensures f == Webp <==> format == "webp"
    ensures f == Png <==> format != "jpeg" && format != "jpg" && format != "webp"
  {
    if format == "jpeg" || format == "jpg" then Jpeg
    else if format == "webp" then Webp
    else Png
  }

  /** The response's content type always names the encoding the browser was asked for. */
  function ContentTypeOf(format: string): (t: string)
    ensures t == MimeType(ChromeFormatOf(format))
  {
    if format == "jpeg" || format == "jpg" then "image/jpeg"
    else if format == "webp" then "image/webp"
    else "image/png"
  }

  // ---------------------------------------------------------------------
  // Capture strategies (viewportScreenshot, fullPageScreenshot, clipScreenshot)
  // ---------------------------------------------------------------------

  /** The clip region of a CaptureScreenshot command. */
  datatype Viewport = Viewport(x: real, y: real, width: real, height: real, scale: real)

  /** The arguments of one CaptureScreenshot command. */
  datatype ScreenshotParams = ScreenshotParams(
    format: ChromeFormat,
    quality: Option<int>,
    clip: Option<Viewport>,
    captureBeyondViewport: bool)

  /** The arguments of SetDeviceMetricsOverride. */
  datatype DeviceMetrics = DeviceMetrics(width: int, height: int, deviceScaleFactor: real, mobile: bool)

  /** The page's full content size, as reported by GetLayoutMetrics and truncated to integers. */
  datatype LayoutSize = LayoutSize(width: int, height: int)

  /** The browser commands a capture closure issues when it runs. */
  datatype CaptureCommand =
    | GetLayoutMetrics
    | SetDeviceMetricsOverride(metrics: DeviceMetrics)
    | CaptureScreenshot(params: ScreenshotParams)

  /** A capture closure together with the request values it captured. */
  datatype CaptureMode =
    | ViewportMode(format: string, quality: int)
    | FullPageMode(format: string, quality: int)
    | ClipMode(rect: ClipRect, format: string, quality: int)

  /** The browser engine's largest capture height. */
  const MaxCaptureHeight: int := 16384

  /** Quality is attached exactly when the encoding is lossy (JPEG or WEBP). */
  function QualityParam(f: ChromeFormat, quality: int): (q: Option<int>)
    ensures q.Some? <==> f == Jpeg || f == Webp
    ensures q.Some? ==> q.value == quality
  {
    if f == Jpeg || f == Webp then Some(quality) else None
  }

  /** The encoding and quality of a capture are those the request asked for. */
  predicate EncodedAs(p: ScreenshotParams, format: string, quality: int) {
    && p.format == ChromeFormatOf(format)
    && (p.quality.Some? <==> p.format == Jpeg || p.format == Webp)
    && (p.quality.Some? ==> p.quality.value == quality)
  }

  /** A viewport capture is one CaptureScreenshot of what is visible: no clip, nothing beyond the viewport. */
  function ViewportScreenshot(format: string, quality: int): (cmds: seq<CaptureCommand>)
    ensures |cmds| == 1 && cmds[0].CaptureScreenshot?
    ensures EncodedAs(cmds[0].params, format, quality)
    ensures cmds[0].params.clip.None? && !cmds[0].params.captureBeyondViewport
  {
    var f := ChromeFormatOf(format);
    [CaptureScreenshot(ScreenshotParams(f, QualityParam(f, quality), None, false))]
  }

  /** The device metrics a full-page capture re-applies: the content size, clamped in height, at scale 1, not mobile. */
  function FullPageMetrics(content: LayoutSize): (m: DeviceMetrics)
    ensures m.width == content.width
    ensures m.height <= MaxCaptureHeight
    ensures m.height == content.height || (content.height > MaxCaptureHeight && m.height == MaxCaptureHeight)
    ensures m.deviceScaleFactor == 1.0 && !m.mobile
  {
    var height := if content.height > MaxCaptureHeight then MaxCaptureHeight else content.height;
    DeviceMetrics(content.width, height, 1.0, false)
  }

  /**
   * A full-page capture reads the layout, resizes the device to the
   * (clamped) content size, then captures beyond the viewport without a clip.
   */
  function FullPageScreenshot(format: string, quality: int, content: LayoutSize): (cmds: seq<CaptureCommand>)
    ensures |cmds| == 3 && cmds[0] == GetLayoutMetrics
    ensures cmds[1] == SetDeviceMetricsOverride(FullPageMetrics(content))
    ensures cmds[2].CaptureScreenshot? && EncodedAs(cmds[2].params, format, quality)
    ensures cmds[2].params.clip.None? && cmds[2].params.captureBeyondViewport
  {
    var f := ChromeFormatOf(format);
    [ GetLayoutMetrics,
      SetDeviceMetricsOverride(FullPageMetrics(content)),
      CaptureScreenshot(ScreenshotParams(f, QualityParam(f, quality), None, true)) ]
  }

  /** A clip capture is one CaptureScreenshot of the request's rectangle at scale 1. */
  function ClipScreenshot(rect: ClipRect, format: string, quality: int): (cmds: seq<CaptureCommand>)
    ensures |cmds| == 1 && cmds[0].CaptureScreenshot?
    ensures EncodedAs(cmds[0].params, format, quality)
    ensures cmds[0].params.clip == Some(Viewport(rect.x, rect.y, rect.width, rect.height, 1.0))
    ensures !cmds[0].params.captureBeyondViewport
  {
    var f := ChromeFormatOf(format);
    var clip := Viewport(rect.x, rect.y, rect.width, rect.height, 1.0);
    [CaptureScreenshot(ScreenshotParams(f, QualityParam(f, quality), Some(clip), false))]
  }

  /**
   * The commands a capture closure issues, given the content size the page
   * reports when it runs. Every strategy ends with exactly one
   * CaptureScreenshot, in the requested encoding, with quality attached iff
   * that encoding is lossy; only clip mode passes a clip, copied from the
   * request at scale 1; only full-page mode captures beyond the viewport.
   */
  function CaptureCommands(mode: CaptureMode, content: LayoutSize): (cmds: seq<CaptureCommand>)
    ensures |cmds| > 0 && cmds[|cmds| - 1].CaptureScreenshot?
    ensures forall i :: 0 <= i < |cmds| - 1 ==> !cmds[i].CaptureScreenshot?
    ensures var p := cmds[|cmds| - 1].params;
      && p.format == ChromeFormatOf(mode.format)
      && (p.quality.Some? <==> p.format == Jpeg || p.format == Webp)
      && (p.quality.Some? ==> p.quality.value == mode.quality)
      && (p.clip.Some? <==> mode.ClipMode?)
      && (mode.ClipMode? ==> p.clip == Some(Viewport(mode.rect.x, mode.rect.y, mode.rect.width, mode.rect.height, 1.0)))
      && (p.captureBeyondViewport <==> mode.FullPageMode?)
    ensures mode.FullPageMode? <==> SetDeviceMetricsOverride(FullPageMetrics(content)) in cmds
  {
    match mode
    case ViewportMode(format, quality) => ViewportScreenshot(format, quality)
    case FullPageMode(format, quality) => FullPageScreenshot(format, quality, content)
    case ClipMode(rect, format, quality) => ClipScreenshot(rect, format, quality)
  }

  // ---------------------------------------------------------------------
  // The task list of TakeScreenshot
  // ---------------------------------------------------------------------

  datatype Orientation = PortraitPrimary | LandscapePrimary

  /** The actions TakeScreenshot appends to its task list. */
  datatype Task =
    | NetworkEnable
    | SetExtraHTTPHeaders(headers: map<string, string>)
    | EmulateDevice(metrics: DeviceMetrics, orientation: Orientation, angle: int)
    | FetchEnable
    | Navigate(url: string)
    | WaitVisible(selector: string)
    | Sleep(ms: int)
    | Capture(mode: CaptureMode)

  /** Extra headers are installed when the request carries headers or a user agent. */
  predicate HasExtraHeaders(r: Request) {
    |r.headers| > 0 || r.userAgent != ""
  }

  /** Every supplied header, with "User-Agent" set to a non-empty user agent. */
  function ExtraHeaders(supplied: map<string, string>, userAgent: string): (h: map<string, string>)
    ensures h.Keys == supplied.Keys + (if userAgent != "" then {"User-Agent"} else {})
    ensures forall k :: k in supplied && (k != "User-Agent" || userAgent == "") ==> h[k] == supplied[k]
    ensures userAgent != "" ==> h["User-Agent"] == userAgent
  {
    if userAgent != "" then supplied["User-Agent" := userAgent] else supplied
  }

  /** Copies the supplied headers into a new map, key by key, then sets the user agent. */
  method BuildExtraHeaders(supplied: map<string, string>, userAgent: string) returns (headers: map<string, string>)
    ensures headers == ExtraHeaders(supplied, userAgent)
  {
    headers := map[];
    var pending := supplied.Keys;
    while pending != {}
      invariant pending <= supplied.Keys
      invariant headers.Keys == supplied.Keys - pending
      invariant forall k :: k in headers ==> headers[k] == supplied[k]
      decreases pending
    {
      var k :| k in pending;
      headers := headers[k := supplied[k]];
      pending := pending - {k};
    }
    if userAgent != "" {
      headers := headers["User-Agent" := userAgent];
    }
  }

  /** Device emulation with the request's size, scale and mobile flag, landscape iff requested, at angle 0. */
  function DeviceEmulation(r: Request): (e: Task)
    ensures e.EmulateDevice?
    ensures e.metrics == DeviceMetrics(r.width, r.height, r.deviceScale, r.mobile)
    ensures e.orientation == LandscapePrimary <==> r.landscape
    ensures e.angle == 0
  {
    var orientation := if r.landscape then LandscapePrimary else PortraitPrimary;
    EmulateDevice(DeviceMetrics(r.width, r.height, r.deviceScale, r.mobile), orientation, 0)
  }

  /** Full page wins over a clip, a clip over the viewport. */
  function CaptureModeOf(r: Request): (m: CaptureMode)
    ensures m.format == r.format && m.quality == r.quality
    ensures m.FullPageMode? <==> r.fullPage
    ensures m.ClipMode? <==> !r.fullPage && r.clip.Some?
    ensures m.ViewportMode? <==> !r.fullPage && r.clip.None?
    ensures m.ClipMode? ==> r.clip == Some(m.rect)
  {
    if r.fullPage then FullPageMode(r.format, r.quality)
    else if r.clip.Some? then ClipMode(r.clip.value, r.format, r.quality)
    else ViewportMode(r.format, r.quality)
  }

  /** Network enabling and the extra headers, present iff there are extra headers. */
  function HeaderTasks(r: Request): seq<Task> {
    if HasExtraHeaders(r) then [NetworkEnable, SetExtraHTTPHeaders(ExtraHeaders(r.headers, r.userAgent))] else []
  }

  /** The wait for the selector, present iff one is named. */
  function WaitTasks(r: Request): seq<Task> {
    if r.waitFor != "" then [WaitVisible(r.waitFor)] else []
  }

  /** The fixed sleep, present iff the wait time is positive. */
  function SleepTasks(r: Request): seq<Task> {
    if r.waitTime > 0 then [Sleep(r.waitTime)] else []
  }

  /**
   * The task list TakeScreenshot builds for a request: the four tasks every
   * session runs (emulation, fetch interception, navigation, capture) and
   * the optional ones the request asks for.
   */
  function Tasks(r: Request): (ts: seq<Task>)
    ensures |ts| == 4 + (if HasExtraHeaders(r) then 2 else 0) + (if r.waitFor != "" then 1 else 0)
                      + (if r.waitTime > 0 then 1 else 0)
  {
    HeaderTasks(r) + [DeviceEmulation(r), FetchEnable, Navigate(r.url)] + WaitTasks(r) + SleepTasks(r)
    + [Capture(CaptureModeOf(r))]
  }

  /** The place of each kind of task in the session protocol. */
  function Stage(t: Task): nat {
    match t
    case NetworkEnable => 0
    case SetExtraHTTPHeaders(_) => 1
    case EmulateDevice(_, _, _) => 2
    case FetchEnable => 3
    case Navigate(_) => 4
    case WaitVisible(_) => 5
    case Sleep(_) => 6
    case Capture(_) => 7
  }

  /** Each element ranks strictly below the next one. */
  predicate IncreasingBy<T>(s: seq<T>, rank: T -> nat)
    decreases |s|
  {
    |s| < 2 || (rank(s[0]) < rank(s[1]) && IncreasingBy(s[1..], rank))
  }

  predicate StrictlyStaged(ts: seq<Task>) {
    IncreasingBy(ts, Stage)
  }

  /** Ranks increasing step by step increase between any two positions. */
  lemma {:induction false} IncreasingPairwise<T>(s: seq<T>, rank: T -> nat)
    requires IncreasingBy(s, rank)
    ensures forall i, j :: 0 <= i < j < |s| ==> rank(s[i]) < rank(s[j])
    decreases |s|
  {
    if |s| >= 2 {
      IncreasingPairwise(s[1..], rank);
      forall i, j | 0 <= i < j < |s|
        ensures rank(s[i]) < rank(s[j])
      {
        if i > 0 {
          assert s[i] == s[1..][i - 1] && s[j] == s[1..][j - 1];
        } else if j > 1 {
          assert s[1] == s[1..][0] && s[j] == s[1..][j - 1];
        }
      }
    }
  }

  /** Two increasing lists whose boundary increases concatenate to an increasing list. */
  lemma {:induction false} IncreasingAppend<T>(a: seq<T>, b: seq<T>, rank: T -> nat)
    requires IncreasingBy(a, rank) && IncreasingBy(b, rank)
    requires |a| == 0 || |b| == 0 || rank(a[|a| - 1]) < rank(b[0])
    ensures IncreasingBy(a + b, rank)
    decreases |a|
  {
    if |a| == 1 {
      assert (a + b)[1..] == b;
    } else if |a| >= 2 {
      assert (a + b)[1..] == a[1..] + b;
      IncreasingAppend(a[1..], b, rank);
    } else {
      assert a + b == b;
    }
  }

  /** The tasks up to navigation: optional headers, emulation, fetch interception, navigation. */
  function FrontTasks(r: Request): seq<Task> {
    HeaderTasks(r) + [DeviceEmulation(r), FetchEnable, Navigate(r.url)]
  }

  /** The tasks after navigation: optional wait, optional sleep, capture. */
  function BackTasks(r: Request): seq<Task> {
    WaitTasks(r) + SleepTasks(r) + [Capture(CaptureModeOf(r))]
  }

  lemma {:induction false} FrontTasksStaged(r: Request)
    ensures StrictlyStaged(FrontTasks(r)) && Stage(FrontTasks(r)[|FrontTasks(r)| - 1]) == 4
  {
    var headers := HeaderTasks(r);
    var core := [DeviceEmulation(r), FetchEnable, Navigate(r.url)];
    assert IncreasingBy(core[2..], Stage) && IncreasingBy(core[1..], Stage);
    if |headers| == 2 {
      assert IncreasingBy(headers[1..], Stage);
    }
    IncreasingAppend(headers, core, Stage);
  }

  lemma {:induction false} BackTasksStaged(r: Request)
    ensures StrictlyStaged(BackTasks(r)) && Stage(BackTasks(r)[0]) >= 5
  {
  }

  /**
   * The tasks follow the session protocol: headers, emulation, fetch
   * interception, navigation, the wait for a selector, the sleep and the
   * capture come in that order.
   */
  lemma {:induction false} TasksFollowProtocolOrder(r: Request)
    ensures StrictlyStaged(Tasks(r))
  {
    FrontTasksStaged(r);
    BackTasksStaged(r);
    IncreasingAppend(FrontTasks(r), BackTasks(r), Stage);
    assert Tasks(r) == FrontTasks(r) + BackTasks(r);
  }

  /** Each kind of task occurs at most once, and every earlier task belongs to an earlier stage. */
  lemma {:induction false} TaskKindsOccurOnce(r: Request)
    ensures forall i, j :: 0 <= i < j < |Tasks(r)| ==> Stage(Tasks(r)[i]) < Stage(Tasks(r)[j])
  {
    TasksFollowProtocolOrder(r);
    IncreasingPairwise(Tasks(r), Stage);
  }

  /** Network enabling and the extra headers come first, and only when there are extra headers. */
  lemma TasksStartWithHeaders(r: Request)
    ensures NetworkEnable in Tasks(r) <==> HasExtraHeaders(r)
    ensures SetExtraHTTPHeaders(ExtraHeaders(r.headers, r.userAgent)) in Tasks(r) <==> HasExtraHeaders(r)
    ensures HasExtraHeaders(r) ==> Tasks(r)[0] == NetworkEnable && Tasks(r)[1] == SetExtraHTTPHeaders(ExtraHeaders(r.headers, r.userAgent))
  {
  }

  /** Emulation, fetch interception and navigation to the request's URL are always issued. */
  lemma TasksAlwaysNavigate(r: Request)
    ensures DeviceEmulation(r) in Tasks(r) && FetchEnable in Tasks(r) && Navigate(r.url) in Tasks(r)
  {
  }

  /** The selector wait is issued iff a selector is named, the sleep iff the wait time is positive. */
  lemma TasksWaitIffRequested(r: Request)
    ensures WaitVisible(r.waitFor) in Tasks(r) <==> r.waitFor != ""
    ensures Sleep(r.waitTime) in Tasks(r) <==> r.waitTime > 0
  {
  }

  /** The last task is the one capture the request's mode selects. */
  lemma TasksEndWithCapture(r: Request)
    ensures Tasks(r)[|Tasks(r)| - 1] == Capture(CaptureModeOf(r))
  {
  }

  // ---------------------------------------------------------------------
  // TakeScreenshot
  // ---------------------------------------------------------------------

  /** The browser instance and page context one request gets: window size and deadline. */
  datatype Session = Session(windowWidth: int, windowHeight: int, timeoutSeconds: int)

  /** What running the task list in the browser reports: the captured buffer, or an error. */
  datatype RunOutcome = Captured(image: seq<byte>) | Failed(cause: string)

  const FailurePrefix: string := "screenshot failed: "

  /**
   * Builds the task list for the request, hands it to the browser (an
   * opaque function of the session and the tasks) and returns the captured
   * bytes with their content type, or the wrapped error. The task list is
   * returned as well, as the record of what the browser was asked to do.
   * The request is only read, so it is passed as a value.
   */
  method TakeScreenshot(req: Request, browser: (Session, seq<Task>) -> RunOutcome)
    returns (tasks: seq<Task>, data: seq<byte>, contentType: string, err: Option<string>)
    ensures tasks == Tasks(req)
    ensures var run := browser(Session(req.width, req.height, req.timeout), tasks);
      && (run.Failed? ==> err == Some(FailurePrefix + run.cause) && data == [] && contentType == "")
      && (run.Captured? ==> err == None && data == run.image && contentType == ContentTypeOf(req.format))
  {
    tasks := [];
    if |req.headers| > 0 || req.userAgent != "" {
      var headers := BuildExtraHeaders(req.headers, req.userAgent);
      tasks := tasks + [NetworkEnable, SetExtraHTTPHeaders(headers)];
    }
    assert tasks == HeaderTasks(req);
    var orientation := if req.landscape then LandscapePrimary else PortraitPrimary;
    tasks := tasks + [EmulateDevice(DeviceMetrics(req.width, req.height, req.deviceScale, req.mobile), orientation, 0)];
    tasks := tasks + [FetchEnable];
    tasks := tasks + [Navigate(req.url)];
    assert tasks == HeaderTasks(req) + [DeviceEmulation(req), FetchEnable, Navigate(req.url)];
    if req.waitFor != "" {
      tasks := tasks + [WaitVisible(req.waitFor)];
    }
    if req.waitTime > 0 {
      tasks := tasks + [Sleep(req.waitTime)];
    }
    assert tasks == HeaderTasks(req) + [DeviceEmulation(req), FetchEnable, Navigate(req.url)] + WaitTasks(req) + SleepTasks(req);
    if req.fullPage {
      tasks := tasks + [Capture(FullPageMode(req.format, req.quality))];
    } else if req.clip.Some? {
      tasks := tasks + [Capture(ClipMode(req.clip.value, req.format, req.quality))];
    } else {
      tasks := tasks + [Capture(ViewportMode(req.format, req.quality))];
    }

    match browser(Session(req.width, req.height, req.timeout), tasks)
    case Failed(cause) =>
      data, contentType, err := [], "", Some(FailurePrefix + cause);
    case Captured(image) =>
      data, contentType, err := image, ContentTypeOf(req.format), None;
  }

  // ---------------------------------------------------------------------
  // The asset rewrite rule of the request interception callback
  // ---------------------------------------------------------------------

  const TargetDomain: string := "assets.exmeaning.com"
  const ReplacementHost: string := "exmeaning-image-hosting.zeabur.internal:8080"
  const ReplacementBase: string := "http://" + ReplacementHost
  const HttpsAsset: string := "https://" + TargetDomain
  const HttpAsset: string := "http://" + TargetDomain

  /** The two locals the callback sets: whether to rewrite, and the URL to continue with. */
  datatype Decision = Decision(needsReplacement: bool, newURL: string)

  /** The callback's length-and-slice test is the prefix test on scheme and domain. */
  lemma SchemeAndDomainPrefix(u: string, scheme: string)
    ensures (|u| > |scheme| && u[0..|scheme|] == scheme && |u| >= |scheme| + |TargetDomain|
             && u[|scheme|..|scheme| + |TargetDomain|] == TargetDomain)
            <==> scheme + TargetDomain <= u
  {
    var n := |scheme| + |TargetDomain|;
    if |u| >= n {
      assert u[..n] == u[0..|scheme|] + u[|scheme|..n];
    }
  }

  /**
   * A URL that starts with "https://assets.exmeaning.com" or
   * "http://assets.exmeaning.com" is rewritten to the replacement base
   * followed verbatim by the rest of the URL; any other URL is kept.
   */
  function RewriteDecision(reqURL: string): (d: Decision)
    ensures d.needsReplacement <==> HttpsAsset <= reqURL || HttpAsset <= reqURL
    ensures HttpsAsset <= reqURL ==> d.newURL == ReplacementBase + reqURL[|HttpsAsset|..]
    ensures HttpAsset <= reqURL ==> d.newURL == ReplacementBase + reqURL[|HttpAsset|..]
    ensures !d.needsReplacement ==> d.newURL == reqURL
  {
    var n := |TargetDomain|;
    AssetPrefixesExclusive(reqURL);
    SchemeAndDomainPrefix(reqURL, "https://");
    SchemeAndDomainPrefix(reqURL, "http://");
    if |reqURL| > 8 && reqURL[0..8] == "https://" && |reqURL| >= 8 + n && reqURL[8..8 + n] == TargetDomain then
      Decision(true, ReplacementBase + reqURL[8 + n..])
    else if |reqURL| > 7 && reqURL[0..7] == "http://" && |reqURL| >= 7 + n && reqURL[7..7 + n] == TargetDomain then
      Decision(true, ReplacementBase + reqURL[7 + n..])
    else
      Decision(false, reqURL)
  }

  /** No URL starts with both asset prefixes, so the two rewrite branches exclude each other. */
  lemma AssetPrefixesExclusive(reqURL: string)
    ensures !(HttpsAsset <= reqURL && HttpAsset <= reqURL)
  {
    assert HttpsAsset[4] == 's' && HttpAsset[4] == ':';
  }

  /** Round trip: an asset URL of either scheme continues at the replacement base with its suffix intact. */
  lemma RewriteKeepsSuffix(rest: string)
    ensures RewriteDecision(HttpsAsset + rest) == Decision(true, ReplacementBase + rest)
    ensures RewriteDecision(HttpAsset + rest) == Decision(true, ReplacementBase + rest)
  {
    assert (HttpsAsset + rest)[|HttpsAsset|..] == rest;
    assert (HttpAsset + rest)[|HttpAsset|..] == rest;
  }

  /** A rewritten URL points at the replacement host, which the rule does not match again. */
  lemma RewriteIsFinal(reqURL: string)
    ensures !RewriteDecision(RewriteDecision(reqURL).newURL).needsReplacement
            || !RewriteDecision(reqURL).needsReplacement
  {
    var d := RewriteDecision(reqURL);
    if d.needsReplacement {
      assert d.newURL[..|ReplacementBase|] == ReplacementBase;
      assert d.newURL[4] == ReplacementBase[4] == "http://"[4];
      assert d.newURL[7] == ReplacementBase[7] == ReplacementHost[0];
      assert HttpsAsset[4] == "https://"[4] && HttpAsset[7] == TargetDomain[0];
    }
  }

  /** The continuation sent for an intercepted request: with the new URL iff it was rewritten. */
  datatype Continuation = ContinueRequest(url: Option<string>)

  function ContinuationFor(reqURL: string): (c: Continuation)
    ensures c.url.Some? <==> HttpsAsset <= reqURL || HttpAsset <= reqURL
    ensures c.url.Some? ==> c.url.value == RewriteDecision(reqURL).newURL
  {
    var d := RewriteDecision(reqURL);
    if d.needsReplacement then ContinueRequest(Some(d.newURL)) else ContinueRequest(None)
  }
}
