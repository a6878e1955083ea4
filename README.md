# Screenshot service: request normaliser and capture planner

The service answers an HTTP request for a screenshot of a web page. It
normalises the request (defaults for missing or out-of-range numbers,
lower-cased format, timeout clamped to two minutes) and validates it (format,
width and height, in that order). It then plans a headless-browser session as
an ordered list of actions:

- extra HTTP headers;
- device emulation;
- request interception;
- navigation;
- an optional wait for a selector and an optional sleep;
- one capture in viewport, full-page or clip mode.

Finally it answers with the image and its headers, or with a JSON error.
While the page loads, the session rewrites every request for the public asset
host `assets.exmeaning.com` so that it goes to an internal image host instead.

The Dafny model has four modules:

- `Wrappers` (`wrappers.dfy`): `Option`, which stands for Go's nil pointers and nil errors.
- `Handler` (`handler.dfy`):
  - the request record, as a value (`Request`) and as the object whose fields `SetDefaults` updates in place (`ScreenshotRequest`);
  - `Validate`;
  - `ValidationError`.
- `Screenshot` (`screenshot.go`'s model, `screenshot.dfy`):
  - format mappings;
  - the capture commands of the three capture modes;
  - the task list and the `TakeScreenshot` method that builds it;
  - the asset-URL rewrite rule.
- `Process` (`process.dfy`): `processScreenshot`, which sequences defaults, validation and capture and derives the response headers. It lives in `handler.go`, but it calls `TakeScreenshot`, so it sits in a module above the other two.

The browser is a parameter: a function from the session settings and the
task list to a run outcome (the captured bytes, or an error). The model
therefore states which commands are issued, in what order and with which
arguments, and what the handler does with each outcome.

The rewrite rule compares a literal prefix (`https://` or `http://` followed by
`assets.exmeaning.com`), so a URL whose host merely begins with
`assets.exmeaning.com` (for example `assets.exmeaning.com.example.org`) is
rewritten too. `RewriteDecision` and `RewriteKeepsSuffix` state exactly this
prefix behaviour, for an arbitrary rest of the URL.

## Model

| member | source | states |
|---|---|---|
| Handler.ToLower | handler.go:50 | the result has the input's length, every letter lower-cased pointwise (ASCII), and is lower-case |
| Handler.LowerCaseIsFixed | handler.go:50 | lower-casing an already lower-case string changes nothing |
| Handler.NormalFormat | handler.go:47-50 | the format after defaults is non-empty and lower-case; an empty format becomes "png", any other is lower-cased |
| Handler.PositiveOr | handler.go:41-46 | a width or height of zero or below becomes its default, a positive one is kept; the result is positive |
| Handler.RepairedQuality | handler.go:51-53 | quality outside 1..100 becomes 90, quality inside is kept; the result is in 1..100 |
| Handler.NonNegative | handler.go:54-56 | a negative wait time becomes 0, any other is kept |
| Handler.RepairedScale | handler.go:57-59 | a device scale of zero or below becomes 1.0, a positive one is kept |
| Handler.ClampedTimeout | handler.go:60-65 | the timeout ends in 1..120: zero or below gives 30, above 120 gives 120, anything else is kept |
| Handler.Defaulted | handler.go:40-66 | after defaults every field is in range (width, height > 0, quality in 1..100, wait time >= 0, scale > 0, timeout in 1..120, format non-empty and lower-case), and url, wait selector, full-page flag, headers, user agent, clip, mobile and landscape are untouched |
| Handler.DefaultedRepairsOnlyOutOfRange | handler.go:40-66 | each of the seven repaired fields is replaced by its default exactly when it is out of range, and every other field is untouched |
| Handler.DefaultedFixpoints | handler.go:40-66 | a request is left unchanged by defaults iff it is already in range |
| Handler.DefaultedIdempotent | handler.go:40-66 | applying defaults twice gives the same request as applying them once |
| Handler.ScreenshotRequest.constructor | handler.go:13-31 | the new request object holds exactly the given field values |
| Handler.ScreenshotRequest.SetDefaults | handler.go:40-66 | updates the receiver in place so that its fields become the defaulted request of its old fields |
| Handler.Validate | handler.go:68-80 | no error iff the format is png, jpeg, jpg or webp and 100 <= width <= 4096 and 100 <= height <= 10000; otherwise only the first failing check is reported, in the order format, width, height, with that field's message |
| Handler.ValidationError.Error | handler.go:87-89 | the message is the field, then ": ", then the message text, and nothing else |
| Handler.ErrorRoundTrip | handler.go:87-89 | for a field without a colon, splitting the message at the first ": " gives back the field and the text |
| Handler.AcceptedAfterDefaults | handler.go:130-134 | since defaults run before validation, a request is accepted iff its normalised format is valid and each dimension is absent (<= 0) or within bounds |
| Screenshot.ChromeFormatOf | screenshot.go:175-184 | "jpeg" and "jpg" map to JPEG, "webp" to WEBP, and every other string to PNG |
| Screenshot.ContentTypeOf | screenshot.go:186-195 | the content type is the MIME type of the capture format: image/jpeg, image/webp, else image/png |
| Screenshot.QualityParam | screenshot.go:203-206 | quality is attached iff the capture format is JPEG or WEBP, and it is then the requested quality |
| Screenshot.FullPageMetrics | screenshot.go:221-227 | the full-page override keeps the content width, uses min(content height, 16384) as the height, scale 1 and mobile false |
| Screenshot.ViewportScreenshot | screenshot.go:197-212 | a viewport capture is a single CaptureScreenshot in the mapped format, with quality iff lossy, no clip and nothing beyond the viewport |
| Screenshot.FullPageScreenshot | screenshot.go:214-245 | a full-page capture reads the layout metrics, re-applies the clamped content size, then issues one CaptureScreenshot beyond the viewport, without a clip, in the mapped format with quality iff lossy |
| Screenshot.ClipScreenshot | screenshot.go:247-270 | a clip capture is a single CaptureScreenshot of the request rectangle at scale 1, in the mapped format with quality iff lossy, not beyond the viewport |
| Screenshot.CaptureCommands | screenshot.go:197-270 | in every mode exactly one capture command is issued, and it is the last one. Its format is the mapped format. Quality is attached iff the format is lossy. A clip is given iff the mode is clip, with the request rectangle and scale 1. Capture beyond the viewport is set iff the mode is full page, and the metrics override is issued iff the mode is full page |
| Screenshot.ExtraHeaders | screenshot.go:44-53 | the extra headers hold every supplied key and value, plus "User-Agent" mapped to the user agent when that is non-empty, which overrides a supplied value |
| Screenshot.BuildExtraHeaders | screenshot.go:45-51 | the loop over the supplied headers yields exactly the extra-headers map |
| Screenshot.CaptureModeOf | screenshot.go:159-165 | full page when requested, else clip when a rectangle is given, else viewport; format and quality are the request's |
| Screenshot.Tasks | screenshot.go:42-165 | the task list holds the four tasks every session runs plus two header tasks iff there are extra headers, one wait iff a selector is named and one sleep iff the wait time is positive |
| Screenshot.IncreasingPairwise | screenshot.go:42-165 | a list whose ranks increase from each element to the next has strictly increasing ranks between any two positions |
| Screenshot.IncreasingAppend | screenshot.go:42-165 | appending two ordered task lists keeps them ordered when the boundary is ordered |
| Screenshot.FrontTasksStaged | screenshot.go:44-147 | the tasks up to navigation (optional headers, emulation, fetch interception, navigation) are in protocol order and end with navigation |
| Screenshot.BackTasksStaged | screenshot.go:149-165 | the tasks after navigation (optional wait, optional sleep, capture) are in protocol order and start after navigation |
| Screenshot.TasksFollowProtocolOrder | screenshot.go:42-165 | the whole task list is in the order headers, emulation, fetch interception, navigation, wait for selector, sleep, capture |
| Screenshot.TaskKindsOccurOnce | screenshot.go:42-165 | every earlier task belongs to a strictly earlier protocol stage, so each kind of task occurs at most once |
| Screenshot.TasksStartWithHeaders | screenshot.go:44-53 | network enabling and the extra headers are issued iff there are supplied headers or a user agent, and then they are the first two tasks |
| Screenshot.TasksAlwaysNavigate | screenshot.go:55-147 | device emulation, fetch interception and navigation to the request URL are always issued |
| Screenshot.TasksWaitIffRequested | screenshot.go:149-155 | the selector wait is issued iff a selector is named; the sleep is issued iff the wait time is positive |
| Screenshot.TasksEndWithCapture | screenshot.go:157-165 | the last task is the capture in the mode the request selects |
| Screenshot.DeviceEmulation | screenshot.go:55-70 | emulation uses the request's width, height, scale and mobile flag, landscape orientation iff requested, and angle 0 |
| Screenshot.TakeScreenshot | screenshot.go:15-173 | builds the task list by appends and runs it in a session with the request's window size and timeout. A failed run gives "screenshot failed: " plus the cause and no data. A successful run gives the captured bytes with the content type of the format |
| Screenshot.SchemeAndDomainPrefix | screenshot.go:122-125 | the callback's length-and-slice test holds iff the URL starts with the scheme followed by the asset domain |
| Screenshot.RewriteDecision | screenshot.go:115-128 | a URL is rewritten iff it starts with "https://assets.exmeaning.com" or "http://assets.exmeaning.com"; the new URL is the replacement base followed by the rest of the URL; any other URL is kept unchanged |
| Screenshot.AssetPrefixesExclusive | screenshot.go:122-128 | no URL starts with both asset prefixes, so the two rewrite branches are mutually exclusive |
| Screenshot.RewriteKeepsSuffix | screenshot.go:122-127 | an asset URL of either scheme, with any rest (including a longer host name), is rewritten to the replacement base followed by exactly that rest |
| Screenshot.RewriteIsFinal | screenshot.go:115-128 | a rewritten URL is never rewritten again |
| Screenshot.ContinuationFor | screenshot.go:130-142 | an intercepted request is continued with a new URL iff it was rewritten, and then with the rewritten URL; otherwise it is continued unchanged |
| Process.Filename | handler.go:148-151 | the filename is "screenshot." followed by the format, except that "jpg" gives the extension "jpeg" |
| Process.FilenameMatchesContentType | handler.go:143-150 | for every accepted format the filename is "screenshot." plus an extension, and "image/" plus that extension is the response content type; this is why "jpg" is named "screenshot.jpeg" |
| Process.DecimalString | handler.go:145 | the Content-Length value is a non-empty string of decimal digits with no leading zero |
| Process.DecimalRoundTrip | handler.go:145 | reading the Content-Length value back as a decimal number gives the data length |
| Process.ImageHeaders | handler.go:143-151 | a successful response carries four headers in order: the content type of the format, a Content-Length of decimal digits that reads back as the body length, "public, max-age=86400", and an inline disposition with the filename |
| Process.ProcessScreenshot | handler.go:128-155 | defaults are applied to the request in place. An invalid request gets 400 with the validation message and no browser session is started. Otherwise the session runs the request's task list: a failure gives 500 with the wrapped error; a success gives 200 with the image and the headers Content-Type, Content-Length (decimal length), Cache-Control "public, max-age=86400" and Content-Disposition inline with the filename "screenshot." plus the format, "jpg" spelled "jpeg" |

## Left out

- main.go is not part of this model: it covers server start-up, the port taken from the environment, and signal-driven shutdown, all of which are I/O.
- The gin handlers HandleScreenshotGet and HandleScreenshotPost (handler.go:91-127) are not modelled. They do query and JSON binding and the `json.Unmarshal` of the raw headers and clip parameters, which are library calls. The model starts from a bound request.
- Browser execution is a function parameter of the model, not modelled behaviour. This covers the allocator flags, `chromedp.Run`, `capture.Do`, `GetLayoutMetrics` and the way the capture closures write the image through a buffer pointer. Only the commands issued, their order and their arguments are modelled.
- The goroutine started for each intercepted request and the dispatch of `fetch.ContinueRequest` (screenshot.go:76-145) are concurrency. Only the rewrite decision and the continuation it selects are modelled.
- Context timeouts, deferred cancellation and the wall-clock meaning of the sleep and wait tasks (screenshot.go:33-40) are not modelled. The timeout appears only as a session setting and the sleep only as a task with its duration.
- Logging (handler.go:138) is left out. Go's `%w` error wrapping is modelled as the message prefix only.
- Screenshot.FullPageMetrics: the content size is an integer input, so the float-to-int64 truncation at screenshot.go:221 and a failing `GetLayoutMetrics` are not modelled.
- Handler.ToLower: lower-cases ASCII letters only, while `strings.ToLower` also lower-cases other Unicode letters. Every accepted format is ASCII, so validation results agree for ASCII input.
- Handler.ScreenshotRequest: the fields that nothing in the core writes after binding (url, wait selector, full-page flag, headers, user agent, clip, mobile, landscape) are constants of the class rather than mutable fields.
- Screenshot.TakeScreenshot: takes the request as a value, not as a pointer. It only reads it, so aliasing between the request and the session does not arise.
- Integer widths: Go's `int` and the `int64` conversions are modelled as unbounded integers. Validation bounds the window width and height. It does not bound the wait time, and it does not bound the content size that the full-page capture passes on (its width is not clamped; its height is clamped to 16384).
- Screenshot.SleepTasks: the Sleep task carries the wait time in milliseconds as an unbounded integer. The source multiplies it into an int64 nanosecond `time.Duration` (screenshot.go:154), which wraps for wait times above 9223372036854 ms, giving a negative or wrong sleep. The model does not capture that wrap.
- Handler.RepairedScale: the device scale and the clip rectangle are float64 in the source and `real` in the model. NaN and the infinities are not modelled. For NaN, `DeviceScale <= 0` is false (handler.go:57), so the source keeps NaN where the model's `Defaulted` promises a positive scale.
