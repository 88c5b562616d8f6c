# Guest verification core of the Double H wedding site, in Dafny

This project models the logic of the wedding-invitation front end that goes beyond
markup. It covers six pieces:

- **API gateway client** (`api.dfy`, module `Api`). `fetchWithRetry` tries the bases
  primary, fallback, primary in that order and stops at the first ok response.
  `apiRequest` parses the JSON body. The endpoint wrappers build the calls for
  generating codes, listing codes, stats and attendees, looking up a code,
  registering a name, scanning, and the health check.
- **Code resolver** (`qr_payload.dfy`, module `QrPayload`). `extractCodeFromUrl` and
  `extractCodeFromQRData` use the `code` URL parameter or an RFC 4122 UUID.
- **Entry scanner** (`scanner.dfy`, module `Scanner`). This is the scan handler with its
  in-progress guard and duplicate marker, the outcome of each `scanQR` call, the
  five-second auto-clear, the clear button, and the ten-entry history.
- **Guest registration** (`registration.dfy`, module `Registration`). It covers the
  code lookup on page load, the form, and the one-time submission of the trimmed name.
- **Admin dashboard** (`admin.dfy`, module `Admin`). It covers the 1..1000 bound on
  code generation, the code filters, the counts beside the filter options, and the
  status badges of codes and attendees.
- **RSVP form** (`rsvp_form.dfy`, module `Rsvp`) and **hero slideshow**
  (`hero_section.dfy`, module `Hero`).

`js_text.dfy` defines JavaScript white space, `trim()` and the truthiness of a value
that is null, undefined or a string. `wrappers.dfy` defines `Option` and `Result`.

The outside world is passed in as parameters:

- The outcome of each `fetch` is an `Api.Attempt`: a response with a status and a
  parsed body, or a rejection.
- The URL parser's verdict is a `QrPayload.UrlParse`.
- Backend replies to the flows are `Result` values.
- The clock is an integer `now`.
- Timers are explicit events: `AutoClearFired`, `ReenableFired` and `IntervalTick`.
  A scheduled redirect is a flag.

Handlers that `await` are split in two: a `Begin…`/`Handle…` method runs up to the
call, and a `…Settled` method applies the reply. This makes the in-flight window
visible. Event methods have preconditions only where the page itself rules an event
out:

- The registration form's submit event exists only while the form is shown (status
  `form`). Its button and input are disabled while submitting (app/routes/init.tsx:162-189).
- The RSVP submit button is disabled while submitting. The form is replaced by the
  thank-you view once submitted (app/components/RSVPForm.tsx:102, 308).
- The generate button is disabled while generating (app/routes/admin.tsx:321). The
  count bound itself is still checked by the handler, as in the code.
- A settle or timer event needs a pending call or timer.

Behaviour the model keeps from the code:

- The scanner tests its in-progress flag before it resolves the payload.
- An unresolvable payload replaces the whole scan state. This also clears the
  duplicate marker.
- Every successful `/api/scan` reply enters the history, including one whose
  status is `"invalid"`.
- A URL's `code` parameter is used only when it is non-empty.
- `apiRequest` can never raise `ApiError`, because `fetchWithRetry` returns only ok
  responses. So every flow that tests `instanceof ApiError` shows its generic text
  ("Failed to verify QR code", and so on), never a server message. `ApiRequest` and
  `Scanner.VerifyThroughGateway` prove this.

## Model

| member | source | states |
|---|---|---|
| `Api.PrimaryUrl` | app/utils/api.ts:3 | the primary base is never empty; a non-empty build-time override wins, and an absent or empty one gives the built-in URL |
| `Api.Candidates` | app/utils/api.ts:7 | the bases tried, in order: primary, fallback, primary |
| `Api.Lookup` | app/utils/api.ts:92 | a property is found exactly when some binding has its key, and the value is that of the last such binding, as `JSON.parse` keeps it |
| `Api.HeadersFor` | app/utils/api.ts:13-19 | the JSON content type merged with the caller's headers, then replaced wholesale by the caller's `headers` property; `Api.ContentTypeOnlyByDefault` states the outcome |
| `Api.RequestFor` | app/utils/api.ts:11-19 | each attempt's URL is base + endpoint; method and body are the caller's; headers are the JSON default unless the caller passes `headers`, which then replace them wholesale |
| `Api.ContentTypeOnlyByDefault` | app/utils/api.ts:13-19 | the request carries `Content-Type: application/json` exactly when the caller passes no headers or passes that header itself |
| `Api.AttemptError` | app/utils/api.ts:27-29 | a failed attempt records the rejection as a TypeError, and a non-ok status as a plain `Error` with the message `Failed at <base> with status <status>` |
| `Api.NatToString` | app/utils/api.ts:27 | the status is printed as decimal digits, with a leading zero only for the single digit `0` |
| `Api.NatToStringRoundTrip` | app/utils/api.ts:27 | the printed status reads back as the status itself |
| `Api.FirstAccepted` | app/utils/api.ts:22-24 | the index of the first attempt that is an ok response, with no ok attempt before it; none when no attempt is ok |
| `Api.FetchWithRetry` | app/utils/api.ts:6-34 | 1 to 3 requests are sent, to primary, fallback, primary in order, and none after the first ok response; the result is that response, which is ok; with no ok response all three are sent and the last attempt's error is thrown |
| `Api.ErrorMessage` | app/utils/api.ts:92 | `data.error \|\| 'API request failed'`: reading `error` throws exactly for a JSON `null` body; a non-empty string `error` property (the last binding) is the message; otherwise the message is "API request failed", so it is never empty (a non-string `error` is the case in Left out) |
| `Api.ErrorText` | app/routes/scanner.tsx:124 | `error instanceof ApiError ? error.message : generic`, shared by the scanner (scanner.tsx:124), registration (init.tsx:77, 113) and admin (admin.tsx:106) flows |
| `Api.Interpret` | app/utils/api.ts:89-95 | a body that is not JSON fails; an `ApiError` arises exactly for a non-ok status with a non-null JSON body, carrying that status and the `ErrorMessage` of the body; otherwise the parsed body is returned |
| `Api.ApiRequest` | app/utils/api.ts:84-96 | never fails with `ApiError` (the `!response.ok` branch is dead); succeeds exactly when some attempt is ok and its body parses, returning that body; if none is ok it fails with the last attempt's error |
| `Api.GenerateQRCodes` | app/utils/api.ts:100-107 | a POST of `{count}` to `/api/generate` |
| `Api.GetAllCodes` | app/utils/api.ts:109-111 | a GET of `/api/codes` with no options |
| `Api.GetCodeInfo` | app/utils/api.ts:113-115 | a GET of `/api/code/` followed by the identifier |
| `Api.GetStats` | app/utils/api.ts:117-119 | a GET of `/api/stats` with no options |
| `Api.GetAttendees` | app/utils/api.ts:121-123 | a GET of `/api/attendees` with no options |
| `Api.InitializeQR` | app/utils/api.ts:127-135 | a POST of `{code_id, name}` to `/api/init` |
| `Api.ScanQR` | app/utils/api.ts:139-144 | a POST of `{code_id}` to `/api/scan` |
| `Api.HealthCheck` | app/utils/api.ts:148-150 | a GET of `/health` with no options |
| `Api.WrappersSendJson` | app/utils/api.ts:100-150 | every endpoint wrapper sends the JSON content type; `scanQR` POSTs `{code_id}` to `/api/scan`, `initializeQR` POSTs `{code_id, name}` to `/api/init`, `generateQRCodes` POSTs `{count}` to `/api/generate` |
| `Api.CodeInfoCarriesId` | app/utils/api.ts:113-115 | `getCodeInfo` is a GET whose URL string is base + `/api/code/` + the identifier as given, not percent-encoded |
| `QrPayload.ExtractCodeFromUrl` | app/utils/api.ts:154-161 | null when the text is not a URL or has no `code` parameter, else that parameter |
| `QrPayload.IsUuid` | app/utils/api.ts:167-168 | the UUID pattern read group by group: 8-4-4-4-12 hex digits, version digit 1-5, variant digit 8/9/a/b, either case |
| `QrPayload.UuidByOffsets` | app/utils/api.ts:167-168 | the UUID test accepts exactly 36 characters with hyphens at 8/13/18/23, offset 14 in 1-5, offset 19 in 8/9/a/b and hex digits elsewhere |
| `QrPayload.UuidIgnoresCase` | app/utils/api.ts:167 | the `i` flag: a string passes the UUID test exactly when its lower-cased form does |
| `QrPayload.ExtractCodeFromQRData` | app/utils/api.ts:163-171 | the result is never empty; a non-empty URL `code` parameter wins; otherwise the text itself is returned exactly when it is a UUID, else null |
| `QrPayload.ResolvedCodeOrigin` | app/utils/api.ts:163-171 | a resolved identifier is the URL parameter or the scanned text itself, which is then a UUID |
| `JsText.Trim` | app/routes/init.tsx:87 | `trim()` over the ECMAScript white-space and line-terminator set; its meaning is stated by the lemmas below |
| `JsText.TrimShape` | app/routes/init.tsx:87 | `trim()` returns a contiguous piece of the input with no white space at either end; all that is cut off is white space |
| `JsText.TrimEmptyIffAllSpace` | app/routes/init.tsx:87-88 | a string trims to empty exactly when it is all white space |
| `JsText.TrimIdempotent` | app/routes/init.tsx:87 | trimming a trimmed name changes nothing |
| `JsText.TrimKeepsTidy` | app/components/RSVPForm.tsx:41 | a non-empty string with no white space at either end trims to itself |
| `Scanner.Remember` | app/routes/scanner.tsx:103-110 | the new history holds the new entry first, then the old entries in order, and has length min(old + 1, 10) |
| `Scanner.RememberAllKeepsNewest` | app/routes/scanner.tsx:103-110 | after any run of successful scans the history is the newest ten entries, newest first, with older history filling any room left |
| `Scanner.FifteenScansKeepLastTen` | app/routes/scanner.tsx:103-110 | fifteen successful scans from an empty history leave exactly the last ten, newest first |
| `Scanner.VerifyThroughGateway` | app/routes/scanner.tsx:121-127 | a failed `scanQR` through the gateway of a build with a given `VITE_API_URL` always shows "Failed to verify QR code"; the first request goes to that build's primary base + `/api/scan`, and each later one to the next base in order |
| `Scanner.ScannerPage.constructor` | app/routes/scanner.tsx:31-39 | the page starts idle with no result, no marker, no error and an empty history |
| `Scanner.ScannerPage.HandleScan` | app/routes/scanner.tsx:73-93 | while scanning nothing changes and no call is made; an unresolvable payload sets exactly the "Invalid QR code format" state with no call; a code equal to the marker changes nothing; otherwise one `scanQR(code)` is issued with the state `{isScanning: true}`; the page invariant is kept |
| `Scanner.ScannerPage.ScanSettled` | app/routes/scanner.tsx:93-127 | on success the reply, of either status, is displayed, its code becomes the marker, the entry is remembered and a clear timer is scheduled; on failure the error is shown, the code becomes the marker and the history is unchanged; `isScanning` ends false |
| `Scanner.ScannerPage.AutoClearFired` | app/routes/scanner.tsx:113-119 | only the displayed result and the marker are removed; `isScanning`, error and history are kept |
| `Scanner.ScannerPage.ClearResults` | app/routes/scanner.tsx:148-151 | the state returns to `{isScanning: false}` and the history empties |
| `Scanner.ScanSameCodeTwice` | app/routes/scanner.tsx:85-100 | the same payload decoded twice around a successful verification produces exactly one `scanQR` call |
| `Scanner.FramesDuringVerificationDropped` | app/routes/scanner.tsx:74 | however many frames arrive while a verification is awaited, only one call is made |
| `Registration.HasCode` | app/routes/init.tsx:44 | a `code` parameter counts only when present and non-empty |
| `Registration.InitPage.constructor` | app/routes/init.tsx:34-41 | the page starts loading, with an empty name and nothing submitting |
| `Registration.InitPage.LoadCode` | app/routes/init.tsx:43-80 | with no code the page shows "Invalid QR code. No code parameter found." and makes no lookup; otherwise it looks up the code: a truthy name gives already_initialized with the QR number and a scheduled redirect, a falsy name gives the form with the QR number, a failure gives the error state |
| `Registration.InitPage.EditName` | app/routes/init.tsx:120-122 | only the typed name changes |
| `Registration.InitPage.BeginSubmit` | app/routes/init.tsx:82-96 | no code: nothing happens; a blank name after trimming gives "Please enter your name" with no call; otherwise `initializeQR(code, trimmed name)` is issued and `isSubmitting` is set |
| `Registration.InitPage.SubmitSettled` | app/routes/init.tsx:98-117 | success gives the success state with the QR number read at submit time and a scheduled redirect; failure gives the error state; `isSubmitting` is false afterwards either way |
| `Registration.RegisterUnclaimedCode` | app/routes/init.tsx:85-99 | for an unregistered code, a submission makes a call exactly when the typed name is not all white space, and the call carries the trimmed name |
| `Registration.VisitRegisteredCode` | app/routes/init.tsx:52-65 | a code that already has a name is reported as already initialized after one lookup and never reaches the form |
| `Admin.Keeps` | app/routes/admin.tsx:114-121 | each filter's test: name not null, name null, `scan_count > 0`, or anything for 'all' |
| `Admin.FilteredCodes` | app/routes/admin.tsx:114-121 | `filter` over the code list with that test |
| `Admin.SelectMultiplicity` | app/routes/admin.tsx:114 | `filter` keeps every occurrence of a passing element and none of a failing one |
| `Admin.FilterIsOrderedSelection` | app/routes/admin.tsx:114-121 | every filter keeps exactly the codes that pass its test, in list order (a subsequence), each as often as the list holds it; 'all' keeps the list unchanged |
| `Admin.InitializedPartition` | app/routes/admin.tsx:116-117 | 'initialized' and 'uninitialized' are disjoint and together hold every code exactly as often as the list does |
| `Admin.InitializedOptionCount` | app/routes/admin.tsx:549 | the count of codes with a truthy name |
| `Admin.PendingOptionCount` | app/routes/admin.tsx:550 | the count of codes with a falsy name |
| `Admin.OptionCountsCoverList` | app/routes/admin.tsx:549-550 | the Initialized and Pending option counts add up to the number of codes |
| `Admin.OptionCountMatchesFilterIff` | app/routes/admin.tsx:549-550 | the Initialized count never exceeds the 'initialized' list length, and equals it exactly when no code has an undefined or empty name |
| `Admin.StatusOfCode` | app/routes/admin.tsx:623-639 | the code badge, tested in the order falsy name, `scan_count >= max_scans`, `scan_count > 0`, else Ready |
| `Admin.StatusOfAttendee` | app/routes/admin.tsx:473-485 | the attendee badge, tested in the order `scan_count >= max_scans`, `scan_count > 0`, else Registered Only |
| `Admin.CodeStatusFollowsScans` | app/routes/admin.tsx:623-639 | Pending exactly for falsy names; Ready and Partially Used bound `scan_count` below `max_scans`; one more scan never moves a badge backwards or in or out of Pending |
| `Admin.CodeAndAttendeeAgree` | app/routes/admin.tsx:473-485 | for a registered code the attendee badge matches the code badge: Fully with Fully, Partially with Partially, Ready with Registered Only |
| `Admin.AdminPanel.constructor` | app/routes/admin.tsx:48-59 | the panel starts on filter 'all' with a count of 50, not generating and without error |
| `Admin.AdminPanel.SetFilter` | app/routes/admin.tsx:545 | only the filter changes, and the table then lists that filter's codes |
| `Admin.AdminPanel.SetGenerateCount` | app/routes/admin.tsx:312 | `parseInt(value) \|\| 0`: NaN becomes 0 |
| `Admin.AdminPanel.BeginGenerate` | app/routes/admin.tsx:91-97 | a count outside 1..1000 makes no request and changes nothing; otherwise `generateQRCodes(count)` is requested with generating on and the error cleared |
| `Admin.AdminPanel.GenerateSettled` | app/routes/admin.tsx:98-111 | success asks for a reload; failure shows the generic error; generating ends false |
| `Admin.TryGenerate` | app/routes/admin.tsx:92-95 | a typed count leads to a request exactly when it is a number in 1..1000 |
| `Rsvp.FormData.With` | app/components/RSVPForm.tsx:88-91 | the named field takes the value and every other field is kept |
| `Rsvp.EmailPattern` | app/components/RSVPForm.tsx:43 | `/^[^\s@]+@[^\s@]+\.[^\s@]+$/` read as three runs of non-space, non-`@` characters around an `@` and a `.` |
| `Rsvp.ValidationErrors` | app/components/RSVPForm.tsx:34-53 | the error map built field by field with the source's messages |
| `Rsvp.EmailPatternMeans` | app/components/RSVPForm.tsx:43 | the e-mail pattern accepts exactly the strings with no white space, exactly one `@` that is not first, and after it a `.` with a character on each side |
| `Rsvp.EmailPatternIsTrimmed` | app/components/RSVPForm.tsx:41-45 | an accepted address is non-empty and trims to itself, so leading or trailing space is rejected |
| `Rsvp.ValidationErrorsMeaning` | app/components/RSVPForm.tsx:34-53 | no errors exactly when the name is not blank, the e-mail is not blank and matches, and attendance is chosen; only name, email and attending can fail; a blank e-mail reports "Email is required", never the format message |
| `Rsvp.RsvpForm.constructor` | app/components/RSVPForm.tsx:20-32 | the form starts with the initial contents and no errors |
| `Rsvp.RsvpForm.ValidateForm` | app/components/RSVPForm.tsx:34-53 | the error map is rebuilt from the current contents, and the result is true exactly for an acceptable form |
| `Rsvp.RsvpForm.BeginSubmit` | app/components/RSVPForm.tsx:55-62 | an unacceptable form only shows its errors and does not set `isSubmitting`; an acceptable one starts submitting |
| `Rsvp.RsvpForm.SubmitSettled` | app/components/RSVPForm.tsx:64-83 | the form is reset to its initial contents (one guest, all else empty) and marked submitted |
| `Rsvp.RsvpForm.HandleInputChange` | app/components/RSVPForm.tsx:86-99 | only the named field changes, and its error is blanked only if it was set and non-empty |
| `Rsvp.FillAndSubmit` | app/components/RSVPForm.tsx:55-78 | a filled-in form goes through exactly when the name is not blank, the e-mail matches and attendance is chosen, and then comes back in its initial state |
| `Hero.Next` | app/components/HeroSection.tsx:28 | one step forward, always an image index |
| `Hero.Prev` | app/components/HeroSection.tsx:80 | one step back with 0 wrapping to 5, an image index for any image index |
| `Hero.NextPrevInverse` | app/components/HeroSection.tsx:78-80 | forward and back stay in range and undo each other |
| `Hero.AdvanceIsModular` | app/components/HeroSection.tsx:27-29 | k auto-advance ticks move from i to (i + k) mod 6 |
| `Hero.FullCycle` | app/components/HeroSection.tsx:28 | six ticks return to the same image and no fewer do |
| `Hero.SwipeTarget` | app/components/HeroSection.tsx:73-82 | a swipe keeps the index in range; more than 30 leftwards moves forward, more than 30 rightwards moves back (0 wraps to 5), otherwise no move |
| `Hero.SwipeThereAndBack` | app/components/HeroSection.tsx:73-82 | a swipe followed by the opposite swipe returns to the first image |
| `Hero.Carousel.constructor` | app/components/HeroSection.tsx:17-21 | the slideshow starts on image 0 with auto-slide on and no touch recorded |
| `Hero.Carousel.FinishLoading` | app/components/HeroSection.tsx:46-47 | the images count as loaded |
| `Hero.Carousel.IntervalTick` | app/components/HeroSection.tsx:24-32 | the index advances by one mod 6 only while auto-slide is on and the images are loaded |
| `Hero.Carousel.TouchStart` | app/components/HeroSection.tsx:54-59 | start and end are both set to the touch position and auto-slide stops |
| `Hero.Carousel.TouchMove` | app/components/HeroSection.tsx:61-65 | the end position follows the finger unless no start is recorded |
| `Hero.Carousel.TouchEnd` | app/components/HeroSection.tsx:67-87 | without both positions only a re-enable is scheduled; otherwise the swipe is applied, both positions reset to 0 and a re-enable is scheduled |
| `Hero.Carousel.DotClick` | app/components/HeroSection.tsx:131-135 | the dot's image is shown and auto-slide pauses until a scheduled re-enable |
| `Hero.Carousel.ReenableFired` | app/components/HeroSection.tsx:86 | auto-slide turns back on and nothing else changes |
| `Hero.Swipe` | app/components/HeroSection.tsx:54-87 | a whole gesture keeps the index in range, moves it by at most one, and moves it forward exactly when the finger travels more than 30 leftwards |

## Left out

- `fetch`, `response.json()` and the URL parser are oracles. `JSON.stringify` is not
  modelled: request bodies stay JSON values.
- Header names are map keys compared as written. Neither the `Headers` class nor
  case-insensitive header names are modelled.
- Api.ErrorMessage: a truthy `error` property that is not a string is passed to
  `new ApiError` and stringified. `{"error": []}` thus gives the empty message, and
  `{"error": 5}` gives "5". The model uses the generic "API request failed" for every
  non-string value, so its "never empty" promise does not cover that case.
- Api.Interpret: it inherits that gap through `ErrorMessage`. The branch is dead
  anyway, because `fetchWithRetry` returns only ok responses.
- The responses of `getAllCodes`, `getStats`, `getAttendees` and `healthCheck`, and
  the admin `loadData` fan-out that uses them, are concurrency and display. Only the
  calls are modelled. The admin panel receives its code list when it is built, and a
  successful generation reports that a reload is due.
- Camera start and stop and the scanner's camera error are device I/O, so the model
  has no camera state.
- Redirects after three seconds are only recorded as scheduled. Navigation is not
  modelled.
- `alert` calls, locale date and time formatting, and progress-bar percentages are
  left out.
- Hero.Carousel.ReenableFired: the 3 s and 8 s re-enable delays are not told apart.
  Touch positions are integers, so a fractional or NaN `clientX` is not modelled.
- Image preloading is a single `FinishLoading` event.
- The RSVP submission's two-second simulated delay is the `SubmitSettled` event. Its
  `catch` branch cannot run, because the delay never rejects.
- Api.GenerateQRCodes: the default argument `count = 200` (app/utils/api.ts:101) is not modelled, because the count is always passed. The only caller passes `generateCount` (app/routes/admin.tsx:94).
- JavaScript numbers (`qr_number`, `scan_count`, `max_scans`, the generation count)
  are unbounded integers. Neither doubles nor their precision limits are modelled.
- React re-rendering and stale closures are not modelled. Handlers read the current
  state. The live scanner page, however, registers the first render's `handleScan`
  once (app/routes/scanner.tsx:47-49, with an empty dependency list). So the
  callback always sees `isScanning` false and no last code. In the running page the
  in-progress guard and the duplicate marker therefore never fire, and every decoded
  frame sends a `scanQR`. `Scanner.FramesDuringVerificationDropped` and
  `Scanner.ScanSameCodeTwice` hold for the handler as written, not for the page as
  it runs.
- GetCodeInfo: the identifier is put into the path without percent-encoding, and
  URLs are kept as strings. An identifier containing `/`, `?`, `#`, `%` or dot
  segments changes the request once `fetch` parses the URL (`../stats` reaches
  `/api/stats`). `Api.CodeInfoCarriesId` speaks of the URL string only.
