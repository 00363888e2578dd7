# gamebot bookkeeping, modelled in Dafny

gamebot is a Go library for writing bots. A bot finds one application window by its process
name and tracks that window's position and size. It captures the window and looks for a
template image in the capture. It also presses and releases keyboard keys and mouse buttons.
Nearly all of the heavy work is done by robotgo (OS input, screen capture, window
enumeration) and gocv (template matching). This model covers the bookkeeping the library
does itself:

- the set of pressed identifiers. Keyboard keys are stored under their own names. Mouse
  buttons are stored under `"mouse"` followed by the button name. The model also records
  the device commands each input operation sends.
- resolving the window from the enumeration result: an error, zero ids, several ids, or
  exactly one id.
- geometry-drift detection (`Changed`) and `Bot.UpdateWindow`.
- bot construction defaults, the process-name accessor, and the match-mode setter and
  getter.
- `RandomInt`'s range arithmetic, written in 64-bit Go `int`.
- the capture region, and the debug loop `ShowDetectedImage`. The loop's collaborator
  answers (conversion outcomes, the matcher's report, the polled key) are supplied as a
  sequence of frames.

Every foreign call is an input. A `Desktop` holds what window enumeration reports at one
moment: `FindIds`, `GetTitle`, `GetBounds` and `GetHWND`. A `Frame` holds what gocv and the
display answer during one loop iteration. The Go methods on `*Bot` mutate the bot in place;
here they are pure functions from one immutable `Bot` record to the next.

Modules: `Errors` (errors.dfy), `Windows` (windows.dfy), `Bots` (bots.dfy), `Random`
(random.dfy), `Input` (input.dfy, covering key.go and mouse.go) and `Detection`
(detection.dfy, covering image_processing.go).

Facts about the code that the model keeps as written:

- The debug loop captures the stored window and never refreshes it
  (image_processing.go:96). Every capture uses the window stored in the bot
  (`Detection.RunCaptures`).
- `CaptureWindow` returns no error (image_processing.go:27-35), so only conversion errors
  end the loop.
- The doc comment above `getWindow` names the wrong error for "multiple pids". The code
  returns `WindowPidNotFoundError` for zero ids and `WindowPidGreaterThenOneError` for more
  than one id (window.go:96 and 108-114).
- `MouseButton` is a string type (mouse.go:9), so any string is a button; the model uses
  `string` too. The declared constants are written with `Right` as `"center"` and `Center`
  as `"right"`, so pressing `Right` records `"mousecenter"` in the pressed set.
- `DetectImage` closes the match surface `result` (image_processing.go:62) and only then
  passes it to `MinMaxLoc` (image_processing.go:64). The model takes the matcher's report
  as given on that path.
- `screenCaptureDelayMs` is stored (300) but never used; its only use is commented out.
- The debug loop converts the captured image twice, once inside `DetectImage`
  (image_processing.go:46) and once for display (image_processing.go:103). Both are
  `ImageToMatRGB` on the same image, so a display conversion that fails after detection
  succeeded is probably unreachable. A `Frame` still lets the two outcomes differ, so the
  model covers that error path (image_processing.go:104-105) as well.

## Model

| member | source | states |
|---|---|---|
| Errors.Is | window.go:19-22 | `Is` holds exactly when the target has the receiver's error type; the application name is ignored |
| Errors.IsMatchesByTypeOnly | window.go:40-43 | any two errors of the same window-error type match, whatever application they name; the two types never match each other or a wrapped error |
| Errors.Message | image_processing.go:48 | the wrapped conversion error's text is the fixed "failed to convert img to gocv.Mat: " prefix followed by exactly the cause's text |
| Errors.MessageNamesApplication | window.go:15-17 | a window error's message is its type's fixed prefix followed by exactly the application name, so the name can be read back |
| Errors.WindowMessagesDiffer | window.go:36-38 | the not-found and more-than-one messages never coincide, whatever the applications |
| Windows.Resolve | window.go:101-135 | an enumeration error is returned unchanged; zero ids gives PidNotFound(procName); more than one gives PidGreaterThanOne(procName); it succeeds iff exactly one id is found, and the window then has that id as pid, its title and bounds, the foreground handle, and procName |
| Windows.Changed | window.go:149-164 | a resolution failure yields (false, err); otherwise there is no error, and `changed` holds iff x, y, w or h differs from the re-resolved window |
| Windows.ResolvedIsUnchanged | gamebot_internal_test.go:31-35 | a freshly resolved window reports (false, nil) against the same desktop |
| Windows.ChangedIgnoresIdentity | window.go:155-161 | title, pid and handle play no part: windows with the same process and geometry get the same answer |
| Windows.ChangedSeesEachField | gamebot_internal_test.go:46-54 | changing any one of x, y, w or h alone makes `Changed` report (true, nil) |
| Bots.NewBot | gamebot.go:38-58 | fails iff resolution fails, with the same error; otherwise the bot holds the name and the resolved window, delay 300, mode TmCcoeffNormed and an empty pressed set, and its window belongs to its process |
| Bots.ProcessName | gamebot.go:61-66 | the configured name, which is also the process the bot's window belongs to |
| Bots.ProcessNameIsConstructorArgument | gamebot.go:61-66 | ProcessName of a new bot is the name it was built with |
| Bots.NewBotWindowDescribesFoundId | gamebot_public_test.go:11-34 | Bot.Window of a new bot carries the found id as pid, with that id's title, position and size |
| Bots.NewBotWindowIsCurrent | gamebot.go:38-48 | a new bot's window shows no drift against the desktop it was resolved from |
| Bots.UpdateWindow | window.go:175-194 | errors from `Changed` or from re-resolution are returned and leave the bot as it was; with no change the bot is unchanged and no error is returned; on a change the whole window record is replaced by the re-resolved one; no other field changes; the window-belongs-to-process invariant is kept |
| Bots.UpdateWindowIdempotent | gamebot_internal_test.go:72-92 | after a successful update against a desktop that stays put, a second update changes nothing and returns no error |
| Random.RandomInt | gamebot.go:79-81 | panics iff the 64-bit `max-min+1` is not positive; any value drawn fits 64 bits; when `min <= max` and the span does not overflow, the value lies in `[min, max]` |
| Random.RandomIntFullRangePanics | gamebot.go:80 | `RandomInt(0, MaxInt64)` passes MinInt64 to `rand.Intn` and panics |
| Random.RandomIntOverflowPanics | gamebot.go:79-81 | for every non-empty 64-bit range, the code as written panics exactly when `max-min+1` exceeds MaxInt64, because the span then wraps to `max-min+1-2^64` |
| Random.RandomIntReversedRangeDraws | gamebot.go:80 | `RandomInt(MaxInt64, MinInt64)` wraps the span to 2 and can return MinInt64 instead of panicking |
| Random.RandomIntInRange | gamebot.go:78-81 | with the span computed exactly, a value is drawn iff `min <= max`, and it lies in `[min, max]` and fits 64 bits |
| Random.RandomIntAgreesWithoutOverflow | gamebot.go:79-81 | wherever `max-min+1` fits 64 bits, the code as written and the corrected version give the same result |
| Input.IsKeyDown | key.go:35-41 | the membership query on the pressed set; it is false while nothing is pressed and true for the only identifier pressed |
| Input.PressKey | key.go:14-20 | afterwards the key is down; no other key changes state; no other bot field changes; one key-down toggle is sent |
| Input.ReleaseKey | key.go:24-30 | afterwards the key is not down; no other key changes state; no other bot field changes; one toggle with "up" is sent, even if the key was not down |
| Input.PressReleaseIdempotent | key.go:19-29 | the pressed set counts presence, not repetitions: pressing a pressed key, or releasing a key that is up, leaves the bot as it was |
| Input.PressThenReleaseRestores | key.go:14-30 | releasing a key that was pressed from the up state restores the bot exactly |
| Input.KeyTap | key.go:46-50 | the pressed set is untouched; the commands sent are the press's, a 300 ms pause, then the release's |
| Input.KeysDown | key.go:54-64 | returns every pressed identifier exactly once and nothing else, in no stated order; the result is empty when nothing is down |
| Input.MouseEntry | mouse.go:77 | a button's entry carries the "mouse" prefix, and the button name can be read back after it |
| Input.MouseEntriesSeparate | mouse.go:77 | for any button strings: distinct buttons get distinct entries; an entry never equals the bare button name; a key is a button's entry exactly when it starts with "mouse" |
| Input.ButtonNamesDistinct | mouse.go:11-19 | the seven declared button constants are pairwise different strings |
| Input.RightAndCenterSwapped | mouse.go:12-14 | the entries are "mousecenter" for `Right`, "mouseright" for `Center` and "mouseleft" for `Left` |
| Input.MousePress | mouse.go:71-79 | for any button string: afterwards exactly the entry "mouse"+name is added; nothing else changes; the button's toggle is sent with no direction argument |
| Input.MouseReleaseAsWritten | mouse.go:82-90 | the code as written, for any button string: the entry "mouse"+name is removed and nothing else changes in the set |
| Input.MouseReleaseAsWrittenRepeatsPress | mouse.go:86 | the release as written sends exactly the command the press sends |
| Input.MouseRelease | mouse.go:82-90 | the corrected release, for any button string: the entry is removed, nothing else changes, and the toggle is sent with "up" |
| Input.MouseReleaseMirrorsKeyRelease | key.go:28 | the corrected release differs from the press only in passing the same "up" argument ReleaseKey passes; its effect on the set is the one written |
| Input.KeyboardAndMouseIndependent | gamebot.go:50-53 | for keys without the "mouse" prefix, mouse operations never change whether the key is down, and key operations never change whether a button is down |
| Input.PrefixedKeyAliasesButton | key.go:32-35 | for every bot and button, pressing or releasing the keyboard key spelled like the button's entry has exactly the mouse press's or release's effect on the bot; every "mouse"-prefixed key occupies some button's entry |
| Detection.CaptureRegion | image_processing.go:27-35 | the capture request is the stored window's x, y, w and h |
| Detection.CaptureTracksGeometry | image_processing.go:28-30 | two windows request the same capture iff drift detection sees them as equal |
| Detection.UnchangedWindowCapturesCurrentRegion | window.go:149-164 | when `Changed` reports (false, nil), the stored window captures the same region as the window now resolved |
| Detection.CVMatchMode | image_processing.go:70-75 | reports the mode the bot is configured with |
| Detection.SetCVMatchMode | image_processing.go:79-84 | afterwards CVMatchMode reports the new mode; name, window, delay and pressed set are unchanged |
| Detection.MatchModeRoundTrip | image_processing.go:70-84 | get after set returns what was set; setting the current mode changes nothing; a second set overrides the first |
| Detection.NewBotMatchMode | gamebot.go:16 | a new bot reports TmCcoeffNormed until the mode is set |
| Detection.DetectImage | image_processing.go:45-66 | succeeds iff both conversions succeed, and then returns the matcher's report (assumed readable although `result` is closed before `MinMaxLoc`); otherwise the first failed conversion's error comes back wrapped |
| Detection.Rect | image_processing.go:108 | the rectangle built from two corners is well formed and spans the absolute differences; corners given in order are kept |
| Detection.Overlay | image_processing.go:93-108 | the drawn rectangle is well formed and has the template's size; for a well-formed template it starts at the best-match location |
| Detection.Iteration | image_processing.go:95-114 | one pass captures the window; a detection error stops it with that error and nothing printed; otherwise the report is printed; a display-conversion error stops it; otherwise the overlay is drawn, and the pass quits iff the key is 113 and goes round again otherwise |
| Detection.Run | image_processing.go:95-115 | the reference loop over a finite sequence of frames: each pass runs and the loop goes on only while a pass continues; it prints no more reports than it captures and draws no more rectangles than it prints, and it captures at least once when any frame is supplied |
| Detection.Continuing | image_processing.go:110-112 | the count of passes that go round again: every earlier frame continues, and the frame at that index stops |
| Detection.RunStatus | image_processing.go:95-115 | the loop ends with the status of the first pass that stops, or keeps running if the frames run out |
| Detection.QuitExactlyOnKey113 | image_processing.go:110-115 | the loop returns nil exactly when the stopping pass shows its frame and polls key 113; no earlier pass polled 113 |
| Detection.RunCaptures | image_processing.go:96 | one capture per pass, up to and including the stopping one, each of the stored window's region |
| Detection.RunOverlays | image_processing.go:108 | the i-th rectangle drawn is anchored at the i-th frame's best-match location for the bot's mode and sized to the template |
| Detection.RunIgnoresLaterFrames | image_processing.go:110-115 | once the loop has stopped, answers after that point are never consulted |
| Detection.ShowDetectedImage | image_processing.go:91-115 | the imperative loop produces the same trace as the reference; it quits iff the first stopping pass polled 113; every capture is the window's region |

## Left out

- robotgo input injection is not executed. The model records the commands it would receive (`KeyToggle`, `Toggle`, sleep) but not their effect on the OS.
- Cursor movement and clicks are left out: `MoveCursor`, `MoveCursorRelative`, `SetCursor`, `MoveCursorClick`, `MoveCursorSmoothClick`, `Click`, `MousePosition` and `GetPixelColor`. They are direct robotgo calls with no bookkeeping of their own.
- `window.IsActive` and `window.SetActive` are left out. Each is one robotgo call (`GetPID`, `ActivePID`) compared or issued against the stored pid.
- `window.String` is left out because it is only `%d` formatting.
- `Title`, `Pid`, `Position`, `Size` and `Bot.Window` are plain reads of the record's fields. They appear only through the fields and `Bots.NewBotWindowDescribesFoundId`.
- `OpenImage` is left out because it is file I/O and image decoding.
- `Sleep`, `MilliSleep` and the timing of `KeyTap` are left out. The pause appears only as a command in KeyTap's output.
- Detection.DetectImage: gocv's `MatchTemplate`, `MinMaxLoc` and `ImageToMatRGB` are float32 numerics whose source is not available. Their answers are inputs per frame. Matching semantics, tie-breaking and the size-mismatch case are not modelled. Releasing gocv's Mats is not modelled. image_processing.go:59-64 closes `result` before `MinMaxLoc` reads it; the model assumes the matcher still answers with a report, and whether gocv's `Mat.Close` makes that read fail is not part of this model. Every success property of the loop (`Detection.Iteration`, `Detection.RunOverlays`, `Detection.QuitExactlyOnKey113`, `Detection.ShowDetectedImage`) rests on that assumption.
- Detection.CVMatchMode returns the mode itself rather than gocv's `String()` rendering, which belongs to gocv.
- Detection.ShowDetectedImage runs over a finite prefix of frames; the status `Running` stands for a loop that has not stopped yet. Opening the display window, `IMShow`, the rectangle's colour and thickness, and the printed text format are left out.
- Detection.Overlay: `mxl.X+imgX` is computed with unbounded integers. Coordinates of a screen capture are far from 64-bit overflow.
- The `sync.RWMutex` discipline is left out, because the model is sequential. `MousePress` and `MouseRelease` write the map while holding only the read lock (mouse.go:72-73, mouse.go:83-84). `CaptureWindow` and `DetectImage` read the config with no lock.
- Errors: Go compares error values by pointer identity. The model compares them structurally.
- Random.RandomInt: the distribution of `math/rand` is not modelled; only the range is. `rand.Intn`'s result is the `draw` argument. Go's `int` is taken to be 64 bits wide; on 32-bit targets (such as 386, which `lxn/win` also builds for) `int` is 32 bits and the span overflows at MaxInt32 instead.
- cmd/detect_image.go is not part of this model. It holds the CLI flags, the goroutine and the signal handling.

## Findings

| source | as written | input that shows it | evidently intended | confidence | as-written member | corrected member |
|---|---|---|---|---|---|---|
| gamebot.go:80 | `rand.Intn(max-min+1) + min` computes the span in 64-bit `int`, which wraps | `RandomInt(0, MaxInt64)`: the span wraps to MinInt64 and `rand.Intn` panics, although the range is non-empty. `RandomInt(MaxInt64, MinInt64)` wraps the span to 2 and returns MinInt64 | a value in `[min, max]` for every `min <= max`, and a panic for an empty range | not executed; high for the arithmetic, low for practical impact | Random.RandomIntOverflowPanics | Random.RandomIntInRange |
| mouse.go:86 | `MouseRelease` calls `robotgo.Toggle(string(btn))` with no direction, the same call `MousePress` makes | `MousePress(Left)` then `MouseRelease(Left)`: both send `Toggle("left")`. The pressed set drops "mouseleft", but no up event is requested | send the button up, passing `"up"` the way `ReleaseKey` does (key.go:28) | not executed; medium, assuming robotgo's `Toggle` defaults to the down direction like `KeyToggle` | Input.MouseReleaseAsWrittenRepeatsPress | Input.MouseRelease |
