/** Capturing the bot's window, template detection, the match-mode setting, and the
    debug loop that shows detections until 'q' is pressed. Pixel data and the matching
    numerics belong to collaborators; the model keeps the bookkeeping around them. */
module Detection {
  import opened Errors
  import opened Windows
  import opened Bots

  /** The arguments of a screen capture: x, y, width, height. */
  datatype Region = Region(x: int, y: int, w: int, h: int)

  /** CaptureWindow: the region requested is the bot's current window. */
  function CaptureRegion(w: Window): (r: Region)
    ensures r.x == w.position.x && r.y == w.position.y
    ensures r.w == w.size.w && r.h == w.size.h
  {
    Region(w.position.x, w.position.y, w.size.w, w.size.h)
  }

  /** Two windows request the same capture exactly when drift detection sees no
      difference between them: the capture depends on nothing else. */
  lemma CaptureTracksGeometry(a: Window, b: Window)
    ensures CaptureRegion(a) == CaptureRegion(b) <==> SameGeometry(a, b)
  {
  }

  /** After Changed reports no drift, the stored window still captures the region the
      process's window currently occupies. */
  lemma UnchangedWindowCapturesCurrentRegion(w: Window, d: Desktop)
    requires Changed(w, d) == Check(false, None)
    ensures Resolve(w.processName, d).Ok?
    ensures CaptureRegion(w) == CaptureRegion(Resolve(w.processName, d).value)
  {
  }

  /** CVMatchMode: the mode the bot is configured with. */
  function CVMatchMode(b: Bot): (m: MatchMode)
    ensures b.(matchMode := m) == b
  {
    b.matchMode
  }

  function SetCVMatchMode(b: Bot, m: MatchMode): (r: Bot)
    ensures CVMatchMode(r) == m
    ensures r.processName == b.processName && r.window == b.window
    ensures r.screenCaptureDelayMs == b.screenCaptureDelayMs && r.keysDown == b.keysDown
  {
    b.(matchMode := m)
  }

  /** The setter and getter form a lens: get after set yields what was set, setting what
      is already there changes nothing, and a second set overrides the first. */
  lemma MatchModeRoundTrip(b: Bot, m: MatchMode, m': MatchMode)
    ensures CVMatchMode(SetCVMatchMode(b, m)) == m
    ensures SetCVMatchMode(b, CVMatchMode(b)) == b
    ensures SetCVMatchMode(SetCVMatchMode(b, m), m') == SetCVMatchMode(b, m')
  {
  }

  /** A new bot reports the default mode until it is set. */
  lemma NewBotMatchMode(procName: string, d: Desktop, m: MatchMode)
    requires NewBot(procName, d).Ok?
    ensures CVMatchMode(NewBot(procName, d).value) == TmCcoeffNormed
    ensures CVMatchMode(SetCVMatchMode(NewBot(procName, d).value, m)) == m
  {
  }

  /** What MinMaxLoc reports for a match surface; the scores are opaque numbers. */
  datatype Found = Found(minVal: real, maxVal: real, minLoc: Point, maxLoc: Point)

  /** DetectImage. `inConv` and `tmplConv` are the outcomes of converting the captured
      and the template image; `found` is what the matcher reports for the bot's mode.
      Each conversion failure comes back wrapped, the captured image's first. */
  function DetectImage(inConv: Option<Error>, tmplConv: Option<Error>, found: Found): (r: Result<Found>)
    ensures r.Ok? <==> inConv.None? && tmplConv.None?
    ensures r.Ok? ==> r.value == found
    ensures inConv.Some? ==> r == Err(ConvertFailed(inConv.value))
    ensures inConv.None? && tmplConv.Some? ==> r == Err(ConvertFailed(tmplConv.value))
  {
    if inConv.Some? then Err(ConvertFailed(inConv.value))
    else if tmplConv.Some? then Err(ConvertFailed(tmplConv.value))
    else Ok(found)
  }

  /** image.Rectangle: `min` inclusive, `max` exclusive. */
  datatype Rectangle = Rectangle(min: Point, max: Point)

  predicate WellFormed(r: Rectangle) {
    r.min.x <= r.max.x && r.min.y <= r.max.y
  }

  function Dx(r: Rectangle): int { r.max.x - r.min.x }

  function Dy(r: Rectangle): int { r.max.y - r.min.y }

  function Abs(x: int): nat { if x < 0 then -x else x }

  /** image.Rect: the rectangle with corners (x0, y0) and (x1, y1), coordinates swapped
      where needed so that it is well formed. */
  function Rect(x0: int, y0: int, x1: int, y1: int): (r: Rectangle)
    ensures WellFormed(r)
    ensures Dx(r) == Abs(x1 - x0) && Dy(r) == Abs(y1 - y0)
    ensures x0 <= x1 && y0 <= y1 ==> r == Rectangle(Point(x0, y0), Point(x1, y1))
  {
    var (lx, hx) := if x0 > x1 then (x1, x0) else (x0, x1);
    var (ly, hy) := if y0 > y1 then (y1, y0) else (y0, y1);
    Rectangle(Point(lx, ly), Point(hx, hy))
  }

  /** The rectangle drawn around a detection: from the best-match location, extended by
      the template's width and height. */
  function Overlay(maxLoc: Point, tmpl: Rectangle): (r: Rectangle)
    ensures WellFormed(r)
    ensures Dx(r) == Abs(Dx(tmpl)) && Dy(r) == Abs(Dy(tmpl))
    ensures WellFormed(tmpl) ==> r.min == maxLoc && Dx(r) == Dx(tmpl) && Dy(r) == Dy(tmpl)
  {
    Rect(maxLoc.x, maxLoc.y, maxLoc.x + Dx(tmpl), maxLoc.y + Dy(tmpl))
  }

  /** The key code (`'q'`) that ends the debug loop. */
  const QuitKey := 113

  /** The collaborators' answers during one loop iteration: the two conversions inside
      DetectImage, the matcher's report for each mode, the conversion of the captured
      image for display, and the key polled after showing it (-1 when none). */
  datatype Frame = Frame(
    inConv: Option<Error>,
    tmplConv: Option<Error>,
    matcher: MatchMode -> Found,
    showConv: Option<Error>,
    key: int)

  datatype Status = Running | Quit | Failed(error: Error)

  /** What the loop did: the regions captured, the detections printed, the rectangles
      drawn, and how it ended. `Running` means the supplied frames ran out first. */
  datatype Trace = Trace(captures: seq<Region>, reports: seq<Found>, overlays: seq<Rectangle>, status: Status)

  /** One iteration. Status `Running` means "go round again". */
  function Iteration(b: Bot, tmpl: Rectangle, f: Frame): (t: Trace)
    ensures t.captures == [CaptureRegion(b.window)]
    ensures |t.reports| <= 1 && |t.overlays| <= |t.reports|
    ensures t.status.Quit? || t.status.Running? <==> |t.overlays| == 1
    ensures var d := DetectImage(f.inConv, f.tmplConv, f.matcher(b.matchMode));
      && (d.Err? ==> t.status == Failed(d.error) && t.reports == [])
      && (d.Ok? ==> t.reports == [f.matcher(b.matchMode)])
      && (d.Ok? && f.showConv.Some? ==> t.status == Failed(f.showConv.value))
      && (d.Ok? && f.showConv.None? ==>
            && t.overlays == [Overlay(f.matcher(b.matchMode).maxLoc, tmpl)]
            && (t.status.Quit? <==> f.key == QuitKey)
            && (t.status.Running? <==> f.key != QuitKey))
  {
    var region := CaptureRegion(b.window);
    match DetectImage(f.inConv, f.tmplConv, f.matcher(b.matchMode))
    case Err(e) => Trace([region], [], [], Failed(e))
    case Ok(found) =>
      if f.showConv.Some? then Trace([region], [found], [], Failed(f.showConv.value))
      else
        var rect := Overlay(found.maxLoc, tmpl);
        Trace([region], [found], [rect], if f.key == QuitKey then Quit else Running)
  }

  /** Concatenates the records of two consecutive stretches of the loop. */
  function Then(a: Trace, b: Trace): Trace {
    Trace(a.captures + b.captures, a.reports + b.reports, a.overlays + b.overlays, b.status)
  }

  lemma ThenAssociative(a: Trace, x: Trace, y: Trace)
    ensures Then(Then(a, x), y) == Then(a, Then(x, y))
  {
    assert (a.captures + x.captures) + y.captures == a.captures + (x.captures + y.captures);
    assert (a.reports + x.reports) + y.reports == a.reports + (x.reports + y.reports);
    assert (a.overlays + x.overlays) + y.overlays == a.overlays + (x.overlays + y.overlays);
  }

  /** ShowDetectedImage over a finite prefix of the collaborators' answers. */
  function Run(b: Bot, tmpl: Rectangle, frames: seq<Frame>): (t: Trace)
    ensures |t.overlays| <= |t.reports| <= |t.captures| <= |frames|
    ensures |frames| > 0 ==> |t.captures| > 0
    decreases |frames|
  {
    if |frames| == 0 then Trace([], [], [], Running)
    else
      var t := Iteration(b, tmpl, frames[0]);
      if t.status.Running? then Then(t, Run(b, tmpl, frames[1..])) else t
  }

  /** The number of iterations the loop goes round again before it stops: the index of
      the first frame whose iteration does not continue, or |frames| if there is none. */
  function Continuing(b: Bot, tmpl: Rectangle, frames: seq<Frame>): (n: nat)
    ensures n <= |frames|
    ensures forall i :: 0 <= i < n ==> Iteration(b, tmpl, frames[i]).status.Running?
    ensures n < |frames| ==> !Iteration(b, tmpl, frames[n]).status.Running?
    decreases |frames|
  {
    if |frames| == 0 || !Iteration(b, tmpl, frames[0]).status.Running? then 0
    else
      var n := 1 + Continuing(b, tmpl, frames[1..]);
      assert forall i :: 1 <= i < n ==> frames[i] == frames[1..][i - 1];
      n
  }

  /** How the loop ends: the status of the first iteration that does not continue.
      It quits exactly when that iteration polled key 113, and fails with exactly the
      error that iteration met. */
  lemma {:induction false} RunStatus(b: Bot, tmpl: Rectangle, frames: seq<Frame>)
    ensures var n := Continuing(b, tmpl, frames);
      Run(b, tmpl, frames).status == if n < |frames| then Iteration(b, tmpl, frames[n]).status else Running
    decreases |frames|
  {
    if |frames| > 0 && Iteration(b, tmpl, frames[0]).status.Running? {
      RunStatus(b, tmpl, frames[1..]);
    }
  }

  /** The loop ends with nil exactly when the first iteration that stops had detected,
      converted and shown its frame and then polled key 113; every other iteration whose
      frame was shown polled a different key. */
  lemma QuitExactlyOnKey113(b: Bot, tmpl: Rectangle, frames: seq<Frame>)
    ensures var n := Continuing(b, tmpl, frames);
      Run(b, tmpl, frames).status.Quit? <==>
        && n < |frames|
        && DetectImage(frames[n].inConv, frames[n].tmplConv, frames[n].matcher(b.matchMode)).Ok?
        && frames[n].showConv.None?
        && frames[n].key == QuitKey
    ensures forall i :: 0 <= i < Continuing(b, tmpl, frames) ==> frames[i].key != QuitKey
  {
    RunStatus(b, tmpl, frames);
  }

  /** Every iteration that ran captured the bot's window: one capture per iteration up to
      and including the one that stopped. The window is never refreshed by the loop. */
  lemma {:induction false} RunCaptures(b: Bot, tmpl: Rectangle, frames: seq<Frame>)
    ensures var n := Continuing(b, tmpl, frames);
      |Run(b, tmpl, frames).captures| == if n < |frames| then n + 1 else n
    ensures forall i :: 0 <= i < |Run(b, tmpl, frames).captures| ==>
              Run(b, tmpl, frames).captures[i] == CaptureRegion(b.window)
    decreases |frames|
  {
    if |frames| > 0 && Iteration(b, tmpl, frames[0]).status.Running? {
      RunCaptures(b, tmpl, frames[1..]);
    }
  }

  /** The i-th rectangle drawn is anchored at the i-th frame's best-match location for
      the bot's mode and sized to the template. */
  lemma {:induction false} RunOverlays(b: Bot, tmpl: Rectangle, frames: seq<Frame>)
    ensures |Run(b, tmpl, frames).overlays| <= |frames|
    ensures forall i :: 0 <= i < |Run(b, tmpl, frames).overlays| ==>
              Run(b, tmpl, frames).overlays[i] == Overlay(frames[i].matcher(b.matchMode).maxLoc, tmpl)
    decreases |frames|
  {
    if |frames| > 0 && Iteration(b, tmpl, frames[0]).status.Running? {
      RunOverlays(b, tmpl, frames[1..]);
      assert forall i :: 1 <= i < |frames| ==> frames[i] == frames[1..][i - 1];
    }
  }

  /** Once the loop has stopped, later answers are never consulted. */
  lemma {:induction false} RunIgnoresLaterFrames(b: Bot, tmpl: Rectangle, frames: seq<Frame>, later: seq<Frame>)
    requires !Run(b, tmpl, frames).status.Running?
    ensures Run(b, tmpl, frames + later) == Run(b, tmpl, frames)
    decreases |frames|
  {
    assert |frames| > 0;
    assert (frames + later)[0] == frames[0];
    if Iteration(b, tmpl, frames[0]).status.Running? {
      assert (frames + later)[1..] == frames[1..] + later;
      RunIgnoresLaterFrames(b, tmpl, frames[1..], later);
    }
  }

  /** Running the loop from frame i: that frame's pass, followed by the rest if it
      goes round again. */
  lemma RunFrom(b: Bot, tmpl: Rectangle, frames: seq<Frame>, i: nat)
    requires i < |frames|
    ensures var pass := Iteration(b, tmpl, frames[i]);
      Run(b, tmpl, frames[i..]) ==
        if pass.status.Running? then Then(pass, Run(b, tmpl, frames[i + 1..])) else pass
  {
    assert frames[i..][0] == frames[i];
    assert frames[i..][1..] == frames[i + 1..];
  }

  /** ShowDetectedImage: capture, detect, print, convert, draw, show, poll — until key 113
      is polled (result nil) or a step fails (result that error). */
  method ShowDetectedImage(b: Bot, tmpl: Rectangle, frames: seq<Frame>) returns (t: Trace)
    ensures t == Run(b, tmpl, frames)
    ensures t.status.Quit? <==>
              var n := Continuing(b, tmpl, frames);
              n < |frames| && Iteration(b, tmpl, frames[n]).status.Quit?
    ensures forall i :: 0 <= i < |t.captures| ==> t.captures[i] == CaptureRegion(b.window)
  {
    RunStatus(b, tmpl, frames);
    RunCaptures(b, tmpl, frames);
    var captures: seq<Region> := [];
    var reports: seq<Found> := [];
    var overlays: seq<Rectangle> := [];
    var i := 0;
    t := Trace([], [], [], Running);
    while i < |frames|
      invariant 0 <= i <= |frames|
      invariant Run(b, tmpl, frames) == Then(Trace(captures, reports, overlays, Running), Run(b, tmpl, frames[i..]))
      decreases |frames| - i
    {
      var f := frames[i];
      ghost var pass := Iteration(b, tmpl, f);
      ghost var before := Trace(captures, reports, overlays, Running);
      RunFrom(b, tmpl, frames, i);
      captures := captures + [CaptureRegion(b.window)];
      var detected := DetectImage(f.inConv, f.tmplConv, f.matcher(b.matchMode));
      if detected.Err? {
        t := Trace(captures, reports, overlays, Failed(detected.error));
        assert t == Then(before, pass);
        return;
      }
      reports := reports + [detected.value];
      if f.showConv.Some? {
        t := Trace(captures, reports, overlays, Failed(f.showConv.value));
        assert t == Then(before, pass);
        return;
      }
      overlays := overlays + [Overlay(detected.value.maxLoc, tmpl)];
      if f.key == QuitKey {
        t := Trace(captures, reports, overlays, Quit);
        assert t == Then(before, pass);
        return;
      }
      assert Trace(captures, reports, overlays, Running) == Then(before, pass);
      ThenAssociative(before, pass, Run(b, tmpl, frames[i + 1..]));
      i := i + 1;
    }
    t := Trace(captures, reports, overlays, Running);
    assert frames[i..] == [];
  }
}
