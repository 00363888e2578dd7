/** The bot record and its window bookkeeping: construction with defaults, the
    process-name accessor, and replacing the window when its geometry drifts. */
module Bots {
  import opened Errors
  import opened Windows

  /** gocv's template-matching modes. */
  datatype MatchMode =
    | TmSqdiff | TmSqdiffNormed | TmCcorr | TmCcorrNormed | TmCcoeff | TmCcoeffNormed

  /** Milliseconds a new bot is configured to wait after a capture. */
  const ScreenCaptureDelayMs := 300

  /** The matching mode a new bot starts with. */
  const DefaultMatchMode := TmCcoeffNormed

  /** The bot's configuration. `keysDown` is the set of pressed identifiers: keyboard
      keys under their names, mouse buttons under "mouse" followed by the button name. */
  datatype Bot = Bot(
    processName: string,
    window: Window,
    screenCaptureDelayMs: int,
    keysDown: set<string>,
    matchMode: MatchMode)

  /** The bot's window belongs to the process the bot was built for. */
  predicate Valid(b: Bot) {
    b.window.processName == b.processName
  }

  /** NewBot: resolve the window, then fill in the defaults. Fails exactly when
      resolution fails, with the same error. */
  function NewBot(procName: string, d: Desktop): (r: Result<Bot>)
    ensures r.Err? <==> Resolve(procName, d).Err?
    ensures r.Err? ==> r.error == Resolve(procName, d).error
    ensures r.Ok? ==>
              && r.value.processName == procName
              && r.value.window == Resolve(procName, d).value
              && r.value.screenCaptureDelayMs == 300
              && r.value.matchMode == TmCcoeffNormed
              && r.value.keysDown == {}
    ensures r.Ok? ==> Valid(r.value)
  {
    match Resolve(procName, d)
    case Err(e) => Err(e)
    case Ok(w) => Ok(Bot(procName, w, ScreenCaptureDelayMs, {}, DefaultMatchMode))
  }

  /** ProcessName: the name the bot is configured with, which is also the process its
      window belongs to. */
  function ProcessName(b: Bot): (r: string)
    ensures Valid(b) ==> r == b.window.processName
  {
    b.processName
  }

  /** ProcessName reports the name the bot was constructed with. */
  lemma ProcessNameIsConstructorArgument(procName: string, d: Desktop)
    requires NewBot(procName, d).Ok?
    ensures ProcessName(NewBot(procName, d).value) == procName
  {
  }

  /** The window a new bot reports (Bot.Window and its Title, Pid, Position and Size
      accessors, which read the record's fields) describes the one id enumeration found. */
  lemma NewBotWindowDescribesFoundId(procName: string, d: Desktop)
    requires NewBot(procName, d).Ok?
    ensures |d.findIds(procName).value| == 1
    ensures var w := NewBot(procName, d).value.window;
      var id := d.findIds(procName).value[0];
      && w.pid == id
      && w.title == d.titleOf(id)
      && w.position == Point(d.boundsOf(id).x, d.boundsOf(id).y)
      && w.size == Extent(d.boundsOf(id).w, d.boundsOf(id).h)
  {
  }

  /** A freshly built bot's window is the one resolution reports, and it has not drifted
      against the desktop it was resolved from. */
  lemma NewBotWindowIsCurrent(procName: string, d: Desktop)
    requires NewBot(procName, d).Ok?
    ensures Changed(NewBot(procName, d).value.window, d) == Check(false, None)
  {
  }

  /** Bot.UpdateWindow. `probe` answers the enumeration inside `Changed`; `refetch` answers
      the second resolution made when a change was seen. Returns the new bot and the
      error, if any. */
  function UpdateWindow(b: Bot, probe: Desktop, refetch: Desktop): (r: (Bot, Option<Error>))
    ensures Changed(b.window, probe).err.Some? ==>
              r == (b, Changed(b.window, probe).err)
    ensures Changed(b.window, probe) == Check(false, None) ==> r == (b, None)
    ensures Changed(b.window, probe).changed && Resolve(b.processName, refetch).Err? ==>
              r == (b, Some(Resolve(b.processName, refetch).error))
    ensures Changed(b.window, probe).changed && Resolve(b.processName, refetch).Ok? ==>
              r == (b.(window := Resolve(b.processName, refetch).value), None)
    ensures r.0.window != b.window ==> Changed(b.window, probe).changed
    ensures r.0 == b.(window := r.0.window)
    ensures Valid(b) ==> Valid(r.0)
  {
    var check := Changed(b.window, probe);
    if check.err.Some? then (b, check.err)
    else if check.changed then
      match Resolve(b.processName, refetch)
      case Err(e) => (b, Some(e))
      case Ok(w) => (b.(window := w), None)
    else (b, None)
  }

  /** After an update against a desktop that does not move, a second update against it
      changes nothing and reports no error. */
  lemma UpdateWindowIdempotent(b: Bot, d: Desktop)
    requires UpdateWindow(b, d, d).1 == None
    ensures var b' := UpdateWindow(b, d, d).0; UpdateWindow(b', d, d) == (b', None)
  {
  }
}
