/** The target window: resolving it from a process name, and detecting drift of its
    position or size by resolving it again. */
module Windows {
  import opened Errors

  datatype Point = Point(x: int, y: int)

  datatype Extent = Extent(w: int, h: int)

  /** A resolved window. `hwnd` and `pid` are the platform's opaque numbers. */
  datatype Window = Window(
    processName: string,
    hwnd: int,
    title: string,
    pid: int,
    position: Point,
    size: Extent)

  /** What the platform reports as a window's bounds: x, y, width, height. */
  datatype Bounds = Bounds(x: int, y: int, w: int, h: int)

  /** The answers of the window-enumeration collaborator at one moment:
      `findIds` lists the window ids of a process (or fails), `titleOf` and `boundsOf`
      describe an id, and `foregroundHwnd` is the handle of the foreground window. */
  datatype Desktop = Desktop(
    findIds: string -> Result<seq<int>>,
    titleOf: int -> string,
    boundsOf: int -> Bounds,
    foregroundHwnd: int)

  /** The window the desktop describes for its id `id`, as resolution assembles it. */
  function WindowOf(procName: string, d: Desktop, id: int): Window {
    var b := d.boundsOf(id);
    Window(procName, d.foregroundHwnd, d.titleOf(id), id, Point(b.x, b.y), Extent(b.w, b.h))
  }

  /** getWindow: enumerate the process's windows and accept exactly one.
      An enumeration error is passed through unchanged; zero ids is PidNotFound, more
      than one is PidGreaterThanOne; the handle is the foreground window's handle. */
  function Resolve(procName: string, d: Desktop): (r: Result<Window>)
    ensures d.findIds(procName).Err? ==> r == Err(d.findIds(procName).error)
    ensures d.findIds(procName).Ok? && |d.findIds(procName).value| == 0 ==>
              r == Err(PidNotFound(procName))
    ensures d.findIds(procName).Ok? && |d.findIds(procName).value| > 1 ==>
              r == Err(PidGreaterThanOne(procName))
    ensures r.Ok? <==> d.findIds(procName).Ok? && |d.findIds(procName).value| == 1
    ensures r.Ok? ==>
              var id := d.findIds(procName).value[0];
              var b := d.boundsOf(id);
              && r.value.processName == procName
              && r.value.pid == id
              && r.value.title == d.titleOf(id)
              && r.value.hwnd == d.foregroundHwnd
              && r.value.position == Point(b.x, b.y)
              && r.value.size == Extent(b.w, b.h)
  {
    match d.findIds(procName)
    case Err(e) => Err(e)
    case Ok(ids) =>
      if |ids| < 1 then Err(PidNotFound(procName))
      else if |ids| > 1 then Err(PidGreaterThanOne(procName))
      else Ok(WindowOf(procName, d, ids[0]))
  }

  /** The four numbers drift detection compares: x, y, width and height. */
  predicate SameGeometry(a: Window, b: Window) {
    a.position.x == b.position.x && a.position.y == b.position.y &&
    a.size.w == b.size.w && a.size.h == b.size.h
  }

  /** Go's `(bool, error)` result of `Changed`. */
  datatype Check = Check(changed: bool, err: Option<Error>)

  /** window.Changed: resolve the window's process again and report whether its position
      or size moved. Resolution failure reports `(false, err)`. */
  function Changed(w: Window, d: Desktop): (r: Check)
    ensures Resolve(w.processName, d).Err? ==>
              r == Check(false, Some(Resolve(w.processName, d).error))
    ensures Resolve(w.processName, d).Ok? ==> r.err == None
    ensures Resolve(w.processName, d).Ok? ==>
              (r.changed <==> !SameGeometry(w, Resolve(w.processName, d).value))
  {
    match Resolve(w.processName, d)
    case Err(e) => Check(false, Some(e))
    case Ok(current) =>
      if current.position.x != w.position.x || current.position.y != w.position.y then
        Check(true, None)
      else if current.size.w != w.size.w || current.size.h != w.size.h then
        Check(true, None)
      else
        Check(false, None)
  }

  /** A freshly resolved window reports no change against the same desktop. */
  lemma ResolvedIsUnchanged(procName: string, d: Desktop)
    requires Resolve(procName, d).Ok?
    ensures Changed(Resolve(procName, d).value, d) == Check(false, None)
  {
  }

  /** Title, pid and handle take no part in drift detection: two windows of the same
      process with the same geometry get the same answer. */
  lemma ChangedIgnoresIdentity(a: Window, b: Window, d: Desktop)
    requires a.processName == b.processName
    requires SameGeometry(a, b)
    ensures Changed(a, d) == Changed(b, d)
  {
  }

  /** Altering any single one of x, y, w or h of a freshly resolved window makes
      `Changed` report true. */
  lemma ChangedSeesEachField(procName: string, d: Desktop, delta: int)
    requires Resolve(procName, d).Ok?
    requires delta != 0
    ensures var w := Resolve(procName, d).value;
      && Changed(w.(position := Point(w.position.x + delta, w.position.y)), d) == Check(true, None)
      && Changed(w.(position := Point(w.position.x, w.position.y + delta)), d) == Check(true, None)
      && Changed(w.(size := Extent(w.size.w + delta, w.size.h)), d) == Check(true, None)
      && Changed(w.(size := Extent(w.size.w, w.size.h + delta)), d) == Check(true, None)
  {
  }
}
