/**
 * The editor's state machine as values. Each event handler of the editor component is
 * one atomic step from state to state; the canvas-reset effect, which React runs after a
 * render whose `pdfUrl`, `pageNum` or `tool` changed, is applied at the end of the step
 * that changed them. The overlay is the fabric canvas: an ordered list of shapes (later
 * is on top), its size, its active object and the tool whose pointer handler it carries.
 */
module EditorModel {
  import opened Wrappers
  import opened Names

  datatype Tool = Select | Blur | Erase | Text

  /** The two fabric object kinds the editor creates. Coordinates are canvas pixels. */
  datatype Shape =
    | Rect(left: real, top: real, width: real, height: real, fill: string, opacity: real, selectable: bool)
    | IText(text: string, left: real, top: real, fontSize: nat, fill: string, fontWeight: nat, selectable: bool)

  /** One fabric canvas: its objects in z-order, size, active object and bound tool. */
  datatype Overlay = Overlay(shapes: seq<Shape>, width: int, height: int, active: Option<nat>, handler: Tool)

  datatype CanvasSize = CanvasSize(width: nat, height: nat)

  /** A page's size as the PDF library reports it, in points. */
  datatype PageSize = PageSize(width: real, height: real)

  /**
   * `pdfUrl` is the object URL of the chosen file (URLs are numbered by `nextUrl`, so each
   * one is new); `canvasWidth`/`canvasHeight` are the size of the overlay's `<canvas>`
   * element, which is mounted exactly while `pdfUrl` is present.
   */
  datatype EditorState = EditorState(
    pdfUrl: Option<nat>,
    numPages: Option<nat>,
    pageNum: int,
    tool: Tool,
    overlay: Option<Overlay>,
    canvasWidth: nat,
    canvasHeight: nat,
    nextUrl: nat)

  /** What saving produces: the overlay image drawn on one page of the document, and the download name. */
  datatype Export = Export(
    pageIndex: nat,
    x: real, y: real, width: real, height: real, opacity: real,
    shapes: seq<Shape>, overlayWidth: int, overlayHeight: int,
    filename: string)

  /** The size of a newly mounted HTML `<canvas>` element. */
  const DefaultCanvasWidth: nat := 300
  const DefaultCanvasHeight: nat := 150

  function Max(a: int, b: int): (m: int) { if a < b then b else a }
  function Min(a: int, b: int): (m: int) { if a < b then a else b }

  /** The state when the editor mounts with no file. */
  function Initial(tool: Tool): (s: EditorState)
    ensures Inv(s) && s.pdfUrl.None? && s.overlay.None? && s.pageNum == 1 && s.tool == tool
  {
    EditorState(None, None, 1, tool, None, DefaultCanvasWidth, DefaultCanvasHeight, 0)
  }

  /** What holds in every state the handlers can reach. */
  ghost predicate Inv(s: EditorState) {
    && 1 <= s.pageNum
    && (s.numPages.None? ==> s.pageNum == 1)
    && (s.numPages.Some? ==> s.pageNum <= Max(1, s.numPages.value))
    && (s.pdfUrl.None? ==> s.numPages.None?)
    && (s.pdfUrl.Some? ==> s.pdfUrl.value < s.nextUrl)
    && (s.overlay.Some? <==> s.pdfUrl.Some?)
    && (s.overlay.Some? ==> OverlayInSync(s.overlay.value, s))
  }

  /** The overlay carries the current tool's handler, has its element's size, and its active object is a text it holds. */
  ghost predicate OverlayInSync(o: Overlay, s: EditorState) {
    && o.handler == s.tool
    && o.width == s.canvasWidth && o.height == s.canvasHeight
    && (o.active.Some? ==> o.active.value < |o.shapes| && o.shapes[o.active.value].IText?)
  }

  /** True when a step changed one of the canvas-reset effect's dependencies. */
  predicate DependenciesChanged(s: EditorState, t: EditorState) {
    t.pdfUrl != s.pdfUrl || t.pageNum != s.pageNum || t.tool != s.tool
  }

  /**
   * The canvas-reset effect after a step from a state with `urlBefore`, `pageBefore` and
   * `toolBefore` to `s`: when one of them changed and the canvas element is mounted, the
   * old fabric canvas is disposed and a new, empty one bound to the current tool replaces it.
   */
  function CanvasEffect(urlBefore: Option<nat>, pageBefore: int, toolBefore: Tool, s: EditorState): (t: EditorState)
    ensures t.(overlay := s.overlay) == s
    ensures (s.pdfUrl != urlBefore || s.pageNum != pageBefore || s.tool != toolBefore) && s.pdfUrl.Some?
            ==> t.overlay == Some(Overlay([], s.canvasWidth, s.canvasHeight, None, s.tool))
    ensures !(s.pdfUrl != urlBefore || s.pageNum != pageBefore || s.tool != toolBefore) || s.pdfUrl.None?
            ==> t.overlay == s.overlay
  {
    if (s.pdfUrl != urlBefore || s.pageNum != pageBefore || s.tool != toolBefore) && s.pdfUrl.Some? then
      s.(overlay := Some(Overlay([], s.canvasWidth, s.canvasHeight, None, s.tool)))
    else
      s
  }

  /**
   * The file effect: no file clears the URL, the page count and the page and disposes the
   * overlay; a file gets a new object URL (mounting the canvas element if it was not).
   */
  function FileEffect(s: EditorState, f: Option<File>): (t: EditorState)
    ensures t.tool == s.tool
    ensures f.None? ==> t.pdfUrl.None? && t.numPages.None? && t.pageNum == 1 && t.overlay.None?
    ensures f.Some? ==> t.pdfUrl.Some? && t.numPages == s.numPages && t.pageNum == s.pageNum
  {
    match f
    case None =>
      CanvasEffect(s.pdfUrl, s.pageNum, s.tool, s.(pdfUrl := None, numPages := None, pageNum := 1, overlay := None))
    case Some(_) =>
      var mounted := if s.pdfUrl.None? then s.(canvasWidth := DefaultCanvasWidth, canvasHeight := DefaultCanvasHeight) else s;
      CanvasEffect(s.pdfUrl, s.pageNum, s.tool, mounted.(pdfUrl := Some(s.nextUrl), nextUrl := s.nextUrl + 1))
  }

  /** The document reported its page count; the callback only comes from a mounted document view. */
  function LoadSuccess(s: EditorState, count: nat): (t: EditorState)
    ensures s.pdfUrl.Some? ==> t.numPages == Some(count) && t.pageNum == 1
    ensures s.pdfUrl.None? ==> t == s
    ensures t.pdfUrl == s.pdfUrl && t.tool == s.tool
  {
    if s.pdfUrl.None? then s
    else CanvasEffect(s.pdfUrl, s.pageNum, s.tool, s.(numPages := Some(count), pageNum := 1))
  }

  /** `Math.max(1, Math.min(numPages, prev + delta))`, where a `null` page count reads as 0. */
  function ClampPage(prev: int, delta: int, numPages: Option<nat>): (p: int)
    ensures 1 <= p
    ensures numPages.None? ==> p == 1
    ensures numPages.Some? && 1 <= numPages.value ==> p <= numPages.value
    ensures numPages.Some? && 1 <= prev + delta <= numPages.value ==> p == prev + delta
    ensures numPages.Some? && 1 <= numPages.value && prev + delta > numPages.value ==> p == numPages.value
    ensures prev + delta < 1 ==> p == 1
  {
    var limit := if numPages.Some? then numPages.value else 0;
    Max(1, Min(limit, prev + delta))
  }

  function PageChange(s: EditorState, delta: int): (t: EditorState)
    ensures t.pageNum == ClampPage(s.pageNum, delta, s.numPages)
    ensures t.pdfUrl == s.pdfUrl && t.numPages == s.numPages && t.tool == s.tool
  {
    CanvasEffect(s.pdfUrl, s.pageNum, s.tool, s.(pageNum := ClampPage(s.pageNum, delta, s.numPages)))
  }

  /** The tool prop changed (a toolbar button). */
  function ToolChange(s: EditorState, tool: Tool): (t: EditorState)
    ensures t.tool == tool && t.pdfUrl == s.pdfUrl && t.pageNum == s.pageNum && t.numPages == s.numPages
  {
    CanvasEffect(s.pdfUrl, s.pageNum, s.tool, s.(tool := tool))
  }

  /**
   * The object a pointer-down at `(x, y)` creates under the handler bound for `handler`:
   * blur and erase blocks are 80 by 40 and centred on the pointer, text starts at it.
   */
  function ShapeFor(handler: Tool, x: real, y: real): (r: Option<Shape>)
    ensures r.None? <==> handler == Select
    ensures handler == Blur || handler == Erase ==>
      && r.Some? && r.value.Rect? && r.value.selectable
      && r.value.width == 80.0 && r.value.height == 40.0
      && r.value.left + r.value.width / 2.0 == x && r.value.top + r.value.height / 2.0 == y
    ensures handler == Blur ==> r.value.fill == "#bbb" && r.value.opacity == 0.65
    ensures handler == Erase ==> r.value.fill == "#fff" && r.value.opacity == 1.0
    ensures handler == Text ==>
      && r.Some? && r.value.IText? && r.value.left == x && r.value.top == y
      && r.value.text == "Sample Text" && r.value.fontSize == 18 && r.value.fill == "#222"
      && r.value.fontWeight == 600 && r.value.selectable
  {
    match handler
    case Select => None
    case Blur => Some(Rect(x - 40.0, y - 20.0, 80.0, 40.0, "#bbb", 0.65, true))
    case Erase => Some(Rect(x - 40.0, y - 20.0, 80.0, 40.0, "#fff", 1.0, true))
    case Text => Some(IText("Sample Text", x, y, 18, "#222", 600, true))
  }

  /** A pointer-down on the overlay: the bound handler appends its object; text also becomes active. */
  function PointerDown(s: EditorState, x: real, y: real): (t: EditorState)
    ensures t.(overlay := s.overlay) == s
    ensures t.overlay.Some? <==> s.overlay.Some?
  {
    match s.overlay
    case None => s
    case Some(o) =>
      match ShapeFor(o.handler, x, y)
      case None => s
      case Some(shape) =>
        s.(overlay := Some(o.(shapes := o.shapes + [shape],
                              active := if shape.IText? then Some(|o.shapes|) else o.active)))
  }

  /**
   * The page finished rendering: when the page canvas is found and the overlay's element
   * is mounted, both the element and the fabric canvas take the rendered canvas's size.
   */
  function RenderSuccess(s: EditorState, rendered: Option<CanvasSize>): (t: EditorState)
    ensures rendered.Some? && s.pdfUrl.Some? ==>
      t.canvasWidth == rendered.value.width && t.canvasHeight == rendered.value.height
    ensures rendered.None? || s.pdfUrl.None? ==> t == s
    ensures t.pdfUrl == s.pdfUrl && t.pageNum == s.pageNum && t.tool == s.tool && t.numPages == s.numPages
  {
    if rendered.None? || s.pdfUrl.None? then s
    else
      var w, h := rendered.value.width, rendered.value.height;
      s.(canvasWidth := w, canvasHeight := h,
         overlay := match s.overlay
                    case None => None
                    case Some(o) => Some(o.(width := w, height := h)))
  }

  /**
   * Saving: nothing without a document and an overlay, nothing when the PDF library has no
   * page `pageNum - 1` (it throws); otherwise the overlay drawn over that whole page.
   */
  function SaveResult(s: EditorState, filename: string, pages: seq<PageSize>): (r: Option<Export>)
    ensures r.None? <==> s.pdfUrl.None? || s.overlay.None? || !(1 <= s.pageNum <= |pages|)
    ensures r.Some? ==>
      && r.value.pageIndex == s.pageNum - 1
      && r.value.x == 0.0 && r.value.y == 0.0 && r.value.opacity == 1.0
      && r.value.width == pages[s.pageNum - 1].width && r.value.height == pages[s.pageNum - 1].height
      && r.value.shapes == s.overlay.value.shapes
      && r.value.overlayWidth == s.overlay.value.width && r.value.overlayHeight == s.overlay.value.height
      && r.value.filename == DownloadName(filename)
  {
    if s.pdfUrl.None? || s.overlay.None? || !(1 <= s.pageNum <= |pages|) then None
    else
      var page := pages[s.pageNum - 1];
      var o := s.overlay.value;
      Some(Export(s.pageNum - 1, 0.0, 0.0, page.width, page.height, 1.0, o.shapes, o.width, o.height, DownloadName(filename)))
  }

  /** The events the editor reacts to. */
  datatype Event =
    | FileChosen(file: Option<File>)
    | DocumentLoaded(count: nat)
    | PageButton(delta: int)
    | ToolChosen(tool: Tool)
    | MouseDown(x: real, y: real)
    | PageRendered(rendered: Option<CanvasSize>)

  function Step(s: EditorState, e: Event): (t: EditorState) {
    match e
    case FileChosen(f) => FileEffect(s, f)
    case DocumentLoaded(n) => LoadSuccess(s, n)
    case PageButton(d) => PageChange(s, d)
    case ToolChosen(t) => ToolChange(s, t)
    case MouseDown(x, y) => PointerDown(s, x, y)
    case PageRendered(r) => RenderSuccess(s, r)
  }

  function Run(s: EditorState, events: seq<Event>): (t: EditorState)
    decreases |events|
  {
    if events == [] then s else Run(Step(s, events[0]), events[1..])
  }

  // ---------------------------------------------------------------------------
  // Properties

  lemma StepPreservesInv(s: EditorState, e: Event)
    requires Inv(s)
    ensures Inv(Step(s, e))
  {
  }

  lemma {:induction false} RunPreservesInv(s: EditorState, events: seq<Event>)
    requires Inv(s)
    ensures Inv(Run(s, events))
    decreases |events|
  {
    if events != [] {
      StepPreservesInv(s, events[0]);
      RunPreservesInv(Step(s, events[0]), events[1..]);
    }
  }

  /** Whatever the user does, the page number stays within the document's pages. */
  lemma ReachablePageInRange(tool: Tool, events: seq<Event>)
    ensures var t := Run(Initial(tool), events);
      && 1 <= t.pageNum
      && (t.numPages.Some? && 1 <= t.numPages.value ==> t.pageNum <= t.numPages.value)
      && (t.numPages.None? ==> t.pageNum == 1)
  {
    RunPreservesInv(Initial(tool), events);
  }

  /** Whatever the user does, an overlay exists exactly while a file is open, and it reacts to the current tool. */
  lemma ReachableOverlayFollowsTool(tool: Tool, events: seq<Event>)
    ensures var t := Run(Initial(tool), events);
      && (t.overlay.Some? <==> t.pdfUrl.Some?)
      && (t.overlay.Some? ==> t.overlay.value.handler == t.tool)
  {
    RunPreservesInv(Initial(tool), events);
  }

  /** Page buttons: enabled ones move by exactly one page, disabled ones would change nothing. */
  predicate PrevDisabled(s: EditorState) { s.pageNum <= 1 }
  predicate NextDisabled(s: EditorState) { s.pageNum >= (if s.numPages.Some? then s.numPages.value else 0) }

  lemma PageButtons(s: EditorState)
    requires Inv(s)
    ensures PrevDisabled(s) <==> PageChange(s, -1) == s
    ensures NextDisabled(s) <==> PageChange(s, 1) == s
    ensures !PrevDisabled(s) ==> PageChange(s, -1).pageNum == s.pageNum - 1
    ensures !NextDisabled(s) ==> PageChange(s, 1).pageNum == s.pageNum + 1
  {
  }

  /** Without a page count every page change lands on page 1. */
  lemma PageChangeWithoutCount(s: EditorState, delta: int)
    requires s.numPages.None?
    ensures PageChange(s, delta).pageNum == 1
  {
  }

  /** Choosing a file always gives a new URL and an empty overlay bound to the current tool. */
  lemma ChooseFileResetsOverlay(s: EditorState, file: File)
    requires Inv(s)
    ensures var t := FileEffect(s, Some(file));
      && t.pdfUrl.Some? && t.pdfUrl != s.pdfUrl
      && t.overlay.Some? && t.overlay.value.shapes == [] && t.overlay.value.active.None?
      && t.overlay.value.handler == s.tool
  {
  }

  /** A step that changes the page, the tool or the URL leaves no earlier shape behind. */
  lemma DependencyChangeDiscardsShapes(s: EditorState, e: Event)
    requires Inv(s)
    ensures var t := Step(s, e);
      DependenciesChanged(s, t) && t.overlay.Some? ==> t.overlay.value.shapes == [] && t.overlay.value.active.None?
  {
  }

  /** A step that changes none of them, other than a pointer-down, keeps the shapes and their order. */
  lemma OtherStepsKeepShapes(s: EditorState, e: Event)
    requires Inv(s) && !e.MouseDown?
    ensures var t := Step(s, e);
      !DependenciesChanged(s, t) ==>
        (t.overlay.Some? <==> s.overlay.Some?) &&
        (t.overlay.Some? ==> t.overlay.value.shapes == s.overlay.value.shapes)
  {
  }

  /**
   * A pointer-down with a document open appends exactly the current tool's object, after
   * the existing shapes in their order; with the select tool or no document nothing changes.
   */
  lemma PointerDownAppendsOne(s: EditorState, x: real, y: real)
    requires Inv(s)
    ensures var t := PointerDown(s, x, y);
      && (s.pdfUrl.None? || s.tool == Select ==> t == s)
      && (s.pdfUrl.Some? && s.tool != Select ==>
            t.overlay.Some? && t.overlay.value.shapes == s.overlay.value.shapes + [ShapeFor(s.tool, x, y).value])
      && (s.pdfUrl.Some? && s.tool == Text ==> t.overlay.value.active == Some(|s.overlay.value.shapes|))
      && (s.pdfUrl.Some? && (s.tool == Blur || s.tool == Erase) ==> t.overlay.value.active == s.overlay.value.active)
  {
  }

  /** After a render, the overlay is exactly the rendered page canvas's size; shapes are not rescaled. */
  lemma RenderSyncsOverlaySize(s: EditorState, size: CanvasSize)
    requires Inv(s) && s.pdfUrl.Some?
    ensures var t := RenderSuccess(s, Some(size));
      && t.overlay.Some?
      && t.overlay.value.width == size.width && t.overlay.value.height == size.height
      && t.overlay.value.shapes == s.overlay.value.shapes
  {
  }

  /** Annotations are not kept per page: going to the next page and back finds an empty overlay. */
  lemma NavigateAwayAndBackLosesShapes(s: EditorState)
    requires Inv(s) && s.pdfUrl.Some? && s.numPages.Some? && s.numPages.value >= 2 && s.pageNum == 1
    ensures var t := Run(s, [PageButton(1), PageButton(-1)]);
      t.pageNum == 1 && t.overlay.Some? && t.overlay.value.shapes == []
  {
  }

  /** Saving never produces anything while no file is open, and always uses page `pageNum - 1`. */
  lemma SaveNeedsDocument(s: EditorState, filename: string, pages: seq<PageSize>)
    requires Inv(s)
    ensures s.pdfUrl.None? ==> SaveResult(s, filename, pages).None?
    ensures s.pdfUrl.Some? && s.pageNum <= |pages| ==>
      SaveResult(s, filename, pages).Some? && SaveResult(s, filename, pages).value.pageIndex == s.pageNum - 1
  {
  }
}
