/**
 * The editor component as objects. `PdfEditor` holds the component's state and the
 * references it keeps (`fabric` is the current fabric canvas, or null); `FabricCanvas`
 * is a fabric canvas whose object list is appended in place. Every handler is proved
 * to move the abstract state exactly as the matching EditorModel function says.
 */
module Editor {
  import opened Wrappers
  import opened Names
  import opened EditorModel

  /** A fabric canvas: its objects, size, active object and the tool whose mouse-down handler is bound. */
  class FabricCanvas {
    var objects: seq<Shape>
    var width: int
    var height: int
    var active: Option<nat>
    var handler: Tool
    var disposed: bool

    function View(): Overlay
      reads this
    {
      Overlay(objects, width, height, active, handler)
    }

    /** `new fabric.Canvas(element)` followed by `setupTool()` for `tool`. */
    constructor (width: int, height: int, tool: Tool)
      ensures View() == Overlay([], width, height, None, tool) && !disposed
    {
      objects := [];
      this.width := width;
      this.height := height;
      active := None;
      handler := tool;
      disposed := false;
    }

    method Add(shape: Shape)
      modifies this
      ensures objects == old(objects) + [shape]
      ensures width == old(width) && height == old(height) && active == old(active)
      ensures handler == old(handler) && disposed == old(disposed)
    {
      objects := objects + [shape];
    }

    method SetActiveObject(index: nat)
      requires index < |objects|
      modifies this
      ensures active == Some(index)
      ensures objects == old(objects) && width == old(width) && height == old(height)
      ensures handler == old(handler) && disposed == old(disposed)
    {
      active := Some(index);
    }

    method SetSize(w: int, h: int)
      modifies this
      ensures width == w && height == h
      ensures objects == old(objects) && active == old(active)
      ensures handler == old(handler) && disposed == old(disposed)
    {
      width, height := w, h;
    }

    /** Removes the handlers and the objects; the canvas is not used again. */
    method Dispose()
      modifies this
      ensures disposed && objects == [] && active.None? && handler == Select
    {
      objects, active, handler, disposed := [], None, Select, true;
    }
  }

  class PdfEditor {
    var pdfUrl: Option<nat>
    var numPages: Option<nat>
    var pageNum: int
    var tool: Tool
    var fabric: FabricCanvas?
    var canvasWidth: nat
    var canvasHeight: nat
    var nextUrl: nat

    ghost function State(): EditorState
      reads this, fabric
    {
      EditorState(pdfUrl, numPages, pageNum, tool,
                  if fabric == null then None else Some(fabric.View()),
                  canvasWidth, canvasHeight, nextUrl)
    }

    ghost predicate Valid()
      reads this, fabric
    {
      Inv(State()) && (fabric != null ==> !fabric.disposed)
    }

    /** Mounting with no file. */
    constructor (tool: Tool)
      ensures Valid() && State() == Initial(tool)
    {
      pdfUrl, numPages, pageNum := None, None, 1;
      this.tool := tool;
      fabric := null;
      canvasWidth, canvasHeight := DefaultCanvasWidth, DefaultCanvasHeight;
      nextUrl := 0;
    }

    /** The canvas-reset effect, run after a handler changed `pdfUrl`, `pageNum` or `tool`. */
    method CanvasEffectAfter(urlBefore: Option<nat>, pageBefore: int, toolBefore: Tool)
      modifies this, fabric
      ensures State() == CanvasEffect(urlBefore, pageBefore, toolBefore, old(State()))
      ensures fabric != old(fabric) ==> fresh(fabric) && !fabric.disposed
      ensures fabric != old(fabric) && old(fabric) != null ==> old(fabric).disposed
      ensures fabric == old(fabric) && fabric != null ==> fabric.disposed == old(fabric.disposed)
      ensures !((old(pdfUrl) != urlBefore || old(pageNum) != pageBefore || old(tool) != toolBefore) && old(pdfUrl).Some?)
              ==> fabric == old(fabric)
    {
      if (pdfUrl != urlBefore || pageNum != pageBefore || tool != toolBefore) && pdfUrl.Some? {
        if fabric != null {
          fabric.Dispose();
        }
        fabric := new FabricCanvas(canvasWidth, canvasHeight, tool);
      }
    }

    /** The file effect, for the `file` prop becoming `f`. */
    method SetFile(f: Option<File>)
      requires Valid()
      modifies this, fabric
      ensures Valid() && State() == FileEffect(old(State()), f)
      ensures fabric != null && fabric != old(fabric) ==> fresh(fabric)
      ensures old(fabric) != null && fabric != old(fabric) ==> old(fabric).disposed
    {
      var urlBefore, pageBefore, toolBefore := pdfUrl, pageNum, tool;
      if f.None? {
        pdfUrl, numPages, pageNum := None, None, 1;
        if fabric != null {
          fabric.Dispose();
          fabric := null;
        }
      } else {
        if pdfUrl.None? {
          canvasWidth, canvasHeight := DefaultCanvasWidth, DefaultCanvasHeight;
        }
        pdfUrl := Some(nextUrl);
        nextUrl := nextUrl + 1;
      }
      CanvasEffectAfter(urlBefore, pageBefore, toolBefore);
      StepPreservesInv(old(State()), FileChosen(f));
    }

    method OnDocumentLoadSuccess(count: nat)
      requires Valid()
      modifies this, fabric
      ensures Valid() && State() == LoadSuccess(old(State()), count)
      ensures fabric != null && fabric != old(fabric) ==> fresh(fabric)
    {
      if pdfUrl.Some? {
        var urlBefore, pageBefore, toolBefore := pdfUrl, pageNum, tool;
        numPages := Some(count);
        pageNum := 1;
        CanvasEffectAfter(urlBefore, pageBefore, toolBefore);
      }
      StepPreservesInv(old(State()), DocumentLoaded(count));
    }

    method HandlePageChange(delta: int)
      requires Valid()
      modifies this, fabric
      ensures Valid() && State() == PageChange(old(State()), delta)
      ensures fabric != null && fabric != old(fabric) ==> fresh(fabric)
    {
      var urlBefore, pageBefore, toolBefore := pdfUrl, pageNum, tool;
      pageNum := ClampPage(pageNum, delta, numPages);
      CanvasEffectAfter(urlBefore, pageBefore, toolBefore);
      StepPreservesInv(old(State()), PageButton(delta));
    }

    /** The `tool` prop becoming `t`. */
    method SetTool(t: Tool)
      requires Valid()
      modifies this, fabric
      ensures Valid() && State() == ToolChange(old(State()), t)
      ensures fabric != null && fabric != old(fabric) ==> fresh(fabric)
    {
      var urlBefore, pageBefore, toolBefore := pdfUrl, pageNum, tool;
      tool := t;
      CanvasEffectAfter(urlBefore, pageBefore, toolBefore);
      StepPreservesInv(old(State()), ToolChosen(t));
    }

    /** The fabric `mouse:down` event at canvas point `(x, y)`, dispatched to the bound handler. */
    method MouseDown(x: real, y: real)
      requires Valid()
      modifies fabric
      ensures Valid() && State() == PointerDown(old(State()), x, y)
    {
      if fabric != null {
        var created := ShapeFor(fabric.handler, x, y);
        if created.Some? {
          fabric.Add(created.value);
          if created.value.IText? {
            fabric.SetActiveObject(|fabric.objects| - 1);
          }
        }
      }
      StepPreservesInv(old(State()), EditorModel.MouseDown(x, y));
    }

    /** The page render finished; `rendered` is the page canvas's size, if the page canvas is found. */
    method HandleRenderSuccess(rendered: Option<CanvasSize>)
      requires Valid()
      modifies this, fabric
      ensures Valid() && State() == RenderSuccess(old(State()), rendered)
      ensures fabric == old(fabric)
    {
      if rendered.Some? && pdfUrl.Some? {
        canvasWidth := rendered.value.width;
        canvasHeight := rendered.value.height;
        fabric.SetSize(rendered.value.width, rendered.value.height);
      }
      StepPreservesInv(old(State()), PageRendered(rendered));
    }

    /** `savePdf(filename)`; `pages` are the page sizes of the document the URL's bytes load into. */
    method HandleSave(filename: string, pages: seq<PageSize>) returns (r: Option<Export>)
      requires Valid()
      ensures r == SaveResult(State(), filename, pages)
    {
      if pdfUrl.None? || fabric == null {
        return None;
      }
      if pageNum < 1 || pageNum > |pages| {
        return None;
      }
      var page := pages[pageNum - 1];
      r := Some(Export(pageNum - 1, 0.0, 0.0, page.width, page.height, 1.0,
                       fabric.objects, fabric.width, fabric.height,
                       DownloadName(filename)));
    }
  }
}
