# PDF overlay editor: a Dafny model of its state machine

The application opens a PDF and shows one page at a time. A transparent fabric canvas
(the *overlay*) sits over the page. With the blur, erase or text tool, a click on the
overlay adds a grey block, a white block or an editable "Sample Text". Save draws the
overlay over the current page and downloads the result as `<name>.pdf`. The rename box
starts with the chosen file's name, minus its `.pdf` extension.

This project models the editor component (`src/components/PDFEditor.js`) and the
application shell (`src/App.js`):

- `wrappers.dfy` (`Wrappers`): `Option`, which stands for JavaScript's `null`.
- `names.dfy` (`Names`): the name derivation `name.replace(/\.pdf$/i, "")` and the
  download name `(filename || "edited") + ".pdf"`, with the round trips between them.
- `editor_model.dfy` (`EditorModel`): the editor state as a value. It holds the object
  URL, the page count, the page number, the tool, the overlay (its shapes in z-order,
  its size, its active object and the tool whose handler it carries) and the size of
  the overlay's `<canvas>` element. There is one transition function per handler, plus
  the canvas-reset effect. `Inv` is the invariant of every reachable state. The lemmas
  give the properties that hold after one step and after any sequence of events.
- `editor.dfy` (`Editor`): the component as objects. `PdfEditor` has the component's
  fields, and `fabric` refers to the current `FabricCanvas` or is null. Shapes are
  appended to that canvas's list in place. The canvas is disposed and a fresh one is
  allocated whenever the reset effect fires. Each handler method keeps `Valid()`, and
  its new state is the matching `EditorModel` function of the old one.
- `app.dfy` (`App`): the shell's `file`, `pdfName` and `tool` state. Every change to
  `file` or `tool` is passed on to the editor in the same step, because the editor gets
  them as props.

Each React handler is one atomic step. The canvas-reset effect (PDFEditor.js:39-46)
runs at the end of a step only if that step changed `pdfUrl`, `pageNum` or `tool`,
because React skips an effect whose dependencies are equal. It does something only
while the `<canvas>` element is mounted, which is exactly while `pdfUrl` is present. So
a step that changes nothing leaves the shapes alone, for example Previous on page 1 or
re-selecting the current tool. Any other change of page, tool or file empties the
overlay. The code does not keep shapes per page, and it does not rescale them when
the overlay is resized. It exports only the current page and does not cancel
callbacks that arrive late. A name of blanks is kept, so it is saved as `"  .pdf"`.
`NavigateAwayAndBackLosesShapes` shows the loss of shapes on a concrete navigation.

`URL.createObjectURL` is modelled by a counter (`nextUrl`), so every chosen file gets
a URL it never had before. A newly mounted `<canvas>` element has the HTML default
size of 300 by 150 until the first page render resizes it. JavaScript's
`Math.min(null, x)` treats `null` as 0, so with no page count every page change lands
on page 1.

## Model

| member | source | states |
|---|---|---|
| `Names.StripPdfSuffix` | src/App.js:13 | the result is a prefix of the name; exactly one trailing `.pdf` in any letter case is removed, and a name without one is unchanged |
| `Names.PdfNameFor` | src/App.js:11-14 | no file gives `""`; otherwise the name minus a trailing case-insensitive `.pdf`, only at its end |
| `Names.DownloadName` | src/components/PDFEditor.js:146 | the result ends in `.pdf`; before it is the given name, or `edited` when that name is empty |
| `Names.ReopenRecoversName` | src/App.js:13 | re-opening a downloaded file puts the name it was saved under (or `edited`) back in the rename box |
| `Names.SaveRestoresPickedName` | src/components/PDFEditor.js:146 | saving under the name derived from `x.pdf` downloads `x.pdf` again |
| `Names.StripExamples` | src/App.js:13 | `Report.PDF` gives `Report`, `a.pdf.pdf` gives `a.pdf`, and `notes.pdfx` and `x.pdf.txt` stay unchanged |
| `Names.BlankNameIsKept` | src/components/PDFEditor.js:146 | a name of blanks is kept (`"  .pdf"`), and only the empty name becomes `edited.pdf` |
| `EditorModel.Initial` | src/components/PDFEditor.js:13-17 | the state at mount has no URL, no overlay and page 1, and it satisfies the invariant |
| `EditorModel.CanvasEffect` | src/components/PDFEditor.js:39-46 | only the overlay changes; it becomes a new empty one bound to the current tool exactly when a dependency changed and the canvas is mounted |
| `EditorModel.FileEffect` | src/components/PDFEditor.js:23-37 | no file clears URL, page count and overlay and sets page 1; a file sets a URL and keeps page and count |
| `EditorModel.LoadSuccess` | src/components/PDFEditor.js:97-100 | with a document open, the page count becomes the reported one and the page becomes 1 |
| `EditorModel.ClampPage` | src/components/PDFEditor.js:103 | the result is at least 1 and at most the page count; an in-range target is taken as is; no count gives 1 |
| `EditorModel.PageChange` | src/components/PDFEditor.js:102-104 | the new page is the clamped target; URL, count and tool are unchanged |
| `EditorModel.ToolChange` | src/App.js:41 | the tool becomes the chosen one; URL, page and count are unchanged |
| `EditorModel.ShapeFor` | src/components/PDFEditor.js:48-95 | select binds no handler; blur and erase make an 80 by 40 block centred on the pointer (`#bbb` at 0.65, `#fff` at 1); text makes "Sample Text" at the pointer, size 18, `#222`, weight 600 |
| `EditorModel.PointerDown` | src/components/PDFEditor.js:63-91 | only the overlay changes, and an overlay is neither created nor removed |
| `EditorModel.RenderSuccess` | src/components/PDFEditor.js:106-117 | with the page canvas found and a document open, the canvas element takes the rendered size; otherwise nothing changes |
| `EditorModel.SaveResult` | src/components/PDFEditor.js:119-148 | nothing without URL or overlay or when the page does not exist; otherwise the overlay's shapes drawn on page index `pageNum-1` at (0,0), full page size, opacity 1, named by `DownloadName` |
| `EditorModel.StepPreservesInv` | src/components/PDFEditor.js:23-117 | every handler keeps the invariant: page in range, overlay present exactly while a URL is, overlay bound to the current tool and sized like its element |
| `EditorModel.RunPreservesInv` | src/components/PDFEditor.js:23-117 | any sequence of events keeps the invariant |
| `EditorModel.ReachablePageInRange` | src/components/PDFEditor.js:97-104 | in every reachable state the page is in `[1, numPages]`, and it is 1 when there is no count |
| `EditorModel.ReachableOverlayFollowsTool` | src/components/PDFEditor.js:39-50 | in every reachable state an overlay exists exactly while a file is open, and its pointer handler is the current tool's |
| `EditorModel.PageButtons` | src/components/PDFEditor.js:160-174 | a page button is disabled exactly when pressing it would change nothing (Previous at page 1, Next at the last page); an enabled one moves exactly one page |
| `EditorModel.PageChangeWithoutCount` | src/components/PDFEditor.js:103 | with no page count, every page change yields page 1 |
| `EditorModel.ChooseFileResetsOverlay` | src/components/PDFEditor.js:34-46 | choosing a file always gives a URL different from the previous one and an empty overlay with nothing active, bound to the current tool |
| `EditorModel.DependencyChangeDiscardsShapes` | src/components/PDFEditor.js:39-46 | after any step that changes URL, page or tool, no earlier shape survives |
| `EditorModel.OtherStepsKeepShapes` | src/components/PDFEditor.js:39-46 | a step other than a pointer-down that changes none of them keeps the overlay and its shapes in order |
| `EditorModel.PointerDownAppendsOne` | src/components/PDFEditor.js:48-95 | with a document open and a drawing tool, exactly the tool's object is appended after the unchanged shapes, and a text becomes active; select or no document changes nothing |
| `EditorModel.RenderSyncsOverlaySize` | src/components/PDFEditor.js:108-114 | after a render the overlay's size equals the rendered page canvas's size; shapes are kept and not rescaled |
| `EditorModel.NavigateAwayAndBackLosesShapes` | src/components/PDFEditor.js:39-46 | Next then Previous from page 1 returns to page 1 with an empty overlay |
| `EditorModel.SaveNeedsDocument` | src/components/PDFEditor.js:119-130 | save produces nothing while no file is open; with a file and an existing page it exports page index `pageNum-1` |
| `Editor.FabricCanvas.constructor` | src/components/PDFEditor.js:42-43 | a new canvas has no objects, nothing active, the given size and the given tool's handler |
| `Editor.FabricCanvas.Add` | src/components/PDFEditor.js:63 | the object is appended at the end; nothing else changes |
| `Editor.FabricCanvas.SetActiveObject` | src/components/PDFEditor.js:91 | the given object becomes active; nothing else changes |
| `Editor.FabricCanvas.SetSize` | src/components/PDFEditor.js:112-113 | width and height become the given ones; objects are kept |
| `Editor.FabricCanvas.Dispose` | src/components/PDFEditor.js:41 | the canvas is disposed, with no objects and no handler |
| `Editor.PdfEditor.constructor` | src/components/PDFEditor.js:13-17 | the mounted editor is valid and in the initial state |
| `Editor.PdfEditor.CanvasEffectAfter` | src/components/PDFEditor.js:39-46 | the new state is `CanvasEffect` of the old one; a replaced canvas is disposed and its successor is freshly allocated |
| `Editor.PdfEditor.SetFile` | src/components/PDFEditor.js:23-37 | keeps `Valid()`; the new state is `FileEffect` of the old one; a dropped canvas is disposed |
| `Editor.PdfEditor.OnDocumentLoadSuccess` | src/components/PDFEditor.js:97-100 | keeps `Valid()`; the new state is `LoadSuccess` of the old one |
| `Editor.PdfEditor.HandlePageChange` | src/components/PDFEditor.js:102-104 | keeps `Valid()`; the new state is `PageChange` of the old one |
| `Editor.PdfEditor.SetTool` | src/components/PDFEditor.js:39-46 | keeps `Valid()`; the new state is `ToolChange` of the old one |
| `Editor.PdfEditor.MouseDown` | src/components/PDFEditor.js:48-95 | keeps `Valid()`; the new state is `PointerDown` of the old one, appending in place to the current canvas |
| `Editor.PdfEditor.HandleRenderSuccess` | src/components/PDFEditor.js:106-117 | keeps `Valid()` and the same canvas; the new state is `RenderSuccess` of the old one |
| `Editor.PdfEditor.HandleSave` | src/components/PDFEditor.js:119-148 | changes nothing and returns `SaveResult` of the current state |
| `App.ToolFor` | src/App.js:38-58 | each toolbar button selects its own tool, and none selects `select` |
| `App.App.constructor` | src/App.js:5-9 | no file, empty name, tool `select`, editor in its initial state |
| `App.App.HandleFileChange` | src/App.js:11-14 | stores the file, sets the name to `PdfNameFor` of it, and the editor takes `FileEffect` |
| `App.App.OnFileInput` | src/App.js:35 | nothing happens unless a file was picked; otherwise the first picked file is handled |
| `App.App.HandleNameChange` | src/App.js:16 | the typed name replaces `pdfName` while a file is chosen; with no file the disabled box changes nothing |
| `App.App.SelectTool` | src/App.js:38-58 | the tool becomes the button's, never `select`, and the editor takes `ToolChange` |
| `App.App.HandleSave` | src/App.js:18-20 | forwards the current `pdfName` unchanged and returns the editor's save result; nothing without a file |

## Left out

- JSX rendering, CSS, icons and `src/index.js`: layout with no logic. The page buttons' `disabled` conditions are modelled as `PrevDisabled` and `NextDisabled`.
- Asynchrony: `setTimeout(…, 150)` in the render handler and the `await`s in save. Each handler is one atomic step, and save reads the state at the moment it is called.
- PDF page rasterisation and the PDF.js worker setup. The rendered page canvas's size is an input of `HandleRenderSuccess`. The load callback is only delivered while a document view is mounted, so `LoadSuccess` ignores it when no URL is present.
- fabric internals. The pointer position (`getPointer`) is an input. `renderAll` has no state to model. The PNG export at multiplier 2 is represented by the overlay's shapes and size in the `Export` record. `enterEditing`, later editing of the text, and moving or resizing objects by hand are fabric's built-in interaction and are not modelled.
- pdf-lib byte handling (`load`, `embedPng`, `getSize`, `save`). The document's page sizes are an input of save, and a page index past them yields no result. A failure to fetch or parse the bytes is not modelled.
- Browser I/O. `URL.revokeObjectURL`, the `Blob` and the download link click are not modelled. `URL.createObjectURL` is modelled only as a source of new URLs.
- The `tool` value is a JavaScript string in the source. It is modelled as the four-valued `Tool`, because only the four literals `select`, `blur`, `erase` and `text` ever occur.
- Coordinates and sizes are exact reals and naturals. Floating-point rounding is not modelled.
- `EditorModel.PointerDownAppendsOne`: fabric's own click-selection is not modelled. Every shape is selectable on a canvas created with `selection: true`, so a click on an existing block makes that block fabric's active object before the tool's handler runs. In the model, `active` records only the text that the text tool activates. So the model says a blur or erase click leaves `active` unchanged, and `OverlayInSync` says the active object is a text.
- `App.App.HandleNameChange`: the source handler has no guard. The model puts the input's `disabled={!file}` (src/App.js:67) in the method as a guard, because a disabled input delivers no events.
