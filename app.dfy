/**
 * The application shell: the chosen file, the name in the rename box and the active
 * tool, with the editor it renders. The editor receives `file` and `tool` as props, so
 * every change of either here is passed on to it within the same step.
 */
module App {
  import opened Wrappers
  import opened Names
  import opened EditorModel
  import Editor

  /** The three toolbar buttons. */
  datatype ToolButton = BlurButton | EraseButton | TextButton

  /** The tool a button selects; no button selects `Select`, and each button selects its own tool. */
  function ToolFor(b: ToolButton): (t: Tool)
    ensures t != Select
    ensures t == Blur <==> b == BlurButton
    ensures t == Erase <==> b == EraseButton
    ensures t == Text <==> b == TextButton
  {
    match b
    case BlurButton => Blur
    case EraseButton => Erase
    case TextButton => Text
  }

  class App {
    var file: Option<File>
    var pdfName: string
    var tool: Tool
    const editor: Editor.PdfEditor

    ghost predicate Valid()
      reads this, editor, editor.fabric
    {
      && editor.Valid()
      && editor.tool == tool
      && (file.None? <==> editor.pdfUrl.None?)
    }

    constructor ()
      ensures Valid() && fresh(editor)
      ensures file.None? && pdfName == "" && tool == Select
      ensures editor.State() == Initial(Select)
    {
      file := None;
      pdfName := "";
      tool := Select;
      editor := new Editor.PdfEditor(Select);
    }

    /** `handleFileChange(f)`: stores the file, derives the name and lets the editor react. */
    method HandleFileChange(f: Option<File>)
      requires Valid()
      modifies this, editor, editor.fabric
      ensures Valid()
      ensures file == f && pdfName == PdfNameFor(f) && tool == old(tool)
      ensures editor.State() == FileEffect(old(editor.State()), f)
    {
      file := f;
      pdfName := PdfNameFor(f);
      editor.SetFile(f);
    }

    /** The file input's change event: the handler runs only when a file was picked. */
    method OnFileInput(picked: seq<File>)
      requires Valid()
      modifies this, editor, editor.fabric
      ensures Valid()
      ensures picked == [] ==> file == old(file) && pdfName == old(pdfName) && editor.State() == old(editor.State())
      ensures picked != [] ==> file == Some(picked[0]) && pdfName == StripPdfSuffix(picked[0].name)
      ensures picked != [] ==> editor.State() == FileEffect(old(editor.State()), Some(picked[0]))
      ensures tool == old(tool)
    {
      if |picked| > 0 {
        HandleFileChange(Some(picked[0]));
      }
    }

    /** Typing in the rename box, which is disabled while no file is chosen. */
    method HandleNameChange(value: string)
      requires Valid()
      modifies this
      ensures Valid()
      ensures pdfName == (if old(file).Some? then value else old(pdfName))
      ensures file == old(file) && tool == old(tool)
    {
      if file.Some? {
        pdfName := value;
      }
    }

    /** A toolbar button: `setTool(...)`, which the editor sees as a new `tool` prop. */
    method SelectTool(b: ToolButton)
      requires Valid()
      modifies this, editor, editor.fabric
      ensures Valid()
      ensures tool == ToolFor(b) && tool != Select
      ensures file == old(file) && pdfName == old(pdfName)
      ensures editor.State() == ToolChange(old(editor.State()), ToolFor(b))
    {
      tool := ToolFor(b);
      editor.SetTool(tool);
    }

    /**
     * The Save button, disabled while no file is chosen: forwards the current name, unchanged,
     * to the editor. `pages` are the page sizes of the document the editor's URL loads into.
     */
    method HandleSave(pages: seq<PageSize>) returns (r: Option<Export>)
      requires Valid()
      ensures r == SaveResult(editor.State(), pdfName, pages)
      ensures file.None? ==> r.None?
    {
      if file.None? {
        return None;
      }
      r := editor.HandleSave(pdfName, pages);
    }
  }
}
