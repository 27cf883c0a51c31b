/**
 * File-name handling of the editor shell: the name shown in the rename box is the
 * chosen file's name without a trailing `.pdf` (matched case-insensitively), and the
 * downloaded file is called `<name>.pdf`, or `edited.pdf` when the name is empty.
 */
module Names {
  import opened Wrappers

  /** A file picked in the browser; only its name matters here. */
  datatype File = File(name: string)

  /** `s` is exactly `.pdf` up to the case of its letters (the regex `\.pdf` with flag `i`). */
  predicate IsPdfExtension(s: string) {
    |s| == 4 && s[0] == '.' && s[1] in "pP" && s[2] in "dD" && s[3] in "fF"
  }

  /** `name` ends with a `.pdf` extension in any letter case (`/\.pdf$/i` matches). */
  predicate HasPdfSuffix(name: string) {
    |name| >= 4 && IsPdfExtension(name[|name| - 4..])
  }

  /** `name.replace(/\.pdf$/i, "")`: removes one trailing extension, and nothing else. */
  function StripPdfSuffix(name: string): (stem: string)
    ensures stem <= name
    ensures HasPdfSuffix(name) ==> IsPdfExtension(name[|stem|..])
    ensures !HasPdfSuffix(name) ==> stem == name
  {
    if HasPdfSuffix(name) then name[..|name| - 4] else name
  }

  /** The name put in the rename box when `f` is chosen: `f?.name.replace(…) || ""`. */
  function PdfNameFor(f: Option<File>): (pdfName: string)
    ensures f.None? ==> pdfName == ""
    ensures f.Some? ==> pdfName <= f.value.name
    ensures f.Some? && !HasPdfSuffix(f.value.name) ==> pdfName == f.value.name
    ensures f.Some? && HasPdfSuffix(f.value.name) ==> |pdfName| == |f.value.name| - 4
  {
    match f
    case None => ""
    case Some(file) => StripPdfSuffix(file.name)
  }

  /** The download name `(filename || "edited") + ".pdf"`: only the empty string is falsy. */
  function DownloadName(filename: string): (r: string)
    ensures |r| >= 4 && r[|r| - 4..] == ".pdf"
    ensures filename != "" ==> r[..|r| - 4] == filename
    ensures filename == "" ==> r == "edited.pdf"
  {
    (if filename == "" then "edited" else filename) + ".pdf"
  }

  /** Re-opening a downloaded file shows the name it was saved under in the rename box. */
  lemma ReopenRecoversName(filename: string)
    ensures PdfNameFor(Some(File(DownloadName(filename)))) == if filename == "" then "edited" else filename
  {
  }

  /** Saving under the name derived from a lower-case `.pdf` file gives back that file name. */
  lemma SaveRestoresPickedName(name: string)
    requires |name| > 4 && name[|name| - 4..] == ".pdf"
    ensures DownloadName(PdfNameFor(Some(File(name)))) == name
  {
  }

  /** Only one extension is removed, only at the very end, in any case. */
  lemma StripExamples()
    ensures StripPdfSuffix("Report.PDF") == "Report"
    ensures StripPdfSuffix("a.pdf.pdf") == "a.pdf"
    ensures StripPdfSuffix("notes.pdfx") == "notes.pdfx"
    ensures StripPdfSuffix("x.pdf.txt") == "x.pdf.txt"
    ensures StripPdfSuffix(".pdf") == ""
  {
  }

  /** A name made only of spaces is not empty, so it is kept rather than replaced by `edited`. */
  lemma BlankNameIsKept()
    ensures DownloadName("  ") == "  .pdf"
    ensures DownloadName("") == "edited.pdf"
  {
  }
}
