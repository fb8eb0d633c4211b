/**
 * The code playground (`components/playground/playground-interface.tsx`):
 * a list of editor files, a console, a run flag, and the preview document
 * assembled from the first html, css and javascript files by replacing the
 * stylesheet link and the script tag with inline copies.
 */
module Playground {
  import opened Wrappers
  import opened Text
  import opened Lists
  import opened Console
  import opened Preview

  datatype EditorFile = EditorFile(id: string, name: string, language: string, content: string)

  /** `files.map(file => file.id === fileId ? { ...file, content } : file)` */
  function WithContent(files: seq<EditorFile>, fileId: string, content: string): (r: seq<EditorFile>)
    ensures |r| == |files|
    ensures forall i :: 0 <= i < |files| && files[i].id == fileId ==> r[i] == files[i].(content := content)
    ensures forall i :: 0 <= i < |files| && files[i].id != fileId ==> r[i] == files[i]
  {
    MapWhere(files, (f: EditorFile) => f.id == fileId, (f: EditorFile) => f.(content := content))
  }

  /** Updating an unknown file changes nothing; updating twice keeps the second text; ids, names and languages never change. */
  lemma WithContentProperties(files: seq<EditorFile>, fileId: string, a: string, b: string)
    ensures (forall i :: 0 <= i < |files| ==> files[i].id != fileId) ==> WithContent(files, fileId, a) == files
    ensures WithContent(WithContent(files, fileId, a), fileId, b) == WithContent(files, fileId, b)
    ensures forall i :: 0 <= i < |files| ==>
      var f := WithContent(files, fileId, a)[i];
      f.id == files[i].id && f.name == files[i].name && f.language == files[i].language
  {
  }

  const StylesheetLink: string := "<link rel=\"stylesheet\" href=\"style.css\">"
  const ScriptTag: string := "<script src=\"script.js\"></script>"

  function IsLanguage(lang: string): EditorFile -> bool {
    (f: EditorFile) => f.language == lang
  }

  /** The stylesheet step: the first css file's text replaces the link, if there is a css file. */
  function WithStyles(html: string, css: Option<EditorFile>): (r: string)
    ensures css.None? ==> r == html
    ensures css.Some? ==> r == ReplaceFirst(html, StylesheetLink, "<style>" + css.value.content + "</style>")
  {
    if css.Some? then ReplaceFirst(html, StylesheetLink, "<style>" + css.value.content + "</style>") else html
  }

  /** The script step: the first javascript file's text replaces the script tag, if there is one. */
  function WithScript(html: string, js: Option<EditorFile>): (r: string)
    ensures js.None? ==> r == html
    ensures js.Some? ==> r == ReplaceFirst(html, ScriptTag, "<script>" + js.value.content + "</script>")
  {
    if js.Some? then ReplaceFirst(html, ScriptTag, "<script>" + js.value.content + "</script>") else html
  }

  /** `generatePreviewHTML`: empty without an html file, otherwise its text after both steps. */
  function PreviewHtml(files: seq<EditorFile>): (r: string)
    ensures Find(files, IsLanguage("html")).None? ==> r == ""
    ensures Find(files, IsLanguage("html")).Some? ==>
      r == WithScript(WithStyles(Find(files, IsLanguage("html")).value.content, Find(files, IsLanguage("css"))),
                      Find(files, IsLanguage("javascript")))
  {
    match Find(files, IsLanguage("html"))
    case None => ""
    case Some(h) =>
      var html := h.content;
      var html' := WithStyles(html, Find(files, IsLanguage("css")));
      WithScript(html', Find(files, IsLanguage("javascript")))
  }

  /** Without a css or javascript file, or without the placeholders, the html file is shown as it is. */
  lemma PreviewUntouched(files: seq<EditorFile>, h: EditorFile)
    requires Find(files, IsLanguage("html")) == Some(h)
    requires Find(files, IsLanguage("css")).None? || FirstOccurrence(h.content, StylesheetLink).None?
    requires Find(files, IsLanguage("javascript")).None? ||
      FirstOccurrence(WithStyles(h.content, Find(files, IsLanguage("css"))), ScriptTag).None?
    ensures PreviewHtml(files) == h.content
  {
  }

  /** A dollar-free stylesheet is inlined exactly where the first link was, and nowhere else. */
  lemma StylesInlined(html: string, css: EditorFile, i: nat)
    requires DollarFree(css.content)
    requires OccursAt(html, StylesheetLink, i) && forall j :: 0 <= j < i ==> !OccursAt(html, StylesheetLink, j)
    ensures WithStyles(html, Some(css)) == html[..i] + "<style>" + css.content + "</style>" + html[i + |StylesheetLink|..]
  {
    assert DollarFree("<style>") && DollarFree("</style>");
    DollarFreeConcat("<style>", css.content);
    DollarFreeConcat("<style>" + css.content, "</style>");
    ReplaceFirstPlain(html, StylesheetLink, "<style>" + css.content + "</style>", i);
  }

  /** The file list, the console and the toolbar state. */
  class Workspace {
    var files: seq<EditorFile>
    var activeFileId: string
    var isRunning: bool
    var previewMode: PreviewMode
    var showPreview: bool
    var consoleMessages: seq<ConsoleMessage>

    constructor (files: seq<EditorFile>, start: nat)
      ensures this.files == files && activeFileId == "index.html" && !isRunning
      ensures previewMode == Desktop && showPreview
      ensures consoleMessages == [ConsoleMessage("1", Info, "AI Playground initialized successfully", start),
                                  ConsoleMessage("2", Log, "Ready to build amazing things!", start)]
    {
      this.files := files;
      activeFileId := "index.html";
      isRunning := false;
      previewMode := Desktop;
      showPreview := true;
      consoleMessages := [ConsoleMessage("1", Info, "AI Playground initialized successfully", start),
                          ConsoleMessage("2", Log, "Ready to build amazing things!", start)];
    }

    /** `updateFile`: the file with that id gets the new text; the rest of the list is unchanged. */
    method UpdateFile(fileId: string, content: string)
      modifies this`files
      ensures files == WithContent(old(files), fileId, content)
    {
      files := WithContent(files, fileId, content);
    }

    /** `addConsoleMessage`: one message at the end, the earlier ones kept. */
    method AddConsoleMessage(kind: ConsoleKind, message: string, now: nat)
      modifies this`consoleMessages
      ensures consoleMessages == old(consoleMessages) + [NewMessage(kind, message, now)]
    {
      consoleMessages := consoleMessages + [NewMessage(kind, message, now)];
    }

    /** `runCode`: running, with an info line. */
    method RunCode(now: nat)
      modifies this`isRunning, this`consoleMessages
      ensures isRunning
      ensures consoleMessages == old(consoleMessages) + [NewMessage(Info, "Running code...", now)]
    {
      isRunning := true;
      AddConsoleMessage(Info, "Running code...", now);
    }

    /** The run's timeout, 1.5 s later: a success line, and no longer running. */
    method RunFinished(now: nat)
      modifies this`isRunning, this`consoleMessages
      ensures !isRunning
      ensures consoleMessages == old(consoleMessages) + [NewMessage(Log, "Code executed successfully", now)]
    {
      AddConsoleMessage(Log, "Code executed successfully", now);
      isRunning := false;
    }

    /** The console's Clear button. */
    method ClearConsole()
      modifies this`consoleMessages
      ensures consoleMessages == []
    {
      consoleMessages := [];
    }

    method TogglePreview()
      modifies this`showPreview
      ensures showPreview == !old(showPreview)
    {
      showPreview := !showPreview;
    }

    method SetPreviewMode(m: PreviewMode)
      modifies this`previewMode
      ensures previewMode == m
    {
      previewMode := m;
    }

    method SetActiveFile(fileId: string)
      modifies this`activeFileId
      ensures activeFileId == fileId
    {
      activeFileId := fileId;
    }

    /** What the preview frame shows and how wide it is. */
    function PreviewDocument(): (r: (string, string))
      reads this
      ensures r == (PreviewHtml(files), PreviewWidth(previewMode))
    {
      (PreviewHtml(files), PreviewWidth(previewMode))
    }
  }
}
