/**
 * The AI IDE (`components/ide/ai-ide.tsx`): file tabs with a "modified" dot,
 * a run/stop button, a console, and an AI prompt whose answer is written into
 * a tab three seconds after the prompt was sent.
 */
module AiIde {
  import opened Wrappers
  import opened Text
  import opened Lists
  import opened Console
  import opened Preview

  datatype FileTab = FileTab(id: string, name: string, language: string, content: string, modified: bool)

  /** `files.map(file => file.id === tab ? { ...file, content, modified: true } : file)` */
  function Edited(files: seq<FileTab>, tab: string, content: string): (r: seq<FileTab>)
    ensures |r| == |files|
    ensures forall i :: 0 <= i < |files| && files[i].id == tab ==> r[i] == files[i].(content := content, modified := true)
    ensures forall i :: 0 <= i < |files| && files[i].id != tab ==> r[i] == files[i]
  {
    MapWhere(files, (f: FileTab) => f.id == tab, (f: FileTab) => f.(content := content, modified := true))
  }

  /**
   * An edit keeps the tabs and their order, marks the edited tab modified and
   * never clears a modified dot; an edit of an unknown tab changes nothing.
   */
  lemma EditedProperties(files: seq<FileTab>, tab: string, content: string)
    ensures forall i :: 0 <= i < |files| ==>
      (Edited(files, tab, content)[i].id == files[i].id &&
       Edited(files, tab, content)[i].modified == (files[i].modified || files[i].id == tab))
    ensures (forall i :: 0 <= i < |files| ==> files[i].id != tab) ==> Edited(files, tab, content) == files
  {
  }

  /** The tab the editor shows: the first file whose id is the active tab, if any. */
  function ActiveFile(files: seq<FileTab>, tab: string): (r: Option<FileTab>)
    ensures r.None? <==> forall i :: 0 <= i < |files| ==> files[i].id != tab
    ensures r.Some? ==> r.value.id == tab && r.value in files
  {
    Find(files, (f: FileTab) => f.id == tab)
  }

  /** After an edit the editor shows the new text, marked modified. */
  lemma EditShown(files: seq<FileTab>, tab: string, content: string)
    requires ActiveFile(files, tab).Some?
    ensures ActiveFile(Edited(files, tab, content), tab) == Some(ActiveFile(files, tab).value.(content := content, modified := true))
  {
    var e := Edited(files, tab, content);
    var k :| 0 <= k < |files| && files[k] == ActiveFile(files, tab).value && files[k].id == tab
      && forall j :: 0 <= j < k ==> files[j].id != tab;
    FindAt(e, (f: FileTab) => f.id == tab, k);
  }

  const CodeHead: string := "// AI Generated Component\nimport React from 'react';\n\nexport default function GeneratedComponent() {\n  return (\n    <div className=\"p-8 bg-gradient-to-br from-blue-50 to-indigo-100 min-h-screen\">\n      <div className=\"max-w-4xl mx-auto\">\n        <h1 className=\"text-4xl font-bold text-gray-900 mb-6\">\n          AI Generated: "
  const CodeMiddle: string := "\n        </h1>\n        <div className=\"bg-white rounded-xl shadow-lg p-6\">\n          <p className=\"text-gray-600\">\n            This component was generated based on your prompt: \""
  const CodeTail: string := "\"\n          </p>\n        </div>\n      </div>\n    </div>\n  );\n}"

  /** The component the simulated assistant writes: a fixed template quoting the prompt twice. */
  function GeneratedCode(prompt: string): (r: string)
    ensures |r| == |CodeHead| + |CodeMiddle| + |CodeTail| + 2 * |prompt|
    ensures r[|CodeHead|..|CodeHead| + |prompt|] == prompt
  {
    CodeHead + prompt + CodeMiddle + prompt + CodeTail
  }

  /** Different prompts give different components: the prompt can be read back off the code. */
  lemma GeneratedCodeInjective(p: string, q: string)
    requires GeneratedCode(p) == GeneratedCode(q)
    ensures p == q
  {
    assert |p| == |q|;
    assert p == GeneratedCode(p)[|CodeHead|..|CodeHead| + |p|];
  }

  /**
   * What `generateWithAI`'s timeout closes over: the files, the active tab and
   * the prompt of the press, and the code, which depends on that prompt alone.
   */
  datatype Pending = Pending(files: seq<FileTab>, tab: string, prompt: string, code: string)

  /**
   * The file list after the timeout, as written: `updateFileContent` of the
   * press-time render edits the press-time list, whatever the list is now.
   */
  function CompletedAsWritten(p: Pending, current: seq<FileTab>): (r: seq<FileTab>)
    ensures |r| == |p.files|
    ensures forall i :: 0 <= i < |p.files| && p.files[i].id != p.tab ==> r[i] == p.files[i]
    ensures forall i :: 0 <= i < |p.files| && p.files[i].id == p.tab ==> r[i] == p.files[i].(content := p.code, modified := true)
  {
    Edited(p.files, p.tab, p.code)
  }

  /** One tab edited during the three seconds: the as-written timeout throws the edit and its dot away. */
  lemma StaleSnapshotLosesEdit()
    ensures var before := [FileTab("a", "a", "ts", "x", false), FileTab("b", "b", "ts", "y", false)];
            var p := Pending(before, "a", "hero", "code");
            var now := Edited(before, "b", "y2");
            var after := CompletedAsWritten(p, now);
            now[1].modified && now[1].content == "y2" && !after[1].modified && after[1].content == "y"
  {
  }

  /** The file list after the timeout, corrected: the answer goes into the press-time tab of the current list. */
  function Completed(p: Pending, current: seq<FileTab>): (r: seq<FileTab>)
    ensures |r| == |current|
    ensures forall i :: 0 <= i < |current| && current[i].id != p.tab ==> r[i] == current[i]
    ensures forall i :: 0 <= i < |current| && current[i].id == p.tab ==>
      r[i] == current[i].(content := p.code, modified := true)
  {
    Edited(current, p.tab, p.code)
  }

  /**
   * The corrected timeout keeps every edit made meanwhile to other tabs, never
   * clears a modified dot, and agrees with the written code when nothing was
   * edited during the wait.
   */
  lemma CompletedKeepsEdits(p: Pending, current: seq<FileTab>)
    ensures forall i :: 0 <= i < |current| && current[i].modified ==> Completed(p, current)[i].modified
    ensures forall i :: 0 <= i < |current| ==> Completed(p, current)[i].id == current[i].id
    ensures current == p.files ==> Completed(p, current) == CompletedAsWritten(p, current)
  {
  }

  /** The generate button: disabled for a blank prompt or while a generation runs. */
  predicate GenerateDisabled(prompt: string, isGenerating: bool) {
    IsBlank(prompt) || isGenerating
  }

  /** The run button is a stop button while running, and disabled while generating. */
  datatype RunPress = Run | Stop | Nothing

  function RunButton(isRunning: bool, isGenerating: bool): (r: RunPress)
    ensures r == Nothing <==> isGenerating
    ensures r == Stop <==> !isGenerating && isRunning
  {
    if isGenerating then Nothing else if isRunning then Stop else Run
  }

  /** The editor's state, the console and the toolbar. */
  class Ide {
    var files: seq<FileTab>
    var activeTab: string
    var isRunning: bool
    var prompt: string
    var isGenerating: bool
    var previewMode: PreviewMode
    var consoleMessages: seq<ConsoleMessage>

    constructor (files: seq<FileTab>, start: nat)
      ensures this.files == files && activeTab == "component.tsx" && !isRunning && prompt == "" && !isGenerating
      ensures previewMode == Desktop
      ensures consoleMessages == [ConsoleMessage("1", Info, "AI IDE initialized successfully", start),
                                  ConsoleMessage("2", Log, "Ready to build amazing applications", start)]
    {
      this.files := files;
      activeTab := "component.tsx";
      isRunning := false;
      prompt := "";
      isGenerating := false;
      previewMode := Desktop;
      consoleMessages := [ConsoleMessage("1", Info, "AI IDE initialized successfully", start),
                          ConsoleMessage("2", Log, "Ready to build amazing applications", start)];
    }

    /** `updateFileContent`: the active tab gets the text and the modified dot. */
    method UpdateFileContent(content: string)
      modifies this`files
      ensures files == Edited(old(files), activeTab, content)
    {
      files := Edited(files, activeTab, content);
    }

    method AddConsoleMessage(kind: ConsoleKind, message: string, now: nat)
      modifies this`consoleMessages
      ensures consoleMessages == old(consoleMessages) + [NewMessage(kind, message, now)]
    {
      consoleMessages := consoleMessages + [NewMessage(kind, message, now)];
    }

    method RunCode(now: nat)
      modifies this`isRunning, this`consoleMessages
      ensures isRunning
      ensures consoleMessages == old(consoleMessages) + [NewMessage(Info, "Starting code execution...", now)]
    {
      isRunning := true;
      AddConsoleMessage(Info, "Starting code execution...", now);
    }

    /** The run's timeout, two seconds later; it fires even when the run was stopped meanwhile. */
    method RunFinished(now: nat)
      modifies this`isRunning, this`consoleMessages
      ensures !isRunning
      ensures consoleMessages == old(consoleMessages) +
        [NewMessage(Log, "Code compiled successfully", now), NewMessage(Info, "Application running on preview", now)]
    {
      AddConsoleMessage(Log, "Code compiled successfully", now);
      AddConsoleMessage(Info, "Application running on preview", now);
      isRunning := false;
    }

    method StopCode(now: nat)
      modifies this`isRunning, this`consoleMessages
      ensures !isRunning
      ensures consoleMessages == old(consoleMessages) + [NewMessage(Warn, "Execution stopped", now)]
    {
      isRunning := false;
      AddConsoleMessage(Warn, "Execution stopped", now);
    }

    /** A press of the run/stop button; a disabled button does nothing. */
    method PressRunButton(now: nat)
      modifies this`isRunning, this`consoleMessages
      ensures isGenerating ==> isRunning == old(isRunning) && consoleMessages == old(consoleMessages)
      ensures !isGenerating ==> isRunning == !old(isRunning)
      ensures !isGenerating && old(isRunning) ==> consoleMessages == old(consoleMessages) + [NewMessage(Warn, "Execution stopped", now)]
      ensures !isGenerating && !old(isRunning) ==> consoleMessages == old(consoleMessages) + [NewMessage(Info, "Starting code execution...", now)]
    {
      var press := RunButton(isRunning, isGenerating);
      if press == Stop {
        StopCode(now);
      } else if press == Run {
        RunCode(now);
      }
    }

    /**
     * `generateWithAI` (the button, or Enter in the prompt box): a blank prompt
     * does nothing; otherwise generation starts and the returned value is what
     * the pending timeout will use. Enter is not blocked while generating.
     */
    method GenerateWithAi(now: nat) returns (pending: Option<Pending>)
      modifies this`isGenerating, this`consoleMessages
      ensures pending.None? <==> IsBlank(old(prompt))
      ensures pending.None? ==> isGenerating == old(isGenerating) && consoleMessages == old(consoleMessages)
      ensures pending.Some? ==> pending.value == Pending(files, activeTab, prompt, GeneratedCode(prompt)) && isGenerating
      ensures pending.Some? ==> consoleMessages == old(consoleMessages) + [NewMessage(Info, "Generating code: " + prompt, now)]
    {
      if IsBlank(prompt) {
        return None;
      }
      isGenerating := true;
      AddConsoleMessage(Info, "Generating code: " + prompt, now);
      pending := Some(Pending(files, activeTab, prompt, GeneratedCode(prompt)));
    }

    /** The generation's timeout, with the corrected file update. */
    method GenerationFinished(p: Pending, now: nat)
      modifies this`files, this`consoleMessages, this`isGenerating, this`prompt
      ensures files == Completed(p, old(files))
      ensures consoleMessages == old(consoleMessages) + [NewMessage(Log, "AI generation completed successfully", now)]
      ensures !isGenerating && prompt == ""
    {
      files := Completed(p, files);
      AddConsoleMessage(Log, "AI generation completed successfully", now);
      isGenerating := false;
      prompt := "";
    }

    method SetPrompt(text: string)
      modifies this`prompt
      ensures prompt == text
    {
      prompt := text;
    }

    method SetActiveTab(tab: string)
      modifies this`activeTab
      ensures activeTab == tab
    {
      activeTab := tab;
    }

    method SetPreviewMode(m: PreviewMode)
      modifies this`previewMode
      ensures previewMode == m
    {
      previewMode := m;
    }

    method ClearConsole()
      modifies this`consoleMessages
      ensures consoleMessages == []
    {
      consoleMessages := [];
    }
  }
}
