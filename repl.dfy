/** The F# REPL: a process hosted in an editor terminal, started on demand, fed the
    selected lines followed by the `;;` terminator, and forgotten when its terminal closes. */
module Repl {
  import opened Wrappers
  import opened Editor
  import opened Utils

  /** The effects of `dispose()` on a process holding the given listener and terminal:
      the close listener goes first, then the terminal. */
  function DisposeEvents(subscription: Option<nat>, terminal: Option<nat>): seq<EditorEvent>
  {
    (if subscription.Some? then [CloseListenerDisposed(subscription.value)] else []) +
    (if terminal.Some? then [TerminalDisposed(terminal.value)] else [])
  }

  /** One interactive process in an editor terminal. */
  class REPLProcess {
    const title: string
    const progPath: string
    const progArgs: seq<string>
    var consoleTerminal: Option<nat>
    var consoleCloseSubscription: Option<nat>
    /** How many times `onExited` has fired. */
    var exitCount: nat

    constructor (title: string, progPath: string, progArgs: seq<string>)
      ensures this.title == title && this.progPath == progPath && this.progArgs == progArgs
      ensures consoleTerminal == None && consoleCloseSubscription == None && exitCount == 0
    {
      this.title := title;
      this.progPath := progPath;
      this.progArgs := progArgs;
      consoleTerminal := None;
      consoleCloseSubscription := None;
      exitCount := 0;
    }

    /** Without a terminal, create one running the program and listen for terminals
        closing; with one, only bring it to the front. `ok` is false when the promise
        rejects because the editor could not open a terminal: then nothing is held. */
    method Start(ws: Workspace) returns (ok: bool)
      modifies this`consoleTerminal, this`consoleCloseSubscription, ws`nextHandle, ws`events
      ensures ok <==> old(consoleTerminal).Some? || ws.terminalsAvailable
      ensures old(consoleTerminal).Some? ==>
        && consoleTerminal == old(consoleTerminal)
        && consoleCloseSubscription == old(consoleCloseSubscription)
        && ws.nextHandle == old(ws.nextHandle)
        && ws.events == old(ws.events) + [TerminalShown(old(consoleTerminal).value, true)]
      ensures old(consoleTerminal).None? && ws.terminalsAvailable ==>
        && consoleTerminal == Some(old(ws.nextHandle))
        && consoleCloseSubscription == Some(old(ws.nextHandle) + 1)
        && ws.nextHandle == old(ws.nextHandle) + 2
        && ws.events == old(ws.events) + [TerminalCreated(old(ws.nextHandle), title, progPath, progArgs),
                                          CloseListenerAdded(old(ws.nextHandle) + 1)]
      ensures old(consoleTerminal).None? && !ws.terminalsAvailable ==>
        && consoleTerminal == None
        && consoleCloseSubscription == old(consoleCloseSubscription)
        && ws.nextHandle == old(ws.nextHandle)
        && ws.events == old(ws.events)
    {
      if consoleTerminal.Some? {
        ws.Show(consoleTerminal.value, true);
        return true;
      }
      var terminal := ws.CreateTerminal(title, progPath, progArgs);
      if terminal.None? {
        return false;
      }
      consoleTerminal := terminal;
      var subscription := ws.OnDidCloseTerminal();
      consoleCloseSubscription := Some(subscription);
      ok := true;
    }

    /** The close listener `start` registers: it fires `onExited` exactly when the closed
        terminal is this process's own. */
    method OnTerminalClosed(terminal: nat) returns (fired: bool)
      modifies this`exitCount
      ensures fired <==> consoleTerminal == Some(terminal)
      ensures exitCount == old(exitCount) + (if fired then 1 else 0)
    {
      fired := consoleTerminal == Some(terminal);
      if fired {
        exitCount := exitCount + 1;
      }
    }

    method ShowConsole(ws: Workspace, preserveFocus: bool)
      modifies ws`nextHandle, ws`events
      ensures ws.nextHandle == old(ws.nextHandle)
      ensures ws.events == old(ws.events) +
        (if consoleTerminal.Some? then [TerminalShown(consoleTerminal.value, preserveFocus)] else [])
    {
      if consoleTerminal.Some? {
        ws.Show(consoleTerminal.value, preserveFocus);
      }
    }

    method Eval(ws: Workspace, line: string)
      modifies ws`nextHandle, ws`events
      ensures ws.nextHandle == old(ws.nextHandle)
      ensures ws.events == old(ws.events) +
        (if consoleTerminal.Some? then [TextSent(consoleTerminal.value, line)] else [])
    {
      if consoleTerminal.Some? {
        ws.SendText(consoleTerminal.value, line);
      }
    }

    /** Stop listening first, then close the terminal; afterwards neither is held. */
    method Dispose(ws: Workspace)
      modifies this`consoleTerminal, this`consoleCloseSubscription, ws`nextHandle, ws`events
      ensures consoleTerminal == None && consoleCloseSubscription == None
      ensures ws.nextHandle == old(ws.nextHandle)
      ensures ws.events == old(ws.events) + DisposeEvents(old(consoleCloseSubscription), old(consoleTerminal))
    {
      if consoleCloseSubscription.Some? {
        ws.DisposeListener(consoleCloseSubscription.value);
        consoleCloseSubscription := None;
      }
      if consoleTerminal.Some? {
        ws.DisposeTerminal(consoleTerminal.value);
        consoleTerminal := None;
      }
    }
  }

  const ReplTitle: string := "F# REPL"
  const ReplProgram: string := "dotnet"
  const ReplArguments: seq<string> := ["fsi", "--readline+"]

  /** The effects of starting a fresh F# REPL when the workspace's next handle is `h`. */
  function StartEvents(h: nat): seq<EditorEvent>
  {
    [TerminalCreated(h, ReplTitle, ReplProgram, ReplArguments), CloseListenerAdded(h + 1)]
  }

  /** The editor's current document: its file type, its lines, the lines of the visual
      marks `<` and `>`, and the cursor line (all 1-based). */
  datatype Document = Document(filetype: string, lines: seq<string>, selectionStart: int, selectionEnd: int, cursorLine: int)

  /** The effects of `eval` on each of `lines` in turn, by a process holding `terminal`:
      one send per line with a terminal, and nothing without one. */
  function EvalEvents(terminal: Option<nat>, lines: seq<string>): seq<EditorEvent>
  {
    if terminal.Some? then Sends(terminal.value, lines) else []
  }

  /** The loop of `doEval`: each line through `eval`, in order, then the `;;` terminator. */
  method SendBlock(repl: REPLProcess, ws: Workspace, content: seq<string>)
    modifies ws`nextHandle, ws`events
    ensures ws.nextHandle == old(ws.nextHandle)
    ensures ws.events == old(ws.events) + EvalEvents(repl.consoleTerminal, content + [";;"])
  {
    for i := 0 to |content|
      invariant ws.nextHandle == old(ws.nextHandle)
      invariant ws.events == old(ws.events) + EvalEvents(repl.consoleTerminal, content[..i])
    {
      repl.Eval(ws, content[i]);
      if repl.consoleTerminal.Some? {
        SendsAppend(repl.consoleTerminal.value, content[..i], content[i]);
      }
      assert content[..i + 1] == content[..i] + [content[i]];
    }
    repl.Eval(ws, ";;");
    if repl.consoleTerminal.Some? {
      SendsAppend(repl.consoleTerminal.value, content, ";;");
    }
    assert content[..|content|] == content;
  }

  /** The module-level `currentREPL` and the functions that manage it. */
  class ReplModule {
    var currentREPL: REPLProcess?

    /** The current REPL holds a close listener exactly when it holds a terminal. */
    ghost predicate Valid()
      reads this, currentREPL
    {
      currentREPL != null ==> (currentREPL.consoleTerminal.Some? <==> currentREPL.consoleCloseSubscription.Some?)
    }

    /** The current REPL, when there is one, has been started and is listening. */
    ghost predicate Started()
      reads this, currentREPL
    {
      currentREPL != null ==> currentREPL.consoleTerminal.Some? && currentREPL.consoleCloseSubscription.Some?
    }

    constructor ()
      ensures currentREPL == null
    {
      currentREPL := null;
    }

    /** Dispose and drop any current REPL, then create and start a new one whose exit
        clears `currentREPL`. The new REPL stays current even when its start rejects. */
    method CreateREPL(ws: Workspace) returns (ok: bool)
      requires Valid()
      modifies this, currentREPL, ws`nextHandle, ws`events
      ensures Valid() && currentREPL != null && fresh(currentREPL)
      ensures currentREPL.title == ReplTitle && currentREPL.progPath == ReplProgram
      ensures currentREPL.progArgs == ReplArguments && currentREPL.exitCount == 0
      ensures ok <==> ws.terminalsAvailable
      ensures ws.nextHandle == old(ws.nextHandle) + (if ok then 2 else 0)
      ensures ok ==> currentREPL.consoleTerminal == Some(old(ws.nextHandle))
      ensures !ok ==> currentREPL.consoleTerminal == None && currentREPL.consoleCloseSubscription == None
      ensures old(currentREPL) != null ==>
        && old(currentREPL).consoleTerminal == None
        && old(currentREPL).consoleCloseSubscription == None
        && old(currentREPL).exitCount == old(currentREPL.exitCount)
        && ws.events == old(ws.events)
             + DisposeEvents(old(currentREPL.consoleCloseSubscription), old(currentREPL.consoleTerminal))
             + (if ok then StartEvents(old(ws.nextHandle)) else [])
      ensures old(currentREPL) == null ==>
        ws.events == old(ws.events) + (if ok then StartEvents(old(ws.nextHandle)) else [])
    {
      if currentREPL != null {
        currentREPL.Dispose(ws);
        currentREPL := null;
      }
      var repl := new REPLProcess(ReplTitle, ReplProgram, ReplArguments);
      currentREPL := repl;
      ok := repl.Start(ws);
    }

    /** `createREPL` with the failed start undone: a REPL whose terminal could not be
        opened is not kept as `currentREPL`, so the next `doEval` creates one again. */
    method CreateREPLOrReset(ws: Workspace) returns (ok: bool)
      requires Valid()
      modifies this, currentREPL, ws`nextHandle, ws`events
      ensures Valid() && Started()
      ensures ok <==> ws.terminalsAvailable
      ensures ok <==> currentREPL != null
      ensures ws.nextHandle == old(ws.nextHandle) + (if ok then 2 else 0)
      ensures ok ==> fresh(currentREPL) && currentREPL.consoleTerminal == Some(old(ws.nextHandle))
      ensures ws.events == old(ws.events)
        + (if old(currentREPL) != null
           then DisposeEvents(old(currentREPL.consoleCloseSubscription), old(currentREPL.consoleTerminal))
           else [])
        + (if ok then StartEvents(old(ws.nextHandle)) else [])
    {
      ok := CreateREPL(ws);
      if !ok {
        currentREPL := null;
      }
    }

    /** The editor reports that `terminal` closed. The current REPL's close listener runs;
        when it fires `onExited`, the listener `createREPL` attached clears `currentREPL`.
        The exited REPL keeps its terminal and listener. */
    method TerminalClosed(terminal: nat)
      requires Valid()
      modifies this, currentREPL
      ensures Valid()
      ensures old(Started()) ==> Started()
      ensures old(currentREPL) != null ==>
        && old(currentREPL).consoleTerminal == old(currentREPL.consoleTerminal)
        && old(currentREPL).consoleCloseSubscription == old(currentREPL.consoleCloseSubscription)
      ensures old(currentREPL) != null && old(currentREPL.consoleTerminal) == Some(terminal) ==>
        currentREPL == null && old(currentREPL).exitCount == old(currentREPL.exitCount) + 1
      ensures !(old(currentREPL) != null && old(currentREPL.consoleTerminal) == Some(terminal)) ==>
        currentREPL == old(currentREPL) && (currentREPL != null ==> unchanged(currentREPL))
    {
      if currentREPL != null {
        var fired := currentREPL.OnTerminalClosed(terminal);
        if fired {
          currentREPL := null;
        }
      }
    }

    /** `doEval(mode)`: only for an F# document; create a REPL if there is none, then send
        each selected line and the `;;` terminator. `ok` is false when `createREPL`
        rejects, which rejects `doEval` before anything is sent. */
    method DoEval(ws: Workspace, document: Option<Document>, mode: string) returns (ok: bool)
      requires Valid()
      modifies this, currentREPL, ws`nextHandle, ws`events
      ensures Valid()
      ensures document.None? || document.value.filetype != "fsharp" ==>
        && ok
        && currentREPL == old(currentREPL)
        && (currentREPL != null ==> unchanged(currentREPL))
        && ws.nextHandle == old(ws.nextHandle)
        && ws.events == old(ws.events)
      ensures document.Some? && document.value.filetype == "fsharp" && old(currentREPL) != null ==>
        && ok
        && currentREPL == old(currentREPL) && unchanged(currentREPL)
        && var doc := document.value;
           ws.events == old(ws.events)
             + EvalEvents(currentREPL.consoleTerminal,
                          Selection(mode, doc.lines, doc.selectionStart, doc.selectionEnd, doc.cursorLine) + [";;"])
      ensures document.Some? && document.value.filetype == "fsharp" && old(currentREPL) == null ==>
        && currentREPL != null && fresh(currentREPL)
        && (ok <==> ws.terminalsAvailable)
        && (!ok ==> currentREPL.consoleTerminal == None && ws.events == old(ws.events))
        && (ok ==>
              && currentREPL.consoleTerminal == Some(old(ws.nextHandle))
              && var doc := document.value;
                 ws.events == old(ws.events) + StartEvents(old(ws.nextHandle))
                   + Sends(old(ws.nextHandle),
                           Selection(mode, doc.lines, doc.selectionStart, doc.selectionEnd, doc.cursorLine) + [";;"]))
    {
      if document.None? || document.value.filetype != "fsharp" {
        return true;
      }
      if currentREPL == null {
        var started := CreateREPL(ws);
        if !started {
          return false;
        }
      }
      var doc := document.value;
      var content := GetCurrentSelection(mode, doc.lines, doc.selectionStart, doc.selectionEnd, doc.cursorLine);
      SendBlock(currentREPL, ws, content);
      ok := true;
    }
  }

  /** A REPL whose start rejected stays current with no terminal and no close listener, so
      its exit can never fire: every later `doEval` skips `createREPL` and sends nothing,
      even once the editor can open terminals again. */
  method StuckAfterFailedStart() returns (events: seq<EditorEvent>, stuck: bool)
    ensures events == [] && stuck
  {
    var ws := new Workspace(false);
    var m := new ReplModule();
    var document := Some(Document("fsharp", ["1 + 1"], 1, 1, 1));
    var ok := m.DoEval(ws, document, "n");
    ws.terminalsAvailable := true;
    ok := m.DoEval(ws, document, "n");
    events := ws.events;
    stuck := m.currentREPL != null && m.currentREPL.consoleTerminal.None?;
  }

  /** With the failed start undone, the first `doEval` after the editor can open terminals
      again starts the REPL and sends the selection. */
  method RecoversAfterFailedStart() returns (events: seq<EditorEvent>)
    ensures events == StartEvents(0) + Sends(0, ["1 + 1", ";;"])
  {
    var ws := new Workspace(false);
    var m := new ReplModule();
    var ok := m.CreateREPLOrReset(ws);
    ws.terminalsAvailable := true;
    ok := m.DoEval(ws, Some(Document("fsharp", ["1 + 1"], 1, 1, 1)), "n");
    assert Selection("n", ["1 + 1"], 1, 1, 1) + [";;"] == ["1 + 1", ";;"];
    events := ws.events;
  }
}
