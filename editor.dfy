/** The editor services the REPL drives: terminals and close notifications. Handles are
    numbers the workspace hands out in increasing order, and every call is recorded in
    the workspace's event log, so the order of effects can be stated. */
module Editor {
  import opened Wrappers

  datatype EditorEvent =
    | TerminalCreated(terminal: nat, name: string, shellPath: string, shellArgs: seq<string>)
    | CloseListenerAdded(subscription: nat)
    | TextSent(terminal: nat, text: string)
    | TerminalShown(terminal: nat, preserveFocus: bool)
    | CloseListenerDisposed(subscription: nat)
    | TerminalDisposed(terminal: nat)

  /** The events of sending each of `texts` to terminal `t`, in order. */
  function Sends(t: nat, texts: seq<string>): (es: seq<EditorEvent>)
    ensures |es| == |texts|
    ensures forall i :: 0 <= i < |texts| ==> es[i] == TextSent(t, texts[i])
  {
    if texts == [] then [] else [TextSent(t, texts[0])] + Sends(t, texts[1..])
  }

  lemma SendsAppend(t: nat, texts: seq<string>, text: string)
    ensures Sends(t, texts + [text]) == Sends(t, texts) + [TextSent(t, text)]
  {
  }

  /** The editor workspace: it creates terminals and close listeners and performs what is
      asked of them, recording each call. */
  class Workspace {
    var nextHandle: nat
    var events: seq<EditorEvent>
    /** Whether the editor can open a terminal now; when it cannot, the promise
        `createTerminal` returns rejects. */
    var terminalsAvailable: bool

    constructor (terminalsAvailable: bool)
      ensures nextHandle == 0 && events == [] && this.terminalsAvailable == terminalsAvailable
    {
      nextHandle := 0;
      events := [];
      this.terminalsAvailable := terminalsAvailable;
    }

    /** `await workspace.createTerminal({name, shellPath, shellArgs})`: the new terminal,
        or None when the promise rejects. */
    method CreateTerminal(name: string, shellPath: string, shellArgs: seq<string>) returns (t: Option<nat>)
      modifies this`nextHandle, this`events
      ensures t.Some? <==> terminalsAvailable
      ensures t.Some? ==>
        && t.value == old(nextHandle) && nextHandle == t.value + 1
        && events == old(events) + [TerminalCreated(t.value, name, shellPath, shellArgs)]
      ensures t.None? ==> nextHandle == old(nextHandle) && events == old(events)
    {
      if !terminalsAvailable {
        return None;
      }
      t := Some(nextHandle);
      nextHandle := nextHandle + 1;
      events := events + [TerminalCreated(t.value, name, shellPath, shellArgs)];
    }

    /** `workspace.onDidCloseTerminal(listener)`. */
    method OnDidCloseTerminal() returns (s: nat)
      modifies this`nextHandle, this`events
      ensures s == old(nextHandle) && nextHandle == s + 1
      ensures events == old(events) + [CloseListenerAdded(s)]
    {
      s := nextHandle;
      nextHandle := nextHandle + 1;
      events := events + [CloseListenerAdded(s)];
    }

    /** `terminal.sendText(text)`. */
    method SendText(t: nat, text: string)
      modifies this`nextHandle, this`events
      ensures nextHandle == old(nextHandle)
      ensures events == old(events) + [TextSent(t, text)]
    {
      events := events + [TextSent(t, text)];
    }

    /** `terminal.show(preserveFocus)`. */
    method Show(t: nat, preserveFocus: bool)
      modifies this`nextHandle, this`events
      ensures nextHandle == old(nextHandle)
      ensures events == old(events) + [TerminalShown(t, preserveFocus)]
    {
      events := events + [TerminalShown(t, preserveFocus)];
    }

    /** `subscription.dispose()`. */
    method DisposeListener(s: nat)
      modifies this`nextHandle, this`events
      ensures nextHandle == old(nextHandle)
      ensures events == old(events) + [CloseListenerDisposed(s)]
    {
      events := events + [CloseListenerDisposed(s)];
    }

    /** `terminal.dispose()`. */
    method DisposeTerminal(t: nat)
      modifies this`nextHandle, this`events
      ensures nextHandle == old(nextHandle)
      ensures events == old(events) + [TerminalDisposed(t)]
    {
      events := events + [TerminalDisposed(t)];
    }
  }
}
