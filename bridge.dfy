/**
 * The terminal side of the GUI (`class Terminal` in main.py): it attaches
 * to the editor once, on the first cursor movement; it queues the GUI
 * actions that editor notifications ask for and runs them on the GUI
 * thread; and it decides whether a window-close request asks the editor
 * to quit.  Calls into the editor are recorded as a log of requests,
 * and what the terminal widget is told to show as logs of fonts and
 * background colours.
 */
module Bridge {
  import opened Wrappers
  import opened FontSpec
  import opened Router

  /** A request sent to the editor over the RPC channel. */
  datatype Request =
    | SetVar(name: string, value: int)           // `nvim.vars[name] = value`
    | Subscribe(event: string)                   // `nvim.subscribe(event)`
    | Command(text: string, async: bool)         // `nvim.command(text, async_=...)`
    | QuitCommand(text: string)                  // `nvim.quit(text)`

  /**
   * The requests of the attach handshake, in the order they are sent: the
   * channel id is published and the subscription made (both synchronous)
   * before the two fire-and-forget source commands.
   */
  function Handshake(channel: int): (r: seq<Request>)
    ensures |r| == 4 && r[0] == SetVar("gui_channel", channel) && r[1] == Subscribe(GuiEvent)
    ensures forall k :: 2 <= k < |r| ==> r[k].Command? && r[k].async
  {
    [ SetVar("gui_channel", channel),
      Subscribe(GuiEvent),
      Command("ru plugin/light_neovim_gtk.vim", true),
      Command("ru! ginit.vim", true) ]
  }

  /** The synchronous steps of attaching that can raise, after the handler has already disconnected. */
  datatype AttachFailure =
    | AttachRaised      // `neovim.attach` could not connect
    | SetVarRaised      // setting `g:gui_channel` failed
    | SubscribeRaised   // `subscribe('Gui')` failed

  /** How many handshake requests were sent before `failure` stopped the handler. */
  function RequestsSent(failure: Option<AttachFailure>): (n: nat)
    ensures n <= 4
  {
    match failure
    case None => 4
    case Some(AttachRaised) => 0
    case Some(SetVarRaised) => 1
    case Some(SubscribeRaised) => 2
  }

  /** The errors `nvim.quit` can raise: the editor's own error, or anything else. */
  datatype RpcError = NvimError | OtherRpcError(description: string)

  /** What raises when an idle callback runs on the GUI thread. */
  datatype CallbackError =
    | WrongArgumentCount(count: nat)   // the handler takes one argument
    | FontRejected(error: FontError)

  class Terminal {
    /** The socket path the editor listens on; dropped once attached. */
    var listenAddress: Option<string>
    /** Whether the cursor-moved handler (the attach trigger) is still connected. */
    var cursorHandlerConnected: bool
    /** The attached RPC client, identified by its channel id. */
    var nvim: Option<int>
    /** Whether the receive loop has been started (the whole handshake went through). */
    var receiving: bool
    /** Whether the 100 ms "initialisation complete" callback has been scheduled and not yet run. */
    var initCallbackPending: bool
    /** `_is_vim_inited`: whether a close request may ask the editor to quit. */
    var isVimInited: bool
    /** Every request sent to the editor, oldest first. */
    var requests: seq<Request>
    /** Callbacks posted to the GUI main loop and not yet run, in order. */
    var idleQueue: seq<Action>
    /** Quit calls scheduled on the RPC loop and not yet run. */
    var pendingQuits: nat
    /** Every font descriptor given to the widget, oldest first. */
    var fonts: seq<FontDescriptor>
    /** Every background colour string given to the widget, oldest first. */
    var backgrounds: seq<string>

    /**
     * Connected handler means not yet attached; the listen address is kept
     * until an attach succeeds; what was sent is a prefix of the handshake,
     * all of it once the receive loop runs; notifications, the readiness
     * callback and quits exist only once the loop runs.
     */
    ghost predicate Valid()
      reads this
    {
      (cursorHandlerConnected ==> nvim.None?) &&
      (listenAddress.Some? <==> nvim.None?) &&
      (nvim.None? ==> requests == [] && !receiving) &&
      (nvim.Some? && !receiving ==> |requests| <= 2 && requests == Handshake(nvim.value)[..|requests|]) &&
      (receiving ==> nvim.Some? && |requests| >= 4 && requests[..4] == Handshake(nvim.value)) &&
      (idleQueue != [] || initCallbackPending || isVimInited ==> receiving) &&
      !(initCallbackPending && isVimInited) &&
      (pendingQuits > 0 ==> isVimInited)
    }

    constructor (address: string)
      ensures Valid()
      ensures listenAddress == Some(address) && cursorHandlerConnected && nvim == None
      ensures !receiving && !isVimInited && !initCallbackPending
      ensures requests == [] && idleQueue == [] && pendingQuits == 0 && fonts == [] && backgrounds == []
    {
      listenAddress := Some(address);
      cursorHandlerConnected := true;
      nvim := None;
      receiving := false;
      initCallbackPending := false;
      isVimInited := false;
      requests := [];
      idleQueue := [];
      pendingQuits := 0;
      fonts := [];
      backgrounds := [];
    }

    /**
     * `_on_cursor_moved`: disconnect itself, attach to the editor (whose
     * channel id is `channel`), announce the channel, subscribe, load the
     * plugin and the user's init script, start the receive loop and
     * schedule the readiness callback.  `failure` says which synchronous
     * step raised, if any: the handler is gone by then, so a failed attach
     * leaves the terminal unattached (or half attached) for good, and the
     * readiness flag stays false.
     */
    method OnCursorMoved(channel: int, failure: Option<AttachFailure>) returns (raised: Option<AttachFailure>)
      requires Valid() && cursorHandlerConnected
      modifies this
      ensures Valid() && raised == failure
      ensures !cursorHandlerConnected
      ensures nvim == (if failure == Some(AttachRaised) then None else Some(channel))
      ensures listenAddress == (if failure == Some(AttachRaised) then old(listenAddress) else None)
      ensures requests == Handshake(channel)[..RequestsSent(failure)]
      ensures receiving == initCallbackPending == failure.None?
      ensures !isVimInited
      ensures idleQueue == old(idleQueue) && pendingQuits == old(pendingQuits)
      ensures fonts == old(fonts) && backgrounds == old(backgrounds)
    {
      raised := failure;
      cursorHandlerConnected := false;
      if failure == Some(AttachRaised) {
        return;
      }
      nvim := Some(channel);
      listenAddress := None;
      requests := requests + [SetVar("gui_channel", channel)];
      if failure == Some(SetVarRaised) {
        return;
      }
      requests := requests + [Subscribe(GuiEvent)];
      if failure == Some(SubscribeRaised) {
        return;
      }
      requests := requests + [Command("ru plugin/light_neovim_gtk.vim", true)];
      requests := requests + [Command("ru! ginit.vim", true)];
      receiving := true;
      initCallbackPending := true;
    }

    /**
     * The widget emits `cursor-moved`: the handler runs only while it is
     * connected, so attaching is tried at most once per terminal.
     */
    method CursorMoved(channel: int, failure: Option<AttachFailure>) returns (raised: Option<AttachFailure>)
      requires Valid()
      modifies this
      ensures Valid() && !cursorHandlerConnected && isVimInited == old(isVimInited)
      ensures old(cursorHandlerConnected) ==>
        raised == failure &&
        nvim == (if failure == Some(AttachRaised) then None else Some(channel)) &&
        listenAddress == (if failure == Some(AttachRaised) then old(listenAddress) else None) &&
        requests == Handshake(channel)[..RequestsSent(failure)] &&
        receiving == initCallbackPending == failure.None?
      ensures !old(cursorHandlerConnected) ==>
        raised == None && nvim == old(nvim) && listenAddress == old(listenAddress) &&
        requests == old(requests) && receiving == old(receiving) &&
        initCallbackPending == old(initCallbackPending)
      ensures idleQueue == old(idleQueue) && pendingQuits == old(pendingQuits)
      ensures fonts == old(fonts) && backgrounds == old(backgrounds)
    {
      raised := None;
      if cursorHandlerConnected {
        raised := OnCursorMoved(channel, failure);
      }
    }

    /** The scheduled readiness callback runs: from now on a close request asks the editor to quit. */
    method InitCallbackFires()
      requires Valid() && initCallbackPending
      modifies this`initCallbackPending, this`isVimInited
      ensures Valid() && isVimInited && !initCallbackPending
    {
      initCallbackPending := false;
      isVimInited := true;
    }

    /**
     * `_on_nvim_notification`, run on the receive thread: route the
     * notification and post the resulting action, if any, to the GUI loop.
     */
    method OnNvimNotification(event: string, args: seq<string>) returns (r: Result<Option<Action>, RouteError>)
      requires Valid() && receiving
      modifies this`idleQueue
      ensures Valid()
      ensures r == Route(event, args)
      ensures idleQueue == old(idleQueue) + (if r.Ok? && r.value.Some? then [r.value.value] else [])
    {
      r := Route(event, args);
      if r.Ok? && r.value.Some? {
        idleQueue := idleQueue + [r.value.value];
      }
    }

    /**
     * `_notify_font`: decode the font spec, give it to the widget and echo
     * the spec back to the editor; when decoding raises, nothing happens.
     */
    method NotifyFont(fontStr: string) returns (r: Result<FontDescriptor, FontError>)
      requires Valid() && receiving
      modifies this`fonts, this`requests
      ensures Valid()
      ensures r == Parse(fontStr)
      ensures r.Ok? ==>
        fonts == old(fonts) + [r.value] &&
        requests == old(requests) + [Command(GuiFontCommand(fontStr), true)]
      ensures r.Err? ==> fonts == old(fonts) && requests == old(requests)
    {
      r := DecodeFont(fontStr);
      if r.Ok? {
        fonts := fonts + [r.value];
        requests := requests + [Command(GuiFontCommand(fontStr), true)];
        assert requests[..4] == old(requests)[..4];
      }
    }

    /** `_notify_color`: the colour string goes to the widget's background (its parsing is the toolkit's). */
    method NotifyColor(colorStr: string)
      modifies this`backgrounds
      ensures backgrounds == old(backgrounds) + [colorStr]
    {
      backgrounds := backgrounds + [colorStr];
    }

    /**
     * The GUI main loop runs the oldest posted callback: the handler is
     * called with the action's arguments, so it raises unless there is
     * exactly one.  A raising callback changes nothing; either way it is
     * removed from the queue.
     */
    method RunIdleCallback() returns (r: Result<(), CallbackError>)
      requires Valid() && idleQueue != []
      modifies this`idleQueue, this`fonts, this`backgrounds, this`requests
      ensures Valid()
      ensures idleQueue == old(idleQueue[1..])
      ensures var a := old(idleQueue[0]);
        if |a.args| != 1 then
          r == Err(WrongArgumentCount(|a.args|)) &&
          fonts == old(fonts) && backgrounds == old(backgrounds) && requests == old(requests)
        else if a.handler == FontHandler then
          (r.Ok? <==> Parse(a.args[0]).Ok?) &&
          fonts == old(fonts) + (if r.Ok? then [Parse(a.args[0]).value] else []) &&
          requests == old(requests) + (if r.Ok? then [Command(GuiFontCommand(a.args[0]), true)] else []) &&
          backgrounds == old(backgrounds)
        else
          r.Ok? && backgrounds == old(backgrounds) + [a.args[0]] &&
          fonts == old(fonts) && requests == old(requests)
    {
      var a := idleQueue[0];
      idleQueue := idleQueue[1..];
      if |a.args| != 1 {
        return Err(WrongArgumentCount(|a.args|));
      }
      if a.handler == FontHandler {
        var font := NotifyFont(a.args[0]);
        r := if font.Ok? then Ok(()) else Err(FontRejected(font.error));
      } else {
        NotifyColor(a.args[0]);
        r := Ok(());
      }
    }

    /**
     * `on_window_delete`: always report the event handled, which keeps the
     * toolkit from destroying the window; once the editor is ready, also
     * schedule a quit on the RPC loop.
     */
    method OnWindowDelete() returns (handled: bool)
      requires Valid()
      modifies this`pendingQuits
      ensures Valid() && handled
      ensures pendingQuits == old(pendingQuits) + (if isVimInited then 1 else 0)
    {
      if isVimInited {
        pendingQuits := pendingQuits + 1;
      }
      handled := true;
    }

    /**
     * `_quit_nvim`, run from the RPC loop: send `qa`; `outcome` is what
     * the call raised, if anything.  The editor's own error is swallowed,
     * every other error propagates.
     */
    method QuitNvim(outcome: Option<RpcError>) returns (raised: Option<RpcError>)
      requires Valid() && pendingQuits > 0
      modifies this`pendingQuits, this`requests
      ensures Valid()
      ensures pendingQuits == old(pendingQuits) - 1
      ensures requests == old(requests) + [QuitCommand("qa")]
      ensures raised == if outcome == Some(NvimError) then None else outcome
    {
      pendingQuits := pendingQuits - 1;
      requests := requests + [QuitCommand("qa")];
      assert requests[..4] == old(requests)[..4];
      if outcome == Some(NvimError) {
        raised := None;
      } else {
        raised := outcome;
      }
    }
  }

  /**
   * A second cursor movement finds the handler disconnected: the terminal
   * attaches and subscribes once, with the channel of the first movement.
   */
  method CursorMovedTwice(t: Terminal, first: int, second: int, failure: Option<AttachFailure>)
    requires t.Valid() && t.cursorHandlerConnected
    modifies t
    ensures t.Valid() && !t.cursorHandlerConnected
    ensures t.nvim == (if failure == Some(AttachRaised) then None else Some(first))
    ensures t.requests == Handshake(first)[..RequestsSent(failure)]
    ensures t.receiving == t.initCallbackPending == failure.None?
    ensures t.isVimInited == old(t.isVimInited) && t.pendingQuits == old(t.pendingQuits)
    ensures t.idleQueue == old(t.idleQueue) && t.fonts == old(t.fonts) && t.backgrounds == old(t.backgrounds)
  {
    var _ := t.CursorMoved(first, failure);
    var _ := t.CursorMoved(second, None);
  }

  /**
   * The close gate over a terminal's life: a close request before the
   * editor is attached and ready schedules no quit; once the first cursor
   * movement has attached it and the readiness callback has run, each
   * close request schedules exactly one.
   */
  method CloseGateLifecycle(address: string, channel: int) returns (quitsBefore: nat, quitsAttached: nat, quitsReady: nat)
    ensures quitsBefore == 0 && quitsAttached == 0 && quitsReady == 1
  {
    var t := new Terminal(address);
    var handled := t.OnWindowDelete();
    quitsBefore := t.pendingQuits;
    var _ := t.CursorMoved(channel, None);
    handled := t.OnWindowDelete();
    quitsAttached := t.pendingQuits;
    t.InitCallbackFires();
    handled := t.OnWindowDelete();
    quitsReady := t.pendingQuits;
  }

  /**
   * When attaching raises, the readiness callback is never scheduled and
   * the handler is gone: a close request never asks the editor to quit,
   * however often the cursor moves afterwards.
   */
  method FailedAttachNeverQuits(address: string, channel: int, failure: AttachFailure, later: int)
    returns (ready: bool, quits: nat)
    ensures !ready && quits == 0
  {
    var t := new Terminal(address);
    var _ := t.CursorMoved(channel, Some(failure));
    var _ := t.CursorMoved(later, None);
    var handled := t.OnWindowDelete();
    ready, quits := t.isVimInited || t.initCallbackPending, t.pendingQuits;
  }
}
