/**
 * The window around the terminal (`class Window` in main.py).  It keeps
 * the window's pixel size equal to the terminal's character grid plus the
 * space around it, caching the last size it asked for so that the
 * size-allocate event it causes does not trigger another resize, and it
 * recomputes once, unconditionally, when the terminal first reports a
 * title.  Widget queries are parameters; `resize` calls are recorded.
 */
module Sizing {
  import opened Wrappers
  import Bridge

  /** A width and a height in pixels. */
  datatype Size = Size(width: int, height: int)

  /** The padding of the terminal's style around its character grid. */
  datatype Padding = Padding(left: int, right: int, top: int, bottom: int)

  /** What the window reads from the terminal widget when it computes its size. */
  datatype TerminalGeometry = TerminalGeometry(
    allocation: Size, padding: Padding,
    charWidth: int, charHeight: int, columns: int, rows: int)

  /** The pixel size of the terminal's character grid plus its padding. */
  function GridSize(t: TerminalGeometry): Size
  {
    Size(t.padding.left + t.padding.right + t.charWidth * t.columns,
         t.padding.top + t.padding.bottom + t.charHeight * t.rows)
  }

  /**
   * The size the window asks for: whatever the window currently spends
   * outside the terminal, plus exactly the terminal's padded grid.
   */
  function Target(allocation: Size, t: TerminalGeometry): (s: Size)
    ensures s.width - GridSize(t).width == allocation.width - t.allocation.width
    ensures s.height - GridSize(t).height == allocation.height - t.allocation.height
  {
    Size(allocation.width - t.allocation.width + t.padding.left + t.padding.right + t.charWidth * t.columns,
         allocation.height - t.allocation.height + t.padding.top + t.padding.bottom + t.charHeight * t.rows)
  }

  /**
   * The target is the current allocation exactly when the terminal already
   * occupies its padded grid: a terminal that fits asks for no change.
   */
  lemma TargetFixpoint(allocation: Size, t: TerminalGeometry)
    ensures Target(allocation, t) == allocation <==> t.allocation == GridSize(t)
  {
  }

  /**
   * Once the window has its target size and keeps the same space outside
   * the terminal, the terminal is allocated exactly its padded grid.
   */
  lemma TargetFitsGrid(allocation: Size, t: TerminalGeometry, after: Size)
    requires Target(allocation, t).width - after.width == allocation.width - t.allocation.width
    requires Target(allocation, t).height - after.height == allocation.height - t.allocation.height
    ensures after == GridSize(t)
  {
  }

  class Window {
    const terminal: Bridge.Terminal
    /** The window title, copied from the terminal's. */
    var title: string
    /** `_last_size`: the last size this window asked for, or unknown. */
    var lastSize: Option<Size>
    /** Whether the one-shot title-changed handler `_initialize_size` is still connected. */
    var initHandlerConnected: bool
    /** Every `resize` call, oldest first. */
    var resizes: seq<Size>
    /** Whether the window has been destroyed. */
    var destroyed: bool

    /** The cached size, when known, is the last size asked for. */
    ghost predicate Valid()
      reads this
    {
      lastSize.Some? ==> resizes != [] && resizes[|resizes| - 1] == lastSize.value
    }

    constructor (address: string)
      ensures Valid() && fresh(terminal) && terminal.Valid()
      ensures terminal.listenAddress == Some(address) && terminal.nvim == None && !terminal.isVimInited
      ensures title == "NVIM" && lastSize == None && initHandlerConnected && resizes == [] && !destroyed
    {
      title := "NVIM";
      terminal := new Bridge.Terminal(address);
      lastSize := None;
      initHandlerConnected := true;
      resizes := [];
      destroyed := false;
    }

    /**
     * `_on_size_allocate`: skip when the new allocation is the cached size
     * or the window is maximized; otherwise cache the target and resize to it.
     */
    method OnSizeAllocate(allocation: Size, maximized: bool, t: TerminalGeometry)
      requires Valid()
      modifies this`lastSize, this`resizes
      ensures Valid()
      ensures if old(lastSize) == Some(allocation) || maximized
        then lastSize == old(lastSize) && resizes == old(resizes)
        else lastSize == Some(Target(allocation, t)) && resizes == old(resizes) + [Target(allocation, t)]
    {
      if lastSize == Some(allocation) || maximized {
        return;
      }
      var size := Target(allocation, t);
      lastSize := Some(size);
      resizes := resizes + [size];
    }

    /**
     * `_initialize_size`: disconnect itself, forget the cached size and
     * recompute from the window's current allocation; only maximization
     * can then stop the resize.
     */
    method InitializeSize(allocation: Size, maximized: bool, t: TerminalGeometry)
      requires Valid() && initHandlerConnected
      modifies this`lastSize, this`resizes, this`initHandlerConnected
      ensures Valid() && !initHandlerConnected
      ensures if maximized
        then lastSize == None && resizes == old(resizes)
        else lastSize == Some(Target(allocation, t)) && resizes == old(resizes) + [Target(allocation, t)]
    {
      initHandlerConnected := false;
      lastSize := None;
      OnSizeAllocate(allocation, maximized, t);
    }

    /**
     * The terminal emits `window-title-changed`: first the window copies
     * the title, then the one-shot sizing handler runs if still connected.
     */
    method TitleChanged(newTitle: string, allocation: Size, maximized: bool, t: TerminalGeometry)
      requires Valid()
      modifies this`title, this`lastSize, this`resizes, this`initHandlerConnected
      ensures Valid() && title == newTitle && !initHandlerConnected
      ensures !old(initHandlerConnected) ==> lastSize == old(lastSize) && resizes == old(resizes)
      ensures old(initHandlerConnected) ==>
        if maximized
        then lastSize == None && resizes == old(resizes)
        else lastSize == Some(Target(allocation, t)) && resizes == old(resizes) + [Target(allocation, t)]
    {
      title := newTitle;
      if initHandlerConnected {
        InitializeSize(allocation, maximized, t);
      }
    }

    /** `delete-event`: the terminal decides; since it reports the event handled, the window stays. */
    method DeleteEvent() returns (handled: bool)
      requires terminal.Valid()
      modifies terminal`pendingQuits
      ensures terminal.Valid() && handled && destroyed == old(destroyed)
      ensures terminal.pendingQuits == old(terminal.pendingQuits) + (if terminal.isVimInited then 1 else 0)
    {
      handled := terminal.OnWindowDelete();
    }

    /** `child-exited`: the editor process ended, so the window is destroyed. */
    method ChildExited()
      modifies this`destroyed
      ensures destroyed
    {
      destroyed := true;
    }
  }

  /**
   * The allocation caused by a resize is the cached target, so it is
   * skipped: handling an allocation twice resizes at most once.
   */
  method AllocateTwice(w: Window, allocation: Size, maximized: bool, t: TerminalGeometry, t': TerminalGeometry)
    requires w.Valid()
    modifies w`lastSize, w`resizes
    ensures w.Valid()
    ensures if old(w.lastSize) == Some(allocation) || maximized
      then w.resizes == old(w.resizes)
      else w.resizes == old(w.resizes) + [Target(allocation, t)] && w.lastSize == Some(Target(allocation, t))
  {
    w.OnSizeAllocate(allocation, maximized, t);
    if w.lastSize.Some? {
      w.OnSizeAllocate(w.lastSize.value, maximized, t');
    }
  }
}
