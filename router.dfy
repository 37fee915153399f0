/**
 * The notification router of `Terminal._on_nvim_notification` (main.py):
 * an `(event, args)` notification from the editor turns into at most one
 * GUI action.  Only the `Gui` event is looked at; its first argument names
 * the sub-command (`Font` or `Color`) and the remaining arguments travel
 * with the action.  Every other sub-command is dropped.
 */
module Router {
  import opened Wrappers

  /** The two GUI handlers a notification can be re-dispatched to. */
  datatype Handler = FontHandler | ColorHandler

  /** A GUI-thread callback: the handler and the arguments it will be called with. */
  datatype Action = Action(handler: Handler, args: seq<string>)

  /** The one way routing raises: a `Gui` notification without a sub-command (`args[0]` on an empty list). */
  datatype RouteError = MissingSubcommand

  /** The event name the GUI subscribes to. */
  const GuiEvent := "Gui"

  /** The sub-command string that selects each handler. */
  function SubcommandName(h: Handler): string
  {
    match h
    case FontHandler => "Font"
    case ColorHandler => "Color"
  }

  function Route(event: string, args: seq<string>): (r: Result<Option<Action>, RouteError>)
    ensures r.Err? <==> event == GuiEvent && args == []
    ensures r.Ok? && r.value.Some? ==>
      event == GuiEvent && args == [SubcommandName(r.value.value.handler)] + r.value.value.args
  {
    if event == GuiEvent then
      if args == [] then Err(MissingSubcommand)
      else
        var firstArg := args[0];
        assert args == [firstArg] + args[1..];
        if firstArg == "Font" then Ok(Some(Action(FontHandler, args[1..])))
        else if firstArg == "Color" then Ok(Some(Action(ColorHandler, args[1..])))
        else Ok(None)
    else Ok(None)
  }

  /** The notification that carries an action: the sub-command name followed by the action's arguments. */
  function Notification(a: Action): (args: seq<string>)
  {
    [SubcommandName(a.handler)] + a.args
  }

  /** Every action is produced by exactly its own `Gui` notification: routing inverts `Notification`. */
  lemma RouteNotification(a: Action)
    ensures Route(GuiEvent, Notification(a)) == Ok(Some(a))
  {
    var args := Notification(a);
    assert args[0] == SubcommandName(a.handler) && args[1..] == a.args;
  }

  /**
   * A notification yields an action exactly when the event is `Gui` and the
   * first argument names a handler; all other notifications are dropped
   * (an event other than `Gui` is never even inspected).
   */
  lemma RouteIff(event: string, args: seq<string>)
    ensures (Route(event, args).Ok? && Route(event, args).value.Some?) <==>
      (event == GuiEvent && args != [] && (args[0] == "Font" || args[0] == "Color"))
    ensures event != GuiEvent ==> Route(event, args) == Ok(None)
  {
  }
}
