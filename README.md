# light-neovim-gtk: a Dafny model of its GUI logic

light-neovim-gtk is a small GTK window that embeds a VTE terminal running
Neovim. It attaches to Neovim's RPC socket and receives `Gui` notifications
that change the terminal's font and background colour. It also keeps the
window's pixel size fitted to the terminal's character grid, and it forwards
window-close requests to the editor. This project models the logic under
those widget calls and proves its properties:

- `Text` (`text.dfy`): splitting on `:`, replacing `_` with a space, and
  reading a decimal size.
- `FontSpec` (`fontspec.dfy`): the `family[:attr]*` font-spec parser. It is
  a left fold specification (`Parse`) plus the loop the source runs
  (`DecodeFont`), proved equal to it. It also holds the echoed
  `let g:GuiFont="…"` command.
- `Router` (`router.dfy`): maps an `(event, args)` notification to at most
  one GUI action.
- `Bridge` (`bridge.dfy`): `class Terminal`. It covers the one-shot attach
  on the first cursor movement, the readiness flag, the GUI-thread callback
  queue, the font and colour handlers, the close gate and the quit call.
  Editor requests, applied fonts and backgrounds are recorded as logs.
- `Sizing` (`sizing.dfy`): `class Window`. It covers the cached-size resize
  controller, the one-shot title-changed recompute, and the delete and
  child-exited signals.

Three points of the code's behaviour are easy to misread:

- A close request that comes before the editor is ready does nothing.
  `on_window_delete` always returns `True` (main.py:118), which stops GTK
  from destroying the window. `Sizing.Window.DeleteEvent` therefore leaves
  `destroyed` unchanged in every case.
- The sizing handler compares the cached size with the new *allocation*
  (main.py:153), not with the newly computed target.
- The quit call swallows `NvimError`, the editor's own error (main.py:123).
  Every other error propagates.

## Model

| member | source | states |
|---|---|---|
| `Text.Split` | main.py:97 | Like Python's `split(':')`: there is at least one segment, empty segments are kept, no segment contains the separator, and joining the segments gives back the input |
| `Text.SplitJoin` | main.py:97 | Splitting a join of separator-free segments gives back those segments, so `Split` and `Join` are inverses |
| `Text.FirstSegment` | main.py:97 | The first segment (the family) is the prefix of the input before the first `:`, or the whole input if there is no `:` |
| `Text.UnderscoresToSpaces` | main.py:98 | Same length as the input; each `_` becomes a space and every other character stays where it is; no `_` is left |
| `Text.ParseNat` | main.py:102 | Gives a number exactly when the text is a non-empty string of decimal digits |
| `Text.ShowNat` | main.py:102 | The decimal spelling of a number is a non-empty digit string |
| `Text.ParseShowNat` | main.py:102 | Reading back the decimal spelling of `n` gives `n` |
| `Text.ShowParseNat` | main.py:102 | The other direction: a digit string with no leading `0` (or `0` itself) is the spelling of the value read from it, so the value is fixed |
| `Text.DigitsValuePositive` | main.py:102 | A digit string that does not start with `0` has a positive value |
| `Text.LeadingZero` | main.py:102 | A leading `0` does not change the value read, so `014` reads as 14 and every digit string's value is fixed |
| `FontSpec.Initial` | main.py:98 | The description built from the family alone has no size, normal weight and normal style. Its family has the input's length and contains no `_` (pointwise content in `Text.UnderscoresToSpaces`) |
| `FontSpec.ApplyAttribute` | main.py:100-106 | One attribute step raises exactly on a bad attribute. It keeps the family and sets bold, italic or size only when the attribute's first letter is `b`, `i` or `h` |
| `FontSpec.ApplyAttributes` | main.py:99-106 | The left fold over the attributes never changes the family. It is fully characterised by the lemmas below: `ErrorIff`, `BoldIff`, `ItalicIff`, `SizeIsLast`, `UnknownIgnored`, `ApplyAttributesSnoc` |
| `FontSpec.Parse` | main.py:97-106 | The whole parser: on success the family is the decoded first `:`-segment (see `ParsedFamily`), and the attributes are folded as `ApplyAttributes` states |
| `FontSpec.DecodeFont` | main.py:97-106 | The source's attribute loop, which updates the descriptor in place, computes exactly the fold specification `Parse`, including where it raises |
| `FontSpec.ApplyAttributesSnoc` | main.py:99-106 | Attributes are applied left to right: folding over `attrs + [a]` is folding over `attrs` and then applying `a` |
| `FontSpec.ErrorIff` | main.py:99-102 | Parsing fails exactly when some attribute is empty (unguarded `attr[0]`) or is an `h` whose text is not a size |
| `FontSpec.BoldIff` | main.py:103-104 | The result is bold exactly when some attribute starts with `b` (or the start was bold) |
| `FontSpec.ItalicIff` | main.py:105-106 | The result is italic exactly when some attribute starts with `i` (or the start was italic) |
| `FontSpec.SizeIsLast` | main.py:99-102 | The size is that of the last `h` attribute (a reference definition read from the back), or unchanged if there is none |
| `FontSpec.UnknownIgnored` | main.py:99-106 | Adding an attribute whose first letter is not `h`, `b` or `i` anywhere in the list does not change the result |
| `FontSpec.ParsedFamily` | main.py:97-98 | The parsed family is the text before the first `:` with every `_` replaced by a space |
| `FontSpec.ParseOfJoin` | main.py:97-106 | A spec built as `family:attr1:…` parses to the fold of exactly those attributes over the decoded family |
| `FontSpec.SizeAttribute` | main.py:101-102 | `h` followed by the decimal spelling of `n` sets the size to `n` and nothing else |
| `FontSpec.ExampleFull` | main.py:96-106 | `Monospace_10:h14:b:i` gives family `Monospace 10`, size 14, bold and italic |
| `FontSpec.ExampleFullSplit` | main.py:97 | `Monospace_10:h14:b:i` splits into the family `Monospace_10` and the attributes `h14`, `b`, `i` |
| `FontSpec.ExampleFullJoin` | main.py:97 | Joining `Monospace_10`, `h14`, `b`, `i` with `:` gives `Monospace_10:h14:b:i` |
| `FontSpec.ExampleFullAttributes` | main.py:98-106 | Applying `h14`, `b`, `i` to the family `Monospace_10` gives `Monospace 10`, size 14, bold and italic |
| `FontSpec.ExampleUnknown` | main.py:99-106 | `Foo:x9` gives the family alone: the unknown attribute is ignored and nothing raises |
| `FontSpec.ExampleEmpty` | main.py:100 | `Foo::h12` raises, because its middle attribute is empty |
| `FontSpec.GuiFontCommand` | main.py:108 | The echoed command is `let g:GuiFont="`, then the original font string unmodified, then `"` |
| `FontSpec.GuiFontCommandInjective` | main.py:108 | Different font strings give different echo commands |
| `Router.Route` | main.py:88-94 | Raises exactly for a `Gui` event with no arguments; an action is produced only for the `Gui` event, and the arguments are the sub-command name followed by the action's arguments (`args[1:]`) |
| `Router.RouteNotification` | main.py:88-94 | Inverse of the router: the notification `Gui, [name] + args` produces exactly the action for handler `name` with `args` |
| `Router.RouteIff` | main.py:88-94 | There is an action exactly when the event is `Gui` and `args[0]` is `Font` or `Color`; any event other than `Gui` gives no action |
| `Bridge.Handshake` | main.py:64-67 | The attach requests: `g:gui_channel` is set to the channel id, then the `Gui` subscription is made (both synchronous), then two fire-and-forget commands follow |
| `Bridge.RequestsSent` | main.py:62-67 | How much of the handshake is sent before a raising step stops it: nothing if `attach` raises, one request if setting the variable raises, two if subscribing raises, all four otherwise |
| `Bridge.Terminal.constructor` | main.py:46-57 | The readiness flag starts false, the cursor-moved handler is connected, nothing is attached and no request has been sent |
| `Bridge.Terminal.OnCursorMoved` | main.py:59-76 | Disconnects itself first. It attaches and drops the listen address, then sends the channel id, the `Gui` subscription and the two asynchronous source commands, in that order. It then starts the receive loop and schedules the readiness callback. If `attach`, the variable set or the subscription raises, it stops there: nothing after that step happens, the handler stays disconnected and the terminal can never become ready. The flag stays false in every case |
| `Bridge.Terminal.CursorMoved` | main.py:55-65 | The handler runs only while connected. The first emission does all that `OnCursorMoved` does, including scheduling the readiness callback on success. After it the handler is gone, and a later emission changes nothing |
| `Bridge.CursorMovedTwice` | main.py:59-65 | Two cursor movements attach and subscribe only once, using the channel of the first. The readiness state, the callback queue, the pending quits and the font and colour logs are as the first movement left them |
| `Bridge.CloseGateLifecycle` | main.py:115-118 | On a fresh terminal, a close request schedules no quit, and still none after attaching. Once the readiness callback has run, a close request schedules exactly one quit |
| `Bridge.FailedAttachNeverQuits` | main.py:59-65 | If attaching raises, the terminal never becomes ready and a close request never schedules a quit, even after later cursor movements |
| `Bridge.Terminal.InitCallbackFires` | main.py:73-76 | The delayed callback sets the readiness flag, which never becomes false again |
| `Bridge.Terminal.OnNvimNotification` | main.py:88-94 | Runs only once the receive loop is running. Queues exactly the routed action on the GUI loop, after those already queued, or queues nothing |
| `Bridge.Terminal.NotifyFont` | main.py:96-108 | If parsing succeeds, applies the parsed descriptor and sends exactly one asynchronous `let g:GuiFont="…"` command with the original string. If parsing raises, neither happens |
| `Bridge.Terminal.NotifyColor` | main.py:110-113 | The colour string becomes the terminal's next background |
| `Bridge.Terminal.RunIdleCallback` | main.py:92-94 | Runs and removes the oldest queued action. Raises without effect unless there is exactly one remaining argument; otherwise it applies the font or the colour |
| `Bridge.Terminal.OnWindowDelete` | main.py:115-118 | Always returns true, which suppresses the default destroy. Schedules a quit exactly when the editor is ready |
| `Bridge.Terminal.QuitNvim` | main.py:120-124 | Sends `qa`, swallows `NvimError` and lets every other error propagate |
| `Sizing.Target` | main.py:159-162 | The target is the window's space outside the terminal plus exactly the terminal's padding and `charWidth × columns` (likewise for height) |
| `Sizing.TargetFixpoint` | main.py:152-164 | The target equals the current allocation exactly when the terminal already fills its padded grid |
| `Sizing.TargetFitsGrid` | main.py:159-164 | Once the window has the target and keeps its outside space, the terminal is allocated exactly its padded grid |
| `Sizing.Window.constructor` | main.py:128-144 | Title `NVIM`, no cached size, the one-shot sizing handler connected, no resize yet |
| `Sizing.Window.OnSizeAllocate` | main.py:152-164 | Changes nothing when the allocation equals the cached size or the window is maximized. Otherwise it caches the target and issues exactly one resize to it. The cache is always the last size requested |
| `Sizing.AllocateTwice` | main.py:152-164 | After a resize, the allocation of the target size that follows causes no second resize |
| `Sizing.Window.InitializeSize` | main.py:146-150 | Disconnects itself and clears the cache, so the recompute is skipped only when the window is maximized |
| `Sizing.Window.TitleChanged` | main.py:137-150 | Copies the title, then runs the sizing handler only on the first title change; later title changes do not invalidate the cache |
| `Sizing.Window.DeleteEvent` | main.py:140 | Passes the close request to the terminal's gate; the window is never destroyed this way |
| `Sizing.Window.ChildExited` | main.py:135-136 | When the editor process exits, the window is destroyed |

## Left out

- Text.ParseNat: `float(attr[1:])` also accepts fractions, signs, exponents and surrounding blanks. The model accepts only decimal digit strings and treats anything else as the raised error, because converting with floating point and multiplying by `Pango.SCALE` is left out.
- Pango's font description grammar: Pango reads the family string with its own description grammar, which can pick out size or style words such as the `10` in `Monospace 10`. That grammar belongs to the toolkit, so the model keeps the decoded string as the family.
- Router.Route: notification arguments are modelled as strings. A non-string first argument never equals `Font` or `Color`, so it is dropped. A non-string argument after `Font` or `Color` is passed unchecked to the handler, which raises on it (for example `.split` on a number at main.py:97). The model does not capture those raises.
- Widget calls (`set_font`, `set_color_background`, `resize`, `get_allocation`, padding and style queries, CSS provider, cursor blink, mouse autohide, icon): toolkit library. Their results are method parameters, and their effects are the `fonts`, `backgrounds` and `resizes` logs.
- Colour-string parsing (`Gdk.RGBA.parse`): toolkit grammar. `NotifyColor` records the string it is given.
- Process spawn (`_spawn`), socket path generation with `uuid`, and `neovim.attach`: process and RPC I/O. The socket path is a constructor parameter, and the attached client is its channel id. Whether `attach`, the variable set or the subscription raises is an `AttachFailure` parameter of `OnCursorMoved`. The asynchronous commands and the thread start are taken not to raise.
- The background receive thread, `GLib.idle_add` and `async_call`: concurrency. They are modelled as the terminal's FIFO `idleQueue` and the `pendingQuits` counter, which are run by explicit method calls.
- The 100 ms `call_later` delay: wall-clock timing. Only the transition it triggers is modelled (`InitCallbackFires`).
- `_on_nvim_request`, which does nothing, and `main()`, which is toolkit start-up.
