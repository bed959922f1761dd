# Debug console and dialog, modelled in Dafny

This project models two UI components of the HomewreckersStudio UI scripts.

**The debug console** (`Console.cs`) shows recent log statements.
- The engine calls `OnLog(condition, stackTrace, type)` for each log message.
- `AddStatement` classifies the message by its `LogType`. Warning, Assert, Error and Exception messages are wrapped as `<color="C">message</color>`. `C` is the colour configured for that severity. Log messages are stored verbatim.
- The message is not escaped.
- The statement is enqueued into a queue of at most `m_maxLineCount` statements. After the enqueue, at most one statement is dequeued.
- `UpdateText` rebuilds the text from the queue. A `"\n"` goes before a statement only when the text built so far is non-empty.
- The view is shown and hidden by `Show`/`Hide`, which only call `SetActive` when the flag differs. A backquote key-up toggles it. `Start` hides it. In the Oculus build, the camera pitch also shows or hides it every frame.

**The dialog** (`Dialog.cs`) shows a message with no, one or two buttons.
- Each `Show` overload replaces a different subset of the texts and stored events.
- `OnConfirm`/`OnCancel` hide the dialog first. Then they invoke the stored confirm or cancel event.

Files:
- `log_console.dfy`, module `LogConsole`.
  - Pure part: the classification (`ColourOf`, `Statement`) and its inverse (`Unwrap`, `Message`); the queue step `Enqueued` and its n-step form `EnqueuedAll`; the rendering `Render`, which follows the loop, and the reference `Join`.
  - Class `Console`, whose methods are proved against those functions.
- `dialogs.dfy`, module `Dialogs`.
  - One step function per public operation on a `DialogState` value, and runs of operations (`Run`).
  - Class `Dialog`, whose methods are proved to perform exactly those steps on its fields.
- `ui_scenarios.dfy`, module `UIScenarios`. Concrete runs on freshly loaded components: the repository's dialog test sequence and example runs of the console.

How the engine is represented:
- The log callback is a method call.
- `Input.GetKeyUp(KeyCode.BackQuote)` is a boolean parameter.
- The Oculus pitch test `pitch < -m_showAngle` is an `Option<bool>` parameter. It is `None` in builds without the Oculus partial method.
- The four `ColorUtility.ToHtmlStringRGBA` results are the strings of a `Palette`.
- `Text.text` is a string field.
- `GameObject.SetActive`/`activeSelf` is a boolean field. The console also records every `SetActive` call in `setActiveCalls`.
- A C# `Action` event is an `Action` value; `NoAction` stands for an empty event.
- `Event.Invoke` appends an `Invocation` (the event and the view's active flag at that moment) to `invoked`.

Behaviour of the code that is easy to miss:
- The code does not reject `m_maxLineCount <= 0`. With a maximum of 0 or less, the enqueue-then-dequeue keeps the queue empty, so the invariant is stated with `Capacity(m) = max(m, 0)`.
- The rendering is not a plain join. Leading empty statements add no separator. Empty statements later in the queue do (`RenderSkipsLeadingEmpty`).

## Model

| member | source | states |
|---|---|---|
| `LogConsole.ColourOf` | Assets/HomewreckersStudio/UI/Scripts/Console.cs:144-171 | exactly the Log severity has no colour; Warning, Assert, Error and Exception map to the warning, assertion, error and exception colours |
| `LogConsole.StatementClassification` | Assets/HomewreckersStudio/UI/Scripts/Console.cs:144-182 | Warning, Assert, Error and Exception give `<color="` + colour + `">` + condition + `</color>`; Log gives the condition verbatim |
| `LogConsole.WrapUnwrap` | Assets/HomewreckersStudio/UI/Scripts/Console.cs:181 | stripping the opening and closing tag of a wrapped statement gives back the message, whatever the message contains |
| `LogConsole.UnwrapWrap` | Assets/HomewreckersStudio/UI/Scripts/Console.cs:181 | any string that unwraps to a body is exactly the wrapping of that body (the converse) |
| `LogConsole.StatementRoundTrip` | Assets/HomewreckersStudio/UI/Scripts/Console.cs:173-182 | for every severity the stored statement decodes to exactly the logged condition |
| `LogConsole.MarkupNotEscaped` | Assets/HomewreckersStudio/UI/Scripts/Console.cs:175-182 | the body is not escaped: a Log message spelling out warning markup is stored identically to a warning of its body |
| `LogConsole.EnqueuedCapacity` | Assets/HomewreckersStudio/UI/Scripts/Console.cs:184-189 | a queue within capacity stays within capacity after one enqueue and conditional dequeue |
| `LogConsole.EnqueuedFifo` | Assets/HomewreckersStudio/UI/Scripts/Console.cs:184-189 | the new statement is last; below capacity the queue grows by one with everything kept; at capacity the length is unchanged and exactly the oldest statement is dropped |
| `LogConsole.EnqueuedIsLast` | Assets/HomewreckersStudio/UI/Scripts/Console.cs:184-189 | one AddStatement keeps the last Capacity elements of old queue plus new statement |
| `LogConsole.EnqueuedAllIsWindow` | Assets/HomewreckersStudio/UI/Scripts/Console.cs:184-189 | after any run of statements the queue is exactly the most recent Capacity statements of the whole history, in arrival order |
| `LogConsole.RenderSkipsLeadingEmpty` | Assets/HomewreckersStudio/UI/Scripts/Console.cs:195-210 | the rendered text equals the "\n"-join of the queue from its first non-empty statement on |
| `LogConsole.RenderIsJoin` | Assets/HomewreckersStudio/UI/Scripts/Console.cs:195-210 | when no statement is empty, the text is the statements joined by "\n" with no leading or trailing separator |
| `LogConsole.RenderEmptyIff` | Assets/HomewreckersStudio/UI/Scripts/Console.cs:195-210 | the text is empty exactly when every statement is empty, so an empty queue renders as "" |
| `LogConsole.Console.constructor` | Assets/HomewreckersStudio/UI/Scripts/Console.cs:19-50 | the serialized line limit, palette, text and view flag are as loaded; no SetActive calls yet |
| `LogConsole.Console.Show` | Assets/HomewreckersStudio/UI/Scripts/Console.cs:55-61 | the view is active afterwards; SetActive(true) is called only when it was inactive, so a second Show does nothing |
| `LogConsole.Console.Hide` | Assets/HomewreckersStudio/UI/Scripts/Console.cs:66-72 | the view is inactive afterwards; SetActive(false) is called only when it was active |
| `LogConsole.Console.Awake` | Assets/HomewreckersStudio/UI/Scripts/Console.cs:77-80 | the queue is empty (and so within capacity); nothing else changes |
| `LogConsole.Console.Start` | Assets/HomewreckersStudio/UI/Scripts/Console.cs:101-104 | the console is hidden, with at most one SetActive(false) |
| `LogConsole.Console.Update` | Assets/HomewreckersStudio/UI/Scripts/Console.cs:109-124 | a key-up flips the view flag, with one SetActive call; no key-up leaves it; in the Oculus build the pitch sample then decides the flag |
| `LogConsole.Console.UpdatePartial` | Assets/HomewreckersStudio/UI/Oculus/Scripts/Console.cs:27-39 | when the pitch is below -showAngle (`pitch < -m_showAngle`) the console is shown, otherwise it is hidden, each frame (level-triggered); a no-op outside the Oculus build |
| `LogConsole.Console.OnLog` | Assets/HomewreckersStudio/UI/Scripts/Console.cs:132-137 | the queue takes the classified statement via one enqueue/dequeue step, the text is the rendering of the new queue, the stack trace plays no part, and the capacity invariant is kept |
| `LogConsole.Console.AddStatement` | Assets/HomewreckersStudio/UI/Scripts/Console.cs:142-190 | the queue becomes the enqueue/dequeue step applied to the classified statement; text and view are untouched |
| `LogConsole.Console.UpdateText` | Assets/HomewreckersStudio/UI/Scripts/Console.cs:195-210 | the text becomes the loop's rendering of the queue; the queue is untouched |
| `Dialogs.RunStoredEvents` | Assets/HomewreckersStudio/UI/Scripts/Dialogs/Dialog.cs:65-92 | after any run of operations the stored confirm event is the one of the most recent one- or two-button Show, and the stored cancel event the one of the most recent two-button Show (else the initial ones) |
| `Dialogs.ConfirmFiresLatest` | Assets/HomewreckersStudio/UI/Scripts/Dialogs/Dialog.cs:105-110 | pressing confirm after any run leaves the dialog hidden and fires exactly the most recently stored confirm event, with the view already inactive |
| `Dialogs.CancelFiresLatest` | Assets/HomewreckersStudio/UI/Scripts/Dialogs/Dialog.cs:115-120 | pressing cancel after any run leaves the dialog hidden and fires exactly the most recently stored cancel event, with the view already inactive |
| `Dialogs.CallbacksRunHidden` | Assets/HomewreckersStudio/UI/Scripts/Dialogs/Dialog.cs:105-120 | each press records exactly one Event.Invoke of the stored event, which may be empty; earlier invocations are kept, and every invocation happens after the view was hidden |
| `Dialogs.RunKeepsButtonsConsistent` | Assets/HomewreckersStudio/UI/Scripts/Dialogs/Dialog.cs:52-100 | no operation leaves the cancel button active without the confirm button, once that holds |
| `Dialogs.StaleCancelEvent` | Assets/HomewreckersStudio/UI/Scripts/Dialogs/Dialog.cs:65-75 | a one-button Show after a two-button Show deactivates the cancel button but keeps the old cancel text and event, which a cancel then fires |
| `Dialogs.Dialog.constructor` | Assets/HomewreckersStudio/UI/Scripts/Dialogs/Dialog.cs:19-47 | texts and active flags are as loaded; both events are empty and nothing has been invoked |
| `Dialogs.Dialog.Show` | Assets/HomewreckersStudio/UI/Scripts/Dialogs/Dialog.cs:52-60 | sets the message, deactivates both buttons, activates the view; button texts and events are untouched |
| `Dialogs.Dialog.ShowOneButton` | Assets/HomewreckersStudio/UI/Scripts/Dialogs/Dialog.cs:65-75 | replaces text, confirm text and confirm event; confirm button on, cancel button off, view on; cancel text and cancel event untouched |
| `Dialogs.Dialog.ShowTwoButtons` | Assets/HomewreckersStudio/UI/Scripts/Dialogs/Dialog.cs:80-92 | replaces all three texts and both events; both buttons and the view on |
| `Dialogs.Dialog.Hide` | Assets/HomewreckersStudio/UI/Scripts/Dialogs/Dialog.cs:97-100 | only the view flag changes, to inactive |
| `Dialogs.Dialog.OnConfirm` | Assets/HomewreckersStudio/UI/Scripts/Dialogs/Dialog.cs:105-110 | hides the view, then records one invocation of the stored confirm event made while the view is inactive |
| `Dialogs.Dialog.OnCancel` | Assets/HomewreckersStudio/UI/Scripts/Dialogs/Dialog.cs:115-120 | hides the view, then records one invocation of the stored cancel event made while the view is inactive |
| `Dialogs.Dialog.Awake` | Assets/HomewreckersStudio/UI/Scripts/Dialogs/Dialog.cs:125-128 | the dialog is hidden; nothing else changes |
| `UIScenarios.DialogButtonTest` | Assets/HomewreckersStudio/UI/Scripts/Tests/UITests.cs:50-97 | in the test sequence the one-button confirm fires OnButton, then button 1 (confirm) fires OnButton1 and button 2 (cancel) fires OnButton2, in that order, each with the dialog hidden |
| `UIScenarios.ConsoleLifecycle` | Assets/HomewreckersStudio/UI/Scripts/Console.cs:77-104 | after Awake and Start the queue is empty and the console hidden, with one SetActive(false) only if it was loaded visible |
| `UIScenarios.KeyToggleTwice` | Assets/HomewreckersStudio/UI/Scripts/Console.cs:109-121 | two backquote key-ups restore the visibility, with exactly two SetActive calls |
| `UIScenarios.ShowHideTwice` | Assets/HomewreckersStudio/UI/Scripts/Console.cs:55-72 | Show twice makes at most one SetActive call, Hide twice exactly one more |
| `UIScenarios.FifoEviction` | Assets/HomewreckersStudio/UI/Scripts/Console.cs:184-210 | with three lines, logging A, B, C, D keeps B, C, D and displays "B\nC\nD" |
| `UIScenarios.ColouredTranscript` | Assets/HomewreckersStudio/UI/Scripts/Console.cs:142-210 | with two lines, logging "one", error "two", "three" displays the error-coloured "two", a newline, then "three" |
| `UIScenarios.EmptyStatements` | Assets/HomewreckersStudio/UI/Scripts/Console.cs:195-210 | logging "", "a", "", "b" displays "a\n\nb": the leading empty statement adds no separator, the later one does |

## Left out

- Log subscription in `OnEnable`/`OnDisable` (Console.cs:85-96) is engine event plumbing. The callback is modelled as a direct call to `OnLog`.
- `Input.GetKeyUp` is a boolean parameter of `Update`.
- The Oculus pitch computation (`Math.Pitch(Camera.main.transform)` against the float `m_showAngle`) is a boolean sample. `Math` is not part of this model.
- `ColorUtility.ToHtmlStringRGBA` on float colours is a foreign call. The four colour strings are opaque configuration in `Palette`, and their default values are not modelled.
- Before `Awake` the C# queue is null. The constructor starts it empty instead, and a log message before `Awake` (a null dereference in C#) is not modelled.
- Unity's `Text.text` turns null into the empty string. `UpdateText` starts from "" directly.
- `Event.Invoke` is in a file that is not part of this model. The model records each invocation with the stored event, including an empty one. It does not model what the callback does or whether an empty event is skipped.
- Dialogs.Dialog.Hide: `SetActive(false)` is called even when the view is already hidden. The model keeps only the resulting flag, not a trace of calls.
- Thread safety: the engine delivers log messages on the main thread here, so no concurrency is modelled.
- ResolutionDialog.cs, ResolutionButton.cs, OptionsMenu.cs, Button.cs, SliderOption.cs and ControlButton.cs are engine wiring (resolutions, instantiation, settings, input mappings). They are not part of this model.
