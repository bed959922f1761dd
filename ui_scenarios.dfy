/**
 * Concrete runs of the console and the dialog: the repository's UI test
 * sequence and example runs of the console, each on a freshly loaded
 * component.
 */
module UIScenarios {
  import opened LogConsole
  import opened Dialogs

  /**
   * The dialog part of the UI test: a timed message, a one-button dialog
   * whose button opens the two-button dialog, then button 1 (confirm) and
   * button 2 (cancel). Each callback fires once, in order, with the dialog
   * already hidden.
   */
  method DialogButtonTest(onButton: Action, onButton1: Action, onButton2: Action)
    returns (invoked: seq<Invocation>)
    ensures invoked == [Invocation(onButton, false), Invocation(onButton1, false), Invocation(onButton2, false)]
  {
    var d := new Dialog("", "", "", true, true, true);
    d.Awake();
    d.Show("This dialog will close in 2 seconds.");
    d.ShowOneButton("Press the button.", "Button", onButton);
    d.OnConfirm();
    d.ShowTwoButtons("Press button 1.", "Button 1", "Button 2", onButton1, onButton2);
    d.OnConfirm();
    d.ShowTwoButtons("Press button 2.", "Button 1", "Button 2", onButton1, onButton2);
    d.OnCancel();
    invoked := d.invoked;
  }

  /** A freshly loaded console is hidden by Start and its queue is empty after Awake. */
  method ConsoleLifecycle(p: Palette, maxLineCount: int, text: string, visible: bool)
    returns (viewActive: bool, statements: seq<string>, calls: seq<bool>)
    ensures !viewActive && statements == []
    ensures calls == (if visible then [false] else [])
  {
    var c := new Console(maxLineCount, p, text, visible);
    c.Awake();
    c.Start();
    viewActive, statements, calls := c.viewActive, c.statements, c.setActiveCalls;
  }

  /** Two backquote key-ups restore the visibility, with one SetActive call each. */
  method KeyToggleTwice(p: Palette, visible: bool) returns (viewActive: bool, calls: seq<bool>)
    ensures viewActive == visible
    ensures calls == [!visible, visible]
  {
    var c := new Console(12, p, "", visible);
    c.Update(true, None);
    c.Update(true, None);
    viewActive, calls := c.viewActive, c.setActiveCalls;
  }

  /** Show twice activates the view with at most one SetActive call; Hide likewise. */
  method ShowHideTwice(p: Palette, visible: bool) returns (shownCalls: seq<bool>, hiddenCalls: seq<bool>)
    ensures shownCalls == (if visible then [] else [true])
    ensures hiddenCalls == shownCalls + [false]
  {
    var c := new Console(12, p, "", visible);
    c.Show();
    c.Show();
    shownCalls := c.setActiveCalls;
    c.Hide();
    c.Hide();
    hiddenCalls := c.setActiveCalls;
  }

  /** With three lines, A B C D leave B C D: the oldest statement is evicted. */
  method FifoEviction(p: Palette) returns (statements: seq<string>, text: string)
    ensures statements == ["B", "C", "D"]
    ensures text == "B\nC\nD"
  {
    var c := new Console(3, p, "", false);
    c.Awake();
    c.OnLog("A", "", Log);
    c.OnLog("B", "", Log);
    c.OnLog("C", "", Log);
    c.OnLog("D", "", Log);
    statements, text := c.statements, c.text;
    assert statements[..2] == ["B", "C"] && statements[..2][..1] == ["B"];
    assert Render(statements[..2]) == "B" + "\n" + "C";
    assert text == "B" + "\n" + "C" + "\n" + "D";
  }

  /**
   * With two lines, "one", an error "two" and "three" display the coloured
   * "two" above "three"; "one" is gone.
   */
  method ColouredTranscript(p: Palette) returns (text: string)
    ensures text == "<color=\"" + p.error + "\">two</color>" + "\n" + "three"
  {
    var c := new Console(2, p, "", true);
    c.Awake();
    c.OnLog("one", "", Log);
    c.OnLog("two", "", Error);
    c.OnLog("three", "", Log);
    text := c.text;
  }

  /** An empty first statement adds no separator, an empty later one does. */
  method EmptyStatements(p: Palette) returns (text: string)
    ensures text == "a\n\nb"
  {
    var c := new Console(12, p, "", true);
    c.Awake();
    c.OnLog("", "", Log);
    c.OnLog("a", "", Log);
    c.OnLog("", "", Log);
    c.OnLog("b", "", Log);
    text := c.text;
  }
}
