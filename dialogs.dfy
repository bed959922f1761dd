/**
 * A modal dialog: a message with zero, one or two buttons, each button
 * bound to a callback that fires after the dialog has hidden itself.
 */
module Dialogs {

  /** A callback stored in one of the dialog's events; NoAction is an empty event. */
  datatype Action = NoAction | Action(id: nat)

  /** One firing of a stored event, with the view's active flag at that moment. */
  datatype Invocation = Invocation(event: Action, viewActive: bool)

  /** Everything the dialog holds, as one value. */
  datatype DialogState = DialogState(
    text: string,
    confirmText: string,
    cancelText: string,
    confirmActive: bool,
    cancelActive: bool,
    viewActive: bool,
    confirmEvent: Action,
    cancelEvent: Action,
    invoked: seq<Invocation>)

  // ---------------------------------------------------------------------
  // One step per public operation
  // ---------------------------------------------------------------------

  /** Show with no buttons: the stored events and button texts are left as they were. */
  function Shown(s: DialogState, message: string): DialogState
  {
    s.(text := message, confirmActive := false, cancelActive := false, viewActive := true)
  }

  /** Show with a confirm button: the cancel text and cancel event are left as they were. */
  function ShownOneButton(s: DialogState, text: string, confirmText: string, confirmEvent: Action): DialogState
  {
    s.(text := text, confirmText := confirmText, confirmEvent := confirmEvent,
       confirmActive := true, cancelActive := false, viewActive := true)
  }

  /** Show with confirm and cancel buttons: every text and both events are replaced. */
  function ShownTwoButtons(s: DialogState, text: string, confirmText: string, cancelText: string,
                           confirmEvent: Action, cancelEvent: Action): DialogState
  {
    s.(text := text, confirmText := confirmText, cancelText := cancelText,
       confirmEvent := confirmEvent, cancelEvent := cancelEvent,
       confirmActive := true, cancelActive := true, viewActive := true)
  }

  function Hidden(s: DialogState): DialogState
  {
    s.(viewActive := false)
  }

  /** Event.Invoke: the stored event fires and is recorded. */
  function Fired(s: DialogState, event: Action): DialogState
  {
    s.(invoked := s.invoked + [Invocation(event, s.viewActive)])
  }

  /** The confirm button: hide first, then fire the stored confirm event. */
  function Confirmed(s: DialogState): DialogState
  {
    var h := Hidden(s);
    Fired(h, h.confirmEvent)
  }

  /** The cancel button: hide first, then fire the stored cancel event. */
  function Cancelled(s: DialogState): DialogState
  {
    var h := Hidden(s);
    Fired(h, h.cancelEvent)
  }

  // ---------------------------------------------------------------------
  // Runs of operations
  // ---------------------------------------------------------------------

  datatype Op =
    | ShowOp(message: string)
    | ShowOneButtonOp(text: string, confirmText: string, confirmEvent: Action)
    | ShowTwoButtonsOp(text: string, confirmText: string, cancelText: string,
                       confirmEvent: Action, cancelEvent: Action)
    | HideOp
    | ConfirmOp
    | CancelOp

  function Apply(s: DialogState, op: Op): DialogState
  {
    match op
    case ShowOp(m) => Shown(s, m)
    case ShowOneButtonOp(t, ct, ce) => ShownOneButton(s, t, ct, ce)
    case ShowTwoButtonsOp(t, ct, xt, ce, xe) => ShownTwoButtons(s, t, ct, xt, ce, xe)
    case HideOp => Hidden(s)
    case ConfirmOp => Confirmed(s)
    case CancelOp => Cancelled(s)
  }

  /** The dialog after the operations, first to last. */
  function Run(s: DialogState, ops: seq<Op>): DialogState
    decreases |ops|
  {
    if ops == [] then s else Run(Apply(s, ops[0]), ops[1..])
  }

  /** Reference: the confirm event of the most recent Show that set one, else the initial one. */
  function LatestConfirmEvent(ops: seq<Op>, initial: Action): Action
    decreases |ops|
  {
    if ops == [] then initial
    else match ops[|ops| - 1]
      case ShowOneButtonOp(_, _, e) => e
      case ShowTwoButtonsOp(_, _, _, e, _) => e
      case _ => LatestConfirmEvent(ops[..|ops| - 1], initial)
  }

  /** Reference: the cancel event of the most recent two-button Show, else the initial one. */
  function LatestCancelEvent(ops: seq<Op>, initial: Action): Action
    decreases |ops|
  {
    if ops == [] then initial
    else match ops[|ops| - 1]
      case ShowTwoButtonsOp(_, _, _, _, e) => e
      case _ => LatestCancelEvent(ops[..|ops| - 1], initial)
  }

  /** The number of button presses in a run. */
  function Presses(ops: seq<Op>): nat
    decreases |ops|
  {
    if ops == [] then 0 else (if ops[0].ConfirmOp? || ops[0].CancelOp? then 1 else 0) + Presses(ops[1..])
  }

  lemma {:induction false} RunSnoc(s: DialogState, ops: seq<Op>, op: Op)
    ensures Run(s, ops + [op]) == Apply(Run(s, ops), op)
    decreases |ops|
  {
    if ops != [] {
      assert (ops + [op])[1..] == ops[1..] + [op];
      RunSnoc(Apply(s, ops[0]), ops[1..], op);
    }
  }

  /**
   * The events a button would fire are always those stored by the most
   * recent Show that set them; pressing a button never changes them.
   */
  lemma {:induction false} RunStoredEvents(s: DialogState, ops: seq<Op>)
    ensures Run(s, ops).confirmEvent == LatestConfirmEvent(ops, s.confirmEvent)
    ensures Run(s, ops).cancelEvent == LatestCancelEvent(ops, s.cancelEvent)
    decreases |ops|
  {
    if ops != [] {
      var init, op := ops[..|ops| - 1], ops[|ops| - 1];
      assert ops == init + [op];
      RunSnoc(s, init, op);
      RunStoredEvents(s, init);
    }
  }

  /**
   * Pressing confirm after any run hides the dialog and then fires the
   * confirm event of the most recent Show that set one.
   */
  lemma ConfirmFiresLatest(s: DialogState, ops: seq<Op>)
    ensures var r := Run(s, ops + [ConfirmOp]);
      && !r.viewActive
      && r.invoked == Run(s, ops).invoked + [Invocation(LatestConfirmEvent(ops, s.confirmEvent), false)]
  {
    RunSnoc(s, ops, ConfirmOp);
    RunStoredEvents(s, ops);
  }

  /** The same for cancel, with the cancel event of the most recent two-button Show. */
  lemma CancelFiresLatest(s: DialogState, ops: seq<Op>)
    ensures var r := Run(s, ops + [CancelOp]);
      && !r.viewActive
      && r.invoked == Run(s, ops).invoked + [Invocation(LatestCancelEvent(ops, s.cancelEvent), false)]
  {
    RunSnoc(s, ops, CancelOp);
    RunStoredEvents(s, ops);
  }

  /**
   * Every callback fires with the view already hidden, exactly one per button
   * press, and earlier firings are never rewritten.
   */
  lemma {:induction false} CallbacksRunHidden(s: DialogState, ops: seq<Op>)
    ensures var r := Run(s, ops);
      && |r.invoked| == |s.invoked| + Presses(ops)
      && r.invoked[..|s.invoked|] == s.invoked
      && forall i :: |s.invoked| <= i < |r.invoked| ==> !r.invoked[i].viewActive
    decreases |ops|
  {
    if ops != [] {
      var s' := Apply(s, ops[0]);
      CallbacksRunHidden(s', ops[1..]);
      var r := Run(s, ops);
      assert r == Run(s', ops[1..]);
      if ops[0].ConfirmOp? || ops[0].CancelOp? {
        assert |s'.invoked| == |s.invoked| + 1;
        assert !s'.invoked[|s.invoked|].viewActive;
        assert r.invoked[..|s'.invoked|] == s'.invoked;
        assert r.invoked[..|s.invoked|] == s'.invoked[..|s.invoked|];
      } else {
        assert s'.invoked == s.invoked;
      }
    }
  }

  /** A visible cancel button always comes with a visible confirm button. */
  predicate ButtonsConsistent(s: DialogState)
  {
    s.cancelActive ==> s.confirmActive
  }

  lemma {:induction false} RunKeepsButtonsConsistent(s: DialogState, ops: seq<Op>)
    requires ButtonsConsistent(s)
    ensures ButtonsConsistent(Run(s, ops))
    decreases |ops|
  {
    if ops != [] {
      RunKeepsButtonsConsistent(Apply(s, ops[0]), ops[1..]);
    }
  }

  /**
   * A one-button Show after a two-button Show hides the cancel button but
   * keeps the old cancel event and text: cancelling then fires the callback
   * of the earlier dialog.
   */
  lemma StaleCancelEvent(s: DialogState, t1: string, c1: string, x1: string, a: Action, b: Action,
                         t2: string, c2: string, e: Action)
    ensures var shown := Run(s, [ShowTwoButtonsOp(t1, c1, x1, a, b), ShowOneButtonOp(t2, c2, e)]);
      && !shown.cancelActive && shown.cancelText == x1 && shown.cancelEvent == b
      && Cancelled(shown).invoked == s.invoked + [Invocation(b, false)]
  {
    var ops := [ShowTwoButtonsOp(t1, c1, x1, a, b), ShowOneButtonOp(t2, c2, e)];
    var s1 := ShownTwoButtons(s, t1, c1, x1, a, b);
    var s2 := ShownOneButton(s1, t2, c2, e);
    assert ops[1..] == [ShowOneButtonOp(t2, c2, e)];
    assert Run(s1, ops[1..]) == Run(s2, []);
    assert Run(s, ops) == s2;
  }

  // ---------------------------------------------------------------------
  // The dialog component
  // ---------------------------------------------------------------------

  class Dialog {
    var text: string
    var confirmText: string
    var cancelText: string
    var confirmActive: bool
    var cancelActive: bool
    var viewActive: bool
    var confirmEvent: Action
    var cancelEvent: Action
    /** Every Event.Invoke made by the dialog, in order. */
    var invoked: seq<Invocation>

    function Snapshot(): DialogState
      reads this
    {
      DialogState(text, confirmText, cancelText, confirmActive, cancelActive, viewActive,
                  confirmEvent, cancelEvent, invoked)
    }

    /** The component as the scene loads it: both events empty, nothing invoked. */
    constructor (text: string, confirmText: string, cancelText: string,
                 confirmActive: bool, cancelActive: bool, viewActive: bool)
      ensures Snapshot() == DialogState(text, confirmText, cancelText, confirmActive, cancelActive,
                                        viewActive, NoAction, NoAction, [])
    {
      this.text := text;
      this.confirmText := confirmText;
      this.cancelText := cancelText;
      this.confirmActive := confirmActive;
      this.cancelActive := cancelActive;
      this.viewActive := viewActive;
      confirmEvent := NoAction;
      cancelEvent := NoAction;
      invoked := [];
    }

    method Show(message: string)
      modifies this
      ensures Snapshot() == Shown(old(Snapshot()), message)
    {
      text := message;
      confirmActive := false;
      cancelActive := false;
      viewActive := true;
    }

    method ShowOneButton(text: string, confirmText: string, confirmEvent: Action)
      modifies this
      ensures Snapshot() == ShownOneButton(old(Snapshot()), text, confirmText, confirmEvent)
    {
      this.text := text;
      this.confirmText := confirmText;
      this.confirmEvent := confirmEvent;
      confirmActive := true;
      cancelActive := false;
      viewActive := true;
    }

    method ShowTwoButtons(text: string, confirmText: string, cancelText: string,
                          confirmEvent: Action, cancelEvent: Action)
      modifies this
      ensures Snapshot() == ShownTwoButtons(old(Snapshot()), text, confirmText, cancelText, confirmEvent, cancelEvent)
    {
      this.text := text;
      this.confirmText := confirmText;
      this.cancelText := cancelText;
      this.confirmEvent := confirmEvent;
      this.cancelEvent := cancelEvent;
      confirmActive := true;
      cancelActive := true;
      viewActive := true;
    }

    method Hide()
      modifies this
      ensures Snapshot() == Hidden(old(Snapshot()))
    {
      viewActive := false;
    }

    method OnConfirm()
      modifies this
      ensures Snapshot() == Confirmed(old(Snapshot()))
    {
      Hide();
      invoked := invoked + [Invocation(confirmEvent, viewActive)];
    }

    method OnCancel()
      modifies this
      ensures Snapshot() == Cancelled(old(Snapshot()))
    {
      Hide();
      invoked := invoked + [Invocation(cancelEvent, viewActive)];
    }

    method Awake()
      modifies this
      ensures Snapshot() == Hidden(old(Snapshot()))
    {
      Hide();
    }
  }
}
