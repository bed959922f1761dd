/**
 * The debug console: a bounded FIFO transcript of log statements, each
 * coloured by severity, rendered into one text block, and a view that is
 * shown and hidden by a key or (in the Oculus build) by the camera pitch.
 */
module LogConsole {

  datatype Option<T> = None | Some(value: T)

  /** The engine's log severities. */
  datatype LogType = Error | Assert | Warning | Log | Exception

  /**
   * The configured colour of each coloured severity, already converted to
   * the engine's RRGGBBAA text form.
   */
  datatype Palette = Palette(warning: string, assertion: string, error: string, exception: string)

  // ---------------------------------------------------------------------
  // Classification
  // ---------------------------------------------------------------------

  /** The colour a severity is shown in; None means "store the message as it is". */
  function ColourOf(p: Palette, t: LogType): (c: Option<string>)
    ensures c.None? <==> t == Log
    ensures t == Warning ==> c == Some(p.warning)
    ensures t == Assert ==> c == Some(p.assertion)
    ensures t == Error ==> c == Some(p.error)
    ensures t == Exception ==> c == Some(p.exception)
  {
    match t
    case Warning => Some(p.warning)
    case Assert => Some(p.assertion)
    case Error => Some(p.error)
    case Exception => Some(p.exception)
    case Log => None
  }

  const OpenPrefix: string := "<color=\""
  const OpenSuffix: string := "\">"
  const CloseTag: string := "</color>"

  /** The opening tag for a colour. */
  function OpenTag(colour: string): string
  {
    OpenPrefix + colour + OpenSuffix
  }

  /** The rich-text markup around a message; the message itself is not escaped. */
  function Wrap(colour: string, body: string): string
  {
    OpenTag(colour) + body + CloseTag
  }

  /** The statement stored for one log message. */
  function Statement(p: Palette, condition: string, t: LogType): string
  {
    match ColourOf(p, t)
    case None => condition
    case Some(c) => Wrap(c, condition)
  }

  /** Recovers the body of a statement wrapped in the given colour, if it is one. */
  function Unwrap(colour: string, s: string): (r: Option<string>)
    ensures r.Some? ==> |s| == |OpenTag(colour)| + |r.value| + |CloseTag|
  {
    var open := OpenTag(colour);
    if |open| + |CloseTag| <= |s| && s[..|open|] == open && s[|s| - |CloseTag|..] == CloseTag
    then Some(s[|open|..|s| - |CloseTag|])
    else None
  }

  /** The message a statement of severity t was made from, if it is one. */
  function Message(p: Palette, t: LogType, s: string): Option<string>
  {
    match ColourOf(p, t)
    case None => Some(s)
    case Some(c) => Unwrap(c, s)
  }

  lemma WrapUnwrap(colour: string, body: string)
    ensures Unwrap(colour, Wrap(colour, body)) == Some(body)
  {
  }

  lemma UnwrapWrap(colour: string, s: string, body: string)
    requires Unwrap(colour, s) == Some(body)
    ensures Wrap(colour, body) == s
  {
  }

  /** Every statement can be traced back to exactly the message it was made from. */
  lemma StatementRoundTrip(p: Palette, condition: string, t: LogType)
    ensures Message(p, t, Statement(p, condition, t)) == Some(condition)
  {
  }

  /** The four coloured severities wrap the message in their colour; Log keeps it verbatim. */
  lemma StatementClassification(p: Palette, condition: string, t: LogType)
    ensures t == Warning ==> Statement(p, condition, t) == "<color=\"" + p.warning + "\">" + condition + "</color>"
    ensures t == Assert ==> Statement(p, condition, t) == "<color=\"" + p.assertion + "\">" + condition + "</color>"
    ensures t == Error ==> Statement(p, condition, t) == "<color=\"" + p.error + "\">" + condition + "</color>"
    ensures t == Exception ==> Statement(p, condition, t) == "<color=\"" + p.exception + "\">" + condition + "</color>"
    ensures t == Log ==> Statement(p, condition, t) == condition
  {
  }

  /**
   * The message body is not escaped: a plain Log message that spells out the
   * markup is stored exactly as the warning with that body would be.
   */
  lemma MarkupNotEscaped(p: Palette, body: string)
    ensures Statement(p, Wrap(p.warning, body), Log) == Statement(p, body, Warning)
    ensures Message(p, Warning, Statement(p, Wrap(p.warning, body), Log)) == Some(body)
  {
  }

  // ---------------------------------------------------------------------
  // The bounded queue
  // ---------------------------------------------------------------------

  /** The most statements the queue ever holds; a negative maximum keeps it empty. */
  function Capacity(maxLineCount: int): nat
  {
    if maxLineCount < 0 then 0 else maxLineCount
  }

  /** The queue after one statement is enqueued and at most one is dequeued. */
  function Enqueued(q: seq<string>, s: string, maxLineCount: int): seq<string>
  {
    var r := q + [s];
    if |r| > maxLineCount then r[1..] else r
  }

  /** The last n elements of a sequence (all of it when it is shorter). */
  function Last<T>(s: seq<T>, n: nat): (r: seq<T>)
    ensures |r| <= n && |r| <= |s|
    ensures |s| <= n ==> r == s
    ensures r == s[|s| - |r|..]
  {
    if |s| <= n then s else s[|s| - n..]
  }

  lemma EnqueuedCapacity(q: seq<string>, s: string, maxLineCount: int)
    requires |q| <= Capacity(maxLineCount)
    ensures |Enqueued(q, s, maxLineCount)| <= Capacity(maxLineCount)
  {
  }

  /**
   * One enqueue and at most one dequeue: the new statement goes last, and
   * only the previously oldest statement may be dropped, exactly when the
   * queue was full.
   */
  lemma EnqueuedFifo(q: seq<string>, s: string, maxLineCount: int)
    requires |q| <= Capacity(maxLineCount)
    ensures var r := Enqueued(q, s, maxLineCount);
      && (|r| > 0 ==> r[|r| - 1] == s)
      && (|q| < maxLineCount ==> r == q + [s] && |r| == |q| + 1)
      && (|q| >= maxLineCount ==> |r| == |q|)
      && (|q| >= maxLineCount && q != [] ==> r == q[1..] + [s])
  {
  }

  /** The queue after a run of statements, one AddStatement each. */
  function EnqueuedAll(q: seq<string>, xs: seq<string>, maxLineCount: int): seq<string>
    decreases |xs|
  {
    if xs == [] then q else EnqueuedAll(Enqueued(q, xs[0], maxLineCount), xs[1..], maxLineCount)
  }

  lemma LastOfLast<T>(a: seq<T>, b: seq<T>, n: nat)
    ensures Last(Last(a, n) + b, n) == Last(a + b, n)
  {
    var la := Last(a, n);
    var k := |a| - |la|;
    assert a == a[..k] + la;
    assert a + b == a[..k] + (la + b);
  }

  lemma EnqueuedIsLast(q: seq<string>, s: string, maxLineCount: int)
    requires |q| <= Capacity(maxLineCount)
    ensures Enqueued(q, s, maxLineCount) == Last(q + [s], Capacity(maxLineCount))
    ensures |Enqueued(q, s, maxLineCount)| <= Capacity(maxLineCount)
  {
  }

  /**
   * Sliding window: starting from a queue within capacity, after any run of
   * statements the queue holds exactly the most recent Capacity of them, in
   * the order they arrived.
   */
  lemma {:induction false} EnqueuedAllIsWindow(q: seq<string>, xs: seq<string>, maxLineCount: int)
    requires |q| <= Capacity(maxLineCount)
    ensures EnqueuedAll(q, xs, maxLineCount) == Last(q + xs, Capacity(maxLineCount))
    decreases |xs|
  {
    var n := Capacity(maxLineCount);
    if xs == [] {
      assert q + xs == q;
    } else {
      var q' := Enqueued(q, xs[0], maxLineCount);
      EnqueuedIsLast(q, xs[0], maxLineCount);
      EnqueuedAllIsWindow(q', xs[1..], maxLineCount);
      LastOfLast(q + [xs[0]], xs[1..], n);
      assert q + [xs[0]] + xs[1..] == q + xs;
    }
  }

  // ---------------------------------------------------------------------
  // Rendering
  // ---------------------------------------------------------------------

  /** One step of the rendering loop: a separator only after non-empty text. */
  function AppendLine(text: string, statement: string): string
  {
    if text == "" then statement else text + "\n" + statement
  }

  /** The displayed text for a queue, built front to back as the loop does. */
  function Render(q: seq<string>): string
    decreases |q|
  {
    if q == [] then "" else AppendLine(Render(q[..|q| - 1]), q[|q| - 1])
  }

  /** Reference: the statements joined by "\n", with no leading or trailing separator. */
  function Join(q: seq<string>): string
    decreases |q|
  {
    if q == [] then "" else if |q| == 1 then q[0] else q[0] + "\n" + Join(q[1..])
  }

  /** The number of empty statements at the front of the queue. */
  function LeadingEmpty(q: seq<string>): (k: nat)
    ensures k <= |q|
    ensures forall i :: 0 <= i < k ==> q[i] == ""
    ensures k < |q| ==> q[k] != ""
    decreases |q|
  {
    if q == [] || q[0] != "" then 0 else 1 + LeadingEmpty(q[1..])
  }

  lemma {:induction false} JoinSnoc(q: seq<string>, s: string)
    ensures Join(q + [s]) == if q == [] then s else Join(q) + "\n" + s
    decreases |q|
  {
    if |q| > 1 {
      assert (q + [s])[1..] == q[1..] + [s];
      JoinSnoc(q[1..], s);
    } else if |q| == 1 {
      assert (q + [s])[1..] == [s];
    }
  }

  lemma JoinStartsWithFirst(q: seq<string>)
    requires q != []
    ensures |Join(q)| >= |q[0]|
  {
  }

  lemma {:induction false} LeadingEmptySnoc(p: seq<string>, s: string)
    ensures LeadingEmpty(p) < |p| ==> LeadingEmpty(p + [s]) == LeadingEmpty(p)
    ensures LeadingEmpty(p) == |p| ==> LeadingEmpty(p + [s]) == |p| + (if s == "" then 1 else 0)
    decreases |p|
  {
    if p != [] {
      assert (p + [s])[1..] == p[1..] + [s];
      LeadingEmptySnoc(p[1..], s);
    }
  }

  /**
   * Leading empty statements add no separator; everything from the first
   * non-empty statement on is joined with "\n".
   */
  lemma {:induction false} RenderSkipsLeadingEmpty(q: seq<string>)
    ensures Render(q) == Join(q[LeadingEmpty(q)..])
    decreases |q|
  {
    if q != [] {
      var p, s := q[..|q| - 1], q[|q| - 1];
      assert q == p + [s];
      RenderSkipsLeadingEmpty(p);
      LeadingEmptySnoc(p, s);
      var k := LeadingEmpty(p);
      if k == |p| {
        assert Render(p) == "";
        if s == "" {
          assert q[LeadingEmpty(q)..] == [];
        } else {
          assert q[LeadingEmpty(q)..] == [s];
        }
      } else {
        JoinStartsWithFirst(p[k..]);
        assert Render(p) != "";
        assert q[k..] == p[k..] + [s];
        JoinSnoc(p[k..], s);
      }
    }
  }

  /** When every statement is non-empty the rendering is the plain "\n"-join. */
  lemma RenderIsJoin(q: seq<string>)
    requires forall i :: 0 <= i < |q| ==> q[i] != ""
    ensures Render(q) == Join(q)
  {
    RenderSkipsLeadingEmpty(q);
    assert LeadingEmpty(q) == 0;
  }

  /** The text is empty exactly when every statement is empty (in particular for an empty queue). */
  lemma RenderEmptyIff(q: seq<string>)
    ensures Render(q) == "" <==> forall i :: 0 <= i < |q| ==> q[i] == ""
  {
    RenderSkipsLeadingEmpty(q);
    var k := LeadingEmpty(q);
    if k < |q| {
      JoinStartsWithFirst(q[k..]);
    }
  }

  // ---------------------------------------------------------------------
  // The console component
  // ---------------------------------------------------------------------

  /** The SetActive calls that move a view flag from one value to another. */
  function Switches(from: bool, to: bool): seq<bool>
  {
    if from == to then [] else [to]
  }

  class Console {
    /** Serialized properties: the line limit and the severity colours. */
    const maxLineCount: int
    const palette: Palette

    /** The queue of statements, oldest first. */
    var statements: seq<string>
    /** The text component's content. */
    var text: string
    /** The view's active flag. */
    var viewActive: bool
    /** Every SetActive call made on the view, in order. */
    var setActiveCalls: seq<bool>

    /** The queue never holds more than the configured number of lines. */
    predicate Valid()
      reads this
    {
      |statements| <= Capacity(maxLineCount)
    }

    /** The component as the scene loads it, before Awake. */
    constructor (maxLineCount: int, palette: Palette, text: string, viewActive: bool)
      ensures this.maxLineCount == maxLineCount && this.palette == palette
      ensures this.text == text && this.viewActive == viewActive
      ensures statements == [] && setActiveCalls == []
    {
      this.maxLineCount := maxLineCount;
      this.palette := palette;
      this.text := text;
      this.viewActive := viewActive;
      statements := [];
      setActiveCalls := [];
    }

    method Show()
      modifies this
      ensures viewActive
      ensures setActiveCalls == old(setActiveCalls) + Switches(old(viewActive), true)
      ensures statements == old(statements) && text == old(text)
    {
      if !viewActive {
        viewActive := true;
        setActiveCalls := setActiveCalls + [true];
      }
    }

    method Hide()
      modifies this
      ensures !viewActive
      ensures setActiveCalls == old(setActiveCalls) + Switches(old(viewActive), false)
      ensures statements == old(statements) && text == old(text)
    {
      if viewActive {
        viewActive := false;
        setActiveCalls := setActiveCalls + [false];
      }
    }

    method Awake()
      modifies this
      ensures statements == [] && Valid()
      ensures text == old(text) && viewActive == old(viewActive)
      ensures setActiveCalls == old(setActiveCalls)
    {
      statements := [];
    }

    method Start()
      modifies this
      ensures !viewActive
      ensures setActiveCalls == old(setActiveCalls) + Switches(old(viewActive), false)
      ensures statements == old(statements) && text == old(text)
    {
      Hide();
    }

    /**
     * One frame: a backquote key-up toggles the view; then, in the Oculus
     * build only, pitchBelowThreshold (the sampled outcome of the test
     * pitch < -showAngle) shows or hides it.
     */
    method Update(keyUp: bool, pitchBelowThreshold: Option<bool>)
      modifies this
      ensures var toggled := old(viewActive) != keyUp;
        && viewActive == (if pitchBelowThreshold.Some? then pitchBelowThreshold.value else toggled)
        && setActiveCalls == old(setActiveCalls) + Switches(old(viewActive), toggled)
                             + (if pitchBelowThreshold.Some? then Switches(toggled, pitchBelowThreshold.value) else [])
      ensures statements == old(statements) && text == old(text)
    {
      if keyUp {
        if viewActive {
          Hide();
        } else {
          Show();
        }
      }
      UpdatePartial(pitchBelowThreshold);
    }

    /** The Oculus build's pitch policy; a no-op in other builds (None). */
    method UpdatePartial(pitchBelowThreshold: Option<bool>)
      modifies this
      ensures viewActive == (if pitchBelowThreshold.Some? then pitchBelowThreshold.value else old(viewActive))
      ensures setActiveCalls == old(setActiveCalls) + Switches(old(viewActive), viewActive)
      ensures statements == old(statements) && text == old(text)
    {
      match pitchBelowThreshold
      case None =>
      case Some(below) =>
        if below {
          Show();
        } else {
          Hide();
        }
    }

    /** The log callback; the stack trace is not used. */
    method OnLog(condition: string, stackTrace: string, t: LogType)
      modifies this
      ensures statements == Enqueued(old(statements), Statement(palette, condition, t), maxLineCount)
      ensures text == Render(statements)
      ensures old(Valid()) ==> Valid()
      ensures viewActive == old(viewActive) && setActiveCalls == old(setActiveCalls)
    {
      AddStatement(condition, t);
      UpdateText();
      if old(Valid()) {
        EnqueuedCapacity(old(statements), Statement(palette, condition, t), maxLineCount);
      }
    }

    method AddStatement(condition: string, t: LogType)
      modifies this
      ensures statements == Enqueued(old(statements), Statement(palette, condition, t), maxLineCount)
      ensures text == old(text) && viewActive == old(viewActive)
      ensures setActiveCalls == old(setActiveCalls)
    {
      var statement := Statement(palette, condition, t);
      statements := statements + [statement];
      if |statements| > maxLineCount {
        statements := statements[1..];
      }
    }

    method UpdateText()
      modifies this`text
      ensures text == Render(statements)
      ensures statements == old(statements) && viewActive == old(viewActive)
      ensures setActiveCalls == old(setActiveCalls)
    {
      text := "";
      var i := 0;
      while i < |statements|
        invariant 0 <= i <= |statements|
        invariant text == Render(statements[..i])
      {
        var statement := statements[i];
        if text == "" {
          text := statement;
        } else {
          text := text + "\n" + statement;
        }
        assert statements[..i + 1][..i] == statements[..i];
        i := i + 1;
      }
      assert statements[..i] == statements;
    }
  }
}
