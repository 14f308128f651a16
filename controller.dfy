/** The session controller: a mode, a query buffer and a quitting flag,
    changed in place by key events routed according to the mode, and drawn
    as two stacked panes on every turn of the main loop. */
module Controller {
  import opened Wrappers
  import opened Modes
  import opened Keys
  import opened View
  import QB = QueryBuffer

  /** The abstract state of a session (the graph store is not part of it). */
  datatype Session = Session(mode: Mode, buffer: QB.Buffer, quitting: bool)

  /** The state a new session starts in: browsing, default query, not quitting. */
  function InitialSession(): (s: Session)
    ensures QB.BufferValid(s.buffer)
    ensures s.mode == Browse && !s.quitting && s.buffer.text == QB.DefaultText
  {
    Session(Browse, QB.InitialBuffer(), false)
  }

  /** A key code handled in query mode: Backspace pops, Enter pushes a line
      break, Tab switches mode, a character is pushed, anything else is ignored. */
  function QueryModeStep(s: Session, code: KeyCode): (r: Session)
    requires QB.BufferValid(s.buffer)
    ensures QB.BufferValid(r.buffer)
  {
    match code
    case Backspace => s.(buffer := QB.BufferPop(s.buffer).1)
    case Enter => s.(buffer := QB.BufferPush(s.buffer, '\n'))
    case Tab => s.(mode := Toggle(s.mode))
    case Char(ch) => s.(buffer := QB.BufferPush(s.buffer, ch))
    case Other => s
  }

  /** A key code handled in browse mode: Tab switches mode, `q` asks to quit,
      anything else is ignored. */
  function BrowseModeStep(s: Session, code: KeyCode): (r: Session)
    requires QB.BufferValid(s.buffer)
    ensures QB.BufferValid(r.buffer)
  {
    match code
    case Tab => s.(mode := Toggle(s.mode))
    case Char(ch) => if ch == 'q' then s.(quitting := true) else s
    case _ => s
  }

  /** One key event: only presses count, and they go to the current mode's handler. */
  function Step(s: Session, key: KeyEvent): (r: Session)
    requires QB.BufferValid(s.buffer)
    ensures QB.BufferValid(r.buffer)
  {
    if key.kind != Press then s
    else
      match s.mode
      case Query => QueryModeStep(s, key.code)
      case Browse => BrowseModeStep(s, key.code)
  }

  /** One poll of the input: nothing arrived (or not a key event), or a key event. */
  function EventStep(s: Session, e: Option<KeyEvent>): (r: Session)
    requires QB.BufferValid(s.buffer)
    ensures QB.BufferValid(r.buffer)
  {
    match e
    case None => s
    case Some(key) => Step(s, key)
  }

  /** The state after a sequence of polls, the last one applied last. */
  function Trace(s: Session, events: seq<Option<KeyEvent>>): (r: Session)
    requires QB.BufferValid(s.buffer)
    ensures QB.BufferValid(r.buffer)
    decreases |events|
  {
    if events == [] then s
    else EventStep(Trace(s, events[..|events| - 1]), events[|events| - 1])
  }

  const TabPress: KeyEvent := KeyEvent(Tab, Press)
  const QuitPress: KeyEvent := KeyEvent(Char('q'), Press)

  /** A key that is released or repeating changes nothing. */
  lemma NonPressChangesNothing(s: Session, key: KeyEvent)
    requires QB.BufferValid(s.buffer)
    requires key.kind != Press
    ensures Step(s, key) == s
  {
  }

  /** The mode changes exactly on a Tab press, and then it flips. */
  lemma StepMode(s: Session, key: KeyEvent)
    requires QB.BufferValid(s.buffer)
    ensures Step(s, key).mode == if key == TabPress then Toggle(s.mode) else s.mode
  {
  }

  /** No key in browse mode touches the query buffer. */
  lemma BrowseKeepsBuffer(s: Session, key: KeyEvent)
    requires QB.BufferValid(s.buffer) && s.mode == Browse
    ensures Step(s, key).buffer == s.buffer
  {
  }

  /** The quitting flag is set by a step exactly when it was already set, or
      the step is a press of `q` in browse mode; so no key in query mode sets
      it and nothing ever clears it. */
  lemma StepQuitting(s: Session, key: KeyEvent)
    requires QB.BufferValid(s.buffer)
    ensures Step(s, key).quitting <==> s.quitting || (s.mode == Browse && key == QuitPress)
    ensures s.mode == Query ==> Step(s, key).quitting == s.quitting
  {
  }

  /** In query mode `q` is an ordinary character: it is appended and nothing else changes. */
  lemma QueryModeQAppends(s: Session)
    requires QB.BufferValid(s.buffer) && s.mode == Query
    ensures Step(s, QuitPress) == s.(buffer := QB.BufferPush(s.buffer, 'q'))
    ensures Step(s, QuitPress).buffer.text == s.buffer.text + ['q']
  {
  }

  /** Keys a mode does not handle change nothing. */
  lemma UnhandledKeysChangeNothing(s: Session, key: KeyEvent)
    requires QB.BufferValid(s.buffer)
    requires s.mode == Query ==> key.code == Other
    requires s.mode == Browse ==> key.code != Tab && key.code != Char('q')
    ensures Step(s, key) == s
  {
  }

  /** Pressing Tab twice restores the whole state, and with it the highlighted pane. */
  lemma TabTwiceRestores(s: Session)
    requires QB.BufferValid(s.buffer)
    ensures Step(Step(s, TabPress), TabPress) == s
    ensures Step(s, TabPress).mode != s.mode
    ensures IsHighlighted(QueryStyle(Step(s, TabPress).mode)) == IsHighlighted(BrowserStyle(s.mode))
  {
  }

  /** Once quitting, a session stays quitting whatever events follow. */
  lemma {:induction false} QuittingIsSticky(s: Session, events: seq<Option<KeyEvent>>)
    requires QB.BufferValid(s.buffer) && s.quitting
    ensures Trace(s, events).quitting
  {
    if events != [] {
      QuittingIsSticky(s, events[..|events| - 1]);
    }
  }

  /** While browsing and no Tab is pressed, the query buffer never changes. */
  lemma {:induction false} BrowsingWithoutTabKeepsBuffer(s: Session, events: seq<Option<KeyEvent>>)
    requires QB.BufferValid(s.buffer) && s.mode == Browse
    requires forall i :: 0 <= i < |events| ==> events[i] != Some(TabPress)
    ensures Trace(s, events).mode == Browse
    ensures Trace(s, events).buffer == s.buffer
  {
    if events != [] {
      BrowsingWithoutTabKeepsBuffer(s, events[..|events| - 1]);
    }
  }

  /** While editing and no Tab is pressed, the session never starts quitting. */
  lemma {:induction false} EditingWithoutTabNeverQuits(s: Session, events: seq<Option<KeyEvent>>)
    requires QB.BufferValid(s.buffer) && s.mode == Query
    requires forall i :: 0 <= i < |events| ==> events[i] != Some(TabPress)
    ensures Trace(s, events).mode == Query
    ensures Trace(s, events).quitting == s.quitting
  {
    if events != [] {
      EditingWithoutTabNeverQuits(s, events[..|events| - 1]);
    }
  }

  /** The base IRI a dataset file is loaded under: its absolute path after `file://`. */
  function BaseIri(absolutePath: string): (iri: string)
    ensures |iri| == |absolutePath| + 7
    ensures iri[..7] == "file://" && iri[7..] == absolutePath
  {
    "file://" + absolutePath
  }

  /** Different files get different base IRIs. */
  lemma BaseIriInjective(p: string, q: string)
    requires BaseIri(p) == BaseIri(q)
    ensures p == q
  {
    assert p == BaseIri(p)[7..];
  }

  /** `f` is the frame drawn for the session state `s`: a query pane as tall
      as the buffer's height, showing its text, above a results pane showing
      what the engine answers for that text; each border styled by the mode. */
  ghost predicate IsFrameOf(f: Frame, s: Session, engine: string -> Outcome)
  {
    && WellFormed(engine(s.buffer.text))
    && f.layout == [Length(s.buffer.height), Fill(1)]
    && f.top == Pane(Block("Query", QueryStyle(s.mode), 0), Paragraph(s.buffer.text, false))
    && f.bottom.block == Block("Explore", BrowserStyle(s.mode), 1)
    && Displays(engine(s.buffer.text), f.bottom.content)
  }

  /** The frames drawn for the first turns of a run, extended by the next turn's frame. */
  lemma FramesExtend(start: Session, input: seq<Option<KeyEvent>>, engine: string -> Outcome,
                     frames: seq<Frame>, frame: Frame)
    requires QB.BufferValid(start.buffer) && |frames| < |input|
    requires forall j :: 0 <= j < |frames| ==> IsFrameOf(frames[j], Trace(start, input[..j]), engine)
    requires IsFrameOf(frame, Trace(start, input[..|frames|]), engine)
    ensures forall j :: 0 <= j < |frames| + 1 ==>
      IsFrameOf((frames + [frame])[j], Trace(start, input[..j]), engine)
  {
  }

  /** The running session. */
  class App {
    var mode: Mode
    var query: QB.Query
    var quitting: bool

    ghost predicate Valid()
      reads this, query
    {
      query.Valid()
    }

    /** The abstract state of this session. */
    ghost function State(): Session
      reads this, query
    {
      Session(mode, query.Value(), quitting)
    }

    /** A new session, browsing the default query. */
    constructor ()
      ensures Valid() && fresh(query)
      ensures State() == InitialSession()
    {
      var q := new QB.Query();
      assert q.Value() == QB.InitialBuffer();
      mode := Browse;
      query := q;
      quitting := false;
    }

    /** Flips the mode and changes nothing else. */
    method SwitchMode()
      modifies this`mode
      ensures mode == Toggle(old(mode))
    {
      match mode
      case Query => mode := Browse;
      case Browse => mode := Query;
    }

    /** Sets the quitting flag and changes nothing else. */
    method Quit()
      modifies this`quitting
      ensures quitting
    {
      quitting := true;
    }

    method HandleKeyCodeInQueryMode(code: KeyCode)
      requires Valid()
      modifies this, query
      ensures Valid() && query == old(query)
      ensures State() == QueryModeStep(old(State()), code)
    {
      match code
      case Backspace =>
        var _ := query.Pop();
      case Enter =>
        query.Push('\n');
      case Tab =>
        SwitchMode();
      case Char(ch) =>
        query.Push(ch);
      case Other =>
    }

    method HandleKeyCodeInBrowseMode(code: KeyCode)
      requires Valid()
      modifies this, query
      ensures Valid() && query == old(query)
      ensures State() == BrowseModeStep(old(State()), code)
    {
      match code
      case Tab =>
        SwitchMode();
      case Char(ch) =>
        if ch == 'q' {
          Quit();
        }
      case _ =>
    }

    /** Routes a key press to the current mode's handler; ignores other kinds. */
    method HandleKey(key: KeyEvent)
      requires Valid()
      modifies this, query
      ensures Valid() && query == old(query)
      ensures State() == Step(old(State()), key)
    {
      if key.kind != Press {
        return;
      }
      match mode
      case Query => HandleKeyCodeInQueryMode(key.code);
      case Browse => HandleKeyCodeInBrowseMode(key.code);
    }

    /** Handles what one poll of the input returned. */
    method HandleEvent(e: Option<KeyEvent>)
      requires Valid()
      modifies this, query
      ensures Valid() && query == old(query)
      ensures State() == EventStep(old(State()), e)
    {
      if e.Some? {
        HandleKey(e.value);
      }
    }

    /** The query pane: the raw text in a box titled "Query". */
    method RenderQuery() returns (pane: Pane)
      ensures pane.block == Block("Query", QueryStyle(mode), 0)
      ensures pane.content == Paragraph(query.text, false)
      ensures IsHighlighted(pane.block.border) <==> mode == Query
    {
      pane := Pane(Block("Query", QueryStyle(mode), 0), Paragraph(query.text, false));
    }

    /** The results pane for what the engine answers to the current text. */
    method RenderBrowser(engine: string -> Outcome) returns (pane: Pane)
      requires WellFormed(engine(query.text))
      ensures pane.block == Block("Explore", BrowserStyle(mode), 1)
      ensures Displays(engine(query.text), pane.content)
      ensures pane.content.Table? <==> engine(query.text).Solutions?
    {
      var block := Block("Explore", BrowserStyle(mode), 1);
      var outcome := engine(query.text);
      if outcome.Solutions? {
        var vars := outcome.vars;
        var widths := seq(|vars|, _ => Fill(1));
        var rows := BuildRows(vars, outcome.sols);
        pane := Pane(block, Table(vars, rows, widths, 1));
      } else {
        pane := Pane(block, Paragraph(NoResultText, true));
      }
    }

    /** A whole frame: the query pane as tall as the buffer's height above
        the results pane, which fills the rest; exactly one is highlighted. */
    method Draw(engine: string -> Outcome) returns (frame: Frame)
      requires Valid()
      requires WellFormed(engine(query.text))
      ensures frame.layout == [Length(query.height), Fill(1)]
      ensures frame.layout[0] == Length(QB.BaseHeight + QB.CountNewlines(query.text))
      ensures frame.top == Pane(Block("Query", QueryStyle(mode), 0), Paragraph(query.text, false))
      ensures frame.bottom.block == Block("Explore", BrowserStyle(mode), 1)
      ensures Displays(engine(query.text), frame.bottom.content)
      ensures IsHighlighted(frame.top.block.border) <==> mode == Query
      ensures IsHighlighted(frame.bottom.block.border) <==> mode == Browse
      ensures IsFrameOf(frame, State(), engine)
    {
      var top := RenderQuery();
      var bottom := RenderBrowser(engine);
      frame := Frame([Length(query.height), Fill(1)], top, bottom);
    }

    /** The main loop over a finite run of input polls: each turn draws a
        frame, then handles one poll, and the loop stops right after the
        first turn that leaves the session quitting. The quitting flag is
        tested only after a turn, so a non-empty input always gets at least
        one turn. Returns the frames drawn, one per turn. */
    method Run(engine: string -> Outcome, input: seq<Option<KeyEvent>>) returns (turns: nat, frames: seq<Frame>)
      requires Valid()
      requires forall t :: WellFormed(engine(t))
      modifies this, query
      ensures Valid() && query == old(query)
      ensures turns <= |input|
      ensures |input| > 0 ==> turns >= 1
      ensures State() == Trace(old(State()), input[..turns])
      ensures turns == |input| || quitting
      ensures forall j :: 1 <= j < turns ==> !Trace(old(State()), input[..j]).quitting
      ensures |frames| == turns
      ensures forall j :: 0 <= j < turns ==> IsFrameOf(frames[j], Trace(old(State()), input[..j]), engine)
    {
      ghost var start := State();
      turns := 0;
      frames := [];
      while turns < |input|
        invariant Valid() && query == old(query)
        invariant turns <= |input|
        invariant State() == Trace(start, input[..turns])
        invariant turns > 0 ==> !quitting
        invariant forall j :: 1 <= j < turns ==> !Trace(start, input[..j]).quitting
        invariant |frames| == turns
        invariant forall j :: 0 <= j < turns ==> IsFrameOf(frames[j], Trace(start, input[..j]), engine)
        decreases |input| - turns
      {
        var frame := Draw(engine);
        FramesExtend(start, input, engine, frames, frame);
        frames := frames + [frame];
        HandleEvent(input[turns]);
        assert input[..turns + 1][..turns] == input[..turns];
        turns := turns + 1;
        if quitting {
          break;
        }
      }
    }
  }
}
