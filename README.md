# rdf-tui session controller, modelled in Dafny

rdf-tui is a terminal program for exploring an RDF graph with SPARQL. The
screen has two stacked panes. The top pane ("Query") holds the query being
edited. The bottom pane ("Explore") shows the result of running that query
on every redraw: a table of solutions, or `NO RESULT`. This project models
the session controller in `src/app.rs`:

- **Query buffer** (`QueryBuffer`). The text of the query plus the height of
  its pane. The height is kept up to date one character at a time. The
  abstract value is the datatype `Buffer`, with `BufferPush` and `BufferPop`
  as its specification. The class `Query` is the mutable buffer: its `Push`
  and `Pop` change `text` and `height` in place, and each is proved against
  those functions. The invariant `BufferValid` says the height is 3 plus the
  number of line breaks. It is preserved by every operation, and the height
  decrement in `Pop` is proved never to go below zero.
- **Modes and key dispatch** (`Modes`, `Keys`, `Controller`). The two modes,
  the Tab toggle, and the routing of key presses to the per-mode handlers.
  Browse-mode `q` sets a quitting flag that is never cleared. The value-level
  specification is `Step`, which gives one key event's effect on a `Session`
  value, and `Trace`, which folds `Step` over a run of input polls. The class
  `App` holds `mode`, `query` and `quitting`. Each of its handlers is proved
  to change the state as `Step` says.
- **Rendering** (`Modes`, `View`, `Controller.App.Draw`). The border style
  of each pane, the frame layout (the query pane is as tall as the buffer's
  height), and the choice between a results table and `NO RESULT`. The table
  has a header of variable names and one row per successful solution, with
  one cell per variable. `BuildRows` is the loop that builds the rows.

The query engine is a parameter `engine: string -> Outcome`, applied to the
current query text. Its answer is either `Solutions(vars, sols)`, where each
solution may have failed, or `NoSolutions` (a failed query or a non-SELECT
query). The source unwraps each variable's binding in a successful solution.
The model turns that into the precondition `WellFormed`: every successful
solution binds every variable.

Points where the model pins down what the code does:

- A new session starts in browse mode (line 32).
- A missing binding makes the source's unwrap panic. The model follows the
  code rather than the safer design choice of showing an empty cell: it
  requires the engine to bind every variable.
- Key events of kind repeat or release are ignored, like any event that is
  not a press.

## Model

| member | source | states |
|---|---|---|
| QueryBuffer.InitialBuffer | src/app.rs:236-240 | the initial buffer holds the default query at height 3 and satisfies the height invariant |
| QueryBuffer.DefaultTextIsOneLine | src/app.rs:236-240 | the default query text contains no line break, so height 3 is consistent with it |
| QueryBuffer.CountNewlinesAppend | src/app.rs:244-250 | appending a character raises the line-break count by one exactly when that character is a line break, which is what makes the incremental height update sound |
| QueryBuffer.CountNewlinesIsMultiplicity | src/app.rs:228-232 | the line-break count that the height tracks equals the multiplicity of the line-break character in the text |
| QueryBuffer.CountNewlinesZero | src/app.rs:228-232 | the count is zero iff the text has no line break |
| QueryBuffer.BufferPush | src/app.rs:244-250 | push preserves the height invariant |
| QueryBuffer.BufferPop | src/app.rs:252-258 | pop on a valid buffer, empty or not, preserves the height invariant, and its height decrement stays a natural number |
| QueryBuffer.HeightAtLeastBase | src/app.rs:252-258 | a valid buffer's height is never below 3 |
| QueryBuffer.PushEffect | src/app.rs:244-250 | push appends exactly the character; height grows by one iff it is a line break and is otherwise unchanged |
| QueryBuffer.PopEffect | src/app.rs:252-258 | pop of an empty buffer returns None and changes nothing; otherwise it returns the last character and removes exactly it; height drops by one iff that character is a line break, and then the height was at least 4 |
| QueryBuffer.PopAfterPush | src/app.rs:244-258 | popping right after pushing `ch` returns `Some(ch)` and restores the buffer |
| QueryBuffer.PushAfterPop | src/app.rs:244-258 | pushing back the character popped from a non-empty buffer restores it |
| QueryBuffer.Query.constructor | src/app.rs:236-240 | a new buffer is valid, holds the default text at height 3 |
| QueryBuffer.Query.Push | src/app.rs:244-250 | in place: text becomes old text plus `ch`, height grows by one iff `ch` is a line break, the invariant is kept |
| QueryBuffer.Query.Pop | src/app.rs:252-258 | in place: on empty returns None with nothing changed; otherwise returns and removes the last character; height drops by one iff it was a line break; the invariant is kept |
| Modes.Toggle | src/app.rs:112-120 | switching always yields the other mode |
| Modes.ToggleInvolutive | src/app.rs:112-120 | switching twice restores the mode |
| Modes.BrowserStyle | src/app.rs:188-194 | the results border is green iff the mode is Browse, default style otherwise |
| Modes.QueryStyle | src/app.rs:197-203 | the query border is green iff the mode is Query, default style otherwise |
| Modes.ExactlyOnePaneHighlighted | src/app.rs:188-203 | in every mode exactly one pane is highlighted |
| View.Successful | src/app.rs:156-162 | the solutions that get a row are exactly the successful ones, never more than there are solutions |
| View.SuccessfulAppend | src/app.rs:155-162 | each further solution adds one row at the end iff it succeeded, so row order follows solution order |
| View.SuccessfulAllOk | src/app.rs:156-162 | when no solution failed, every solution gets a row, in order |
| View.RowDependsOnlyOnVars | src/app.rs:158-160 | a row depends only on the bindings of the query's variables: two solutions that agree on those give the same row |
| View.BuildRows | src/app.rs:155-162 | the loop yields one row per successful solution, in order, each with one cell per variable holding its bindings |
| View.EmptySelectIsNotNoResult | src/app.rs:146-171 | a SELECT with no solutions is shown as a header-only table, never as `NO RESULT` |
| Controller.InitialSession | src/app.rs:30-41 | a new session browses the default query, is not quitting, and its buffer is valid |
| Controller.QueryModeStep | src/app.rs:83-98 | every query-mode key keeps the height invariant |
| Controller.BrowseModeStep | src/app.rs:101-109 | every browse-mode key keeps the height invariant |
| Controller.Step | src/app.rs:67-80 | every key event keeps the height invariant |
| Controller.EventStep | src/app.rs:57-65 | every poll result keeps the height invariant |
| Controller.Trace | src/app.rs:44-54 | every run of polls keeps the height invariant |
| Controller.NonPressChangesNothing | src/app.rs:67-71 | an event that is not a press changes nothing |
| Controller.StepMode | src/app.rs:67-120 | the mode changes exactly on a Tab press, and then flips |
| Controller.BrowseKeepsBuffer | src/app.rs:101-109 | no key in browse mode changes the query buffer |
| Controller.StepQuitting | src/app.rs:83-125 | after a step the session is quitting iff it was, or the step was a `q` press in browse mode; in query mode no key sets quitting |
| Controller.QueryModeQAppends | src/app.rs:83-98 | in query mode a `q` press just appends `q` |
| Controller.UnhandledKeysChangeNothing | src/app.rs:83-109 | keys a mode does not handle change nothing |
| Controller.TabTwiceRestores | src/app.rs:112-120 | two Tab presses restore the whole state and the highlighted pane |
| Controller.QuittingIsSticky | src/app.rs:122-125 | once quitting, every later run of events leaves the session quitting |
| Controller.BrowsingWithoutTabKeepsBuffer | src/app.rs:101-109 | a run of events without a Tab press that starts in browse mode stays in browse mode with the buffer unchanged |
| Controller.EditingWithoutTabNeverQuits | src/app.rs:83-98 | a run of events without a Tab press that starts in query mode stays in query mode and never changes quitting |
| Controller.BaseIriInjective | src/app.rs:208-211 | different absolute paths give different `file://` base IRIs |
| Controller.App.constructor | src/app.rs:30-41 | a new app is valid and in the initial session state |
| Controller.App.SwitchMode | src/app.rs:112-120 | flips the mode and changes nothing else |
| Controller.App.Quit | src/app.rs:123-125 | sets quitting and changes nothing else |
| Controller.App.HandleKeyCodeInQueryMode | src/app.rs:83-98 | the new state is the query-mode step of the old one |
| Controller.App.HandleKeyCodeInBrowseMode | src/app.rs:101-109 | the new state is the browse-mode step of the old one |
| Controller.App.HandleKey | src/app.rs:67-80 | the new state is the step of the old one for that key event |
| Controller.App.HandleEvent | src/app.rs:57-65 | a poll with no key event changes nothing; a key event is handled as by HandleKey |
| Controller.App.RenderQuery | src/app.rs:176-185 | the query pane shows the raw text unchanged, and its border is highlighted iff the mode is Query |
| Controller.App.RenderBrowser | src/app.rs:139-173 | the results pane, titled "Explore", shows a table iff the engine returned solutions, with the variables as header, equal-width columns one cell apart and one row per successful solution; otherwise the centred `NO RESULT` |
| Controller.App.Draw | src/app.rs:128-136 | the frame stacks a query pane as tall as 3 plus the text's line breaks above a results pane filling the rest; exactly the current mode's pane is green |
| Controller.App.Run | src/app.rs:44-54 | each turn draws the frame of the current state and then handles one poll; a non-empty input gets at least one turn, the loop stops right after the first turn that leaves the session quitting, the final state is the trace of the polls consumed, and the frames returned are, turn by turn, the frames of the states before each poll |

## Left out

- Graph store and SPARQL execution (`Store::new`, `store.query`): foreign library code. The engine is the parameter `engine`, and the store is not part of the session state.
- `App::load` (src/app.rs:206-218): path resolution, file reading and Turtle parsing are I/O and library calls. Only the base IRI format is modelled, as `BaseIri`.
- `event::poll` with its 16 ms timeout and `event::read`: blocking I/O. Each poll's result is an input `Option<KeyEvent>`, where `None` stands for "no event in time" or "not a key event".
- Controller.App.Run: the source loop has no bound. The model runs over a finite sequence of poll results and also stops when that sequence is used up.
- Errors from `Store::new` (src/app.rs:31), from `terminal.draw` and from the event calls (the `?` propagation): failures of the store and of terminal I/O.
- rendering by ratatui (the `Layout` split of the screen, borders, bold and underlined text, column sizing): library code. A frame is modelled as the data handed to the widgets.
- View.Row: how a variable or a term is printed is left to the engine. Header cells are the variable strings, and row cells are the strings in the solution map.
- QueryBuffer.Query.Push: `height` is an unbounded natural number, so the `u16` overflow after about 65,532 line breaks is not modelled.
- src/util.rs (terminal raw mode, alternate screen, panic hook) and src/main.rs (argument parsing and wiring): terminal side effects and glue only.
