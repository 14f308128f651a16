/** What a frame is made of, and how a query outcome becomes the contents of
    the results pane: a table with a header row and one row per successful
    solution, or the "NO RESULT" message. */
module View {
  import opened Wrappers
  import opened Modes

  /** One solution: each bound variable's name mapped to its rendered value. */
  type Solution = map<string, string>

  /** What the query engine answers for the current text: the variables of a
      SELECT query and its solutions, each of which may have failed; or
      nothing to tabulate (the query failed, or is not a SELECT). */
  datatype Outcome =
    | Solutions(vars: seq<string>, sols: seq<Result<Solution>>)
    | NoSolutions

  predicate BindsAll(vars: seq<string>, m: Solution)
  {
    forall v :: v in vars ==> v in m
  }

  /** Every successful solution binds every variable of the query. */
  predicate AllBind(vars: seq<string>, sols: seq<Result<Solution>>)
  {
    forall r :: r in sols && r.Ok? ==> BindsAll(vars, r.value)
  }

  /** The engine's side of the contract for one outcome. */
  predicate WellFormed(o: Outcome)
  {
    o.Solutions? ==> AllBind(o.vars, o.sols)
  }

  /** The successful solutions, in their original order; failed ones are skipped. */
  function Successful(sols: seq<Result<Solution>>): (ok: seq<Solution>)
    ensures |ok| <= |sols|
    ensures forall m :: m in ok <==> Ok(m) in sols
    ensures forall k :: 0 <= k < |ok| ==> Ok(ok[k]) in sols
  {
    if sols == [] then []
    else (if sols[0].Ok? then [sols[0].value] else []) + Successful(sols[1..])
  }

  /** Filtering commutes with appending one more solution. */
  lemma {:induction false} SuccessfulAppend(sols: seq<Result<Solution>>, x: Result<Solution>)
    ensures Successful(sols + [x]) == Successful(sols) + (if x.Ok? then [x.value] else [])
  {
    if sols == [] {
      assert sols + [x] == [x];
    } else {
      assert (sols + [x])[1..] == sols[1..] + [x];
      SuccessfulAppend(sols[1..], x);
    }
  }

  /** If every solution succeeded, nothing is skipped. */
  lemma {:induction false} SuccessfulAllOk(sols: seq<Result<Solution>>)
    requires forall i :: 0 <= i < |sols| ==> sols[i].Ok?
    ensures |Successful(sols)| == |sols|
    ensures forall i :: 0 <= i < |sols| ==> Successful(sols)[i] == sols[i].value
  {
    if sols != [] {
      SuccessfulAllOk(sols[1..]);
    }
  }

  /** The row of one solution: one cell per variable, in the variables' order. */
  function Row(vars: seq<string>, m: Solution): (cells: seq<string>)
    requires BindsAll(vars, m)
    ensures |cells| == |vars|
    ensures forall j :: 0 <= j < |vars| ==> cells[j] == m[vars[j]]
  {
    seq(|vars|, j requires 0 <= j < |vars| => m[vars[j]])
  }

  /** A row depends only on the bindings of the query's variables: bindings
      of other variables, and how the solution was produced, do not show. */
  lemma RowDependsOnlyOnVars(vars: seq<string>, m: Solution, m': Solution)
    requires BindsAll(vars, m) && BindsAll(vars, m')
    requires forall v :: v in vars ==> m[v] == m'[v]
    ensures Row(vars, m) == Row(vars, m')
  {
  }

  /** The data rows of the results table, built as a loop that appends one
      row for every successful solution and skips the failed ones. */
  method BuildRows(vars: seq<string>, sols: seq<Result<Solution>>) returns (rows: seq<seq<string>>)
    requires AllBind(vars, sols)
    ensures |rows| == |Successful(sols)|
    ensures forall k :: 0 <= k < |rows| ==> |rows[k]| == |vars|
    ensures forall k :: 0 <= k < |rows| ==> rows[k] == Row(vars, Successful(sols)[k])
  {
    rows := [];
    for i := 0 to |sols|
      invariant |rows| == |Successful(sols[..i])|
      invariant forall k :: 0 <= k < |rows| ==> rows[k] == Row(vars, Successful(sols[..i])[k])
    {
      assert sols[..i + 1] == sols[..i] + [sols[i]];
      SuccessfulAppend(sols[..i], sols[i]);
      if sols[i].Ok? {
        rows := rows + [Row(vars, sols[i].value)];
      }
    }
    assert sols[..|sols|] == sols;
  }

  /** Layout constraints: a fixed number of lines, or a share of what is left. */
  datatype Constraint = Length(lines: nat) | Fill(weight: nat)

  /** A bordered box with a title, a border style and horizontal padding. */
  datatype Block = Block(title: string, border: Style, padding: nat)

  /** What a pane shows inside its box. */
  datatype Content =
    | Paragraph(text: string, centered: bool)
    | Table(header: seq<string>, rows: seq<seq<string>>, widths: seq<Constraint>, spacing: nat)

  datatype Pane = Pane(block: Block, content: Content)

  /** A whole frame: two panes stacked vertically as the layout says. */
  datatype Frame = Frame(layout: seq<Constraint>, top: Pane, bottom: Pane)

  const NoResultText: string := "NO RESULT"

  /** `c` is what the results pane should show for the outcome `o`: for a
      SELECT, a header listing the variables, one equally wide column per
      variable with a one-cell gap, and one row per successful solution;
      otherwise the centred "NO RESULT" message. */
  ghost predicate Displays(o: Outcome, c: Content)
    requires WellFormed(o)
  {
    match o
    case NoSolutions => c == Paragraph(NoResultText, true)
    case Solutions(vars, sols) =>
      && c.Table?
      && c.header == vars
      && |c.widths| == |vars|
      && (forall j :: 0 <= j < |c.widths| ==> c.widths[j] == Fill(1))
      && c.spacing == 1
      && |c.rows| == |Successful(sols)|
      && (forall k :: 0 <= k < |c.rows| ==> c.rows[k] == Row(vars, Successful(sols)[k]))
  }

  /** A SELECT that has no solutions still shows a table (with only the
      header), which is never the "NO RESULT" view. */
  lemma EmptySelectIsNotNoResult(vars: seq<string>, c: Content)
    requires Displays(Solutions(vars, []), c)
    ensures c.Table? && c.header == vars && c.rows == []
    ensures c != Paragraph(NoResultText, true)
  {
  }
}
