/**
 * The budget ("CO") being assembled in a session: the session record with its four
 * keys, the ledger of budget lines, and the table with the trailing grand-total
 * row that is shown and exported.
 */
module Budget {
  import opened Wrappers
  import opened Catalog

  /** One budget line; a placeholder has no item and zero price, quantity and total. */
  datatype BudgetLine = BudgetLine(item: Option<Cell>, un: Option<Cell>, unitPrice: real, quantity: real, lineTotal: real)

  /** The line appended by "Adicionar linha". */
  const PLACEHOLDER: BudgetLine := BudgetLine(None, Some(Text("")), 0.0, 0.0, 0.0)

  /** The label of the synthetic last row of the budget table. */
  const TOTAL_LABEL: string := "TOTAL GERAL"

  // ---------------------------------------------------------------- budget table

  /** Sum of the line totals, first line first. */
  function GrandTotal(lines: seq<BudgetLine>): real {
    if lines == [] then 0.0 else lines[0].lineTotal + GrandTotal(lines[1..])
  }

  lemma {:induction false} GrandTotalAppend(lines: seq<BudgetLine>, l: BudgetLine)
    ensures GrandTotal(lines + [l]) == GrandTotal(lines) + l.lineTotal
  {
    if lines == [] {
      assert [l][1..] == [];
    } else {
      assert (lines + [l])[1..] == lines[1..] + [l];
      GrandTotalAppend(lines[1..], l);
    }
  }

  /**
   * A row of the budget table. The price and quantity columns hold numbers on
   * line rows and the empty string on the total row.
   */
  datatype TableRow = TableRow(item: Option<Cell>, un: Option<Cell>, unitPrice: Cell, quantity: Cell, lineTotal: real)

  function LineRow(l: BudgetLine): TableRow {
    TableRow(l.item, l.un, Num(l.unitPrice), Num(l.quantity), l.lineTotal)
  }

  function TotalRow(sum: real): TableRow {
    TableRow(Some(Text(TOTAL_LABEL)), Some(Text("")), Text(""), Text(""), sum)
  }

  /**
   * The budget table: empty when there are no lines, otherwise the lines in
   * order followed by one total row carrying the grand total.
   */
  function BudgetTable(lines: seq<BudgetLine>): (t: seq<TableRow>)
    ensures lines == [] ==> t == []
    ensures lines != [] ==> |t| == |lines| + 1
    ensures lines != [] ==> forall i :: 0 <= i < |lines| ==> t[i] == LineRow(lines[i])
    ensures lines != [] ==> t[|lines|] == TotalRow(GrandTotal(lines))
  {
    if lines == [] then []
    else seq(|lines|, i requires 0 <= i < |lines| => LineRow(lines[i])) + [TotalRow(GrandTotal(lines))]
  }

  /** Sum of the total column of table rows, last row first. */
  function ColumnSum(rows: seq<TableRow>): real {
    if rows == [] then 0.0 else ColumnSum(rows[..|rows| - 1]) + rows[|rows| - 1].lineTotal
  }

  /** The total row of a non-empty budget table equals the sum of the rows above it. */
  lemma {:induction false} TotalRowIsColumnSum(lines: seq<BudgetLine>)
    requires lines != []
    ensures BudgetTable(lines)[|lines|].lineTotal == ColumnSum(BudgetTable(lines)[..|lines|])
  {
    var t := BudgetTable(lines);
    LineRowsSum(lines, t[..|lines|]);
  }

  lemma {:induction false} LineRowsSum(lines: seq<BudgetLine>, rows: seq<TableRow>)
    requires |rows| == |lines|
    requires forall i :: 0 <= i < |lines| ==> rows[i] == LineRow(lines[i])
    ensures ColumnSum(rows) == GrandTotal(lines)
  {
    if lines != [] {
      var n := |lines| - 1;
      LineRowsSum(lines[..n], rows[..n]);
      GrandTotalAppend(lines[..n], lines[n]);
      assert lines[..n] + [lines[n]] == lines;
    }
  }

  // ---------------------------------------------------------------- session

  /** A session key: absent, or present with its value. */
  datatype Slot<T> = Absent | Present(value: T)

  /**
   * The session record: the loaded catalog table (None until a file loads), the
   * item lookup map, the budget lines and whether a budget has been started.
   */
  datatype SessionView = SessionView(
    baseTable: Slot<Option<seq<PricedRow>>>,
    baseDict: Slot<map<Cell, Entry>>,
    lines: Slot<seq<BudgetLine>>,
    generated: Slot<bool>)

  predicate Complete(v: SessionView) {
    v.baseTable.Present? && v.baseDict.Present? && v.lines.Present? && v.generated.Present?
  }

  /** Every key present in v is present in w with the same value. */
  predicate KeepsPresent(v: SessionView, w: SessionView) {
    && (v.baseTable.Present? ==> w.baseTable == v.baseTable)
    && (v.baseDict.Present? ==> w.baseDict == v.baseDict)
    && (v.lines.Present? ==> w.lines == v.lines)
    && (v.generated.Present? ==> w.generated == v.generated)
  }

  function Fill<T>(s: Slot<T>, default: T): Slot<T> {
    if s.Present? then s else Present(default)
  }

  /** The session after its keys are initialised: only absent keys are set. */
  function Initialized(v: SessionView): (w: SessionView)
    ensures Complete(w) && KeepsPresent(v, w)
    ensures v.baseTable.Absent? ==> w.baseTable.value == None
    ensures v.baseDict.Absent? ==> w.baseDict.value == map[]
    ensures v.lines.Absent? ==> w.lines.value == []
    ensures v.generated.Absent? ==> !w.generated.value
  {
    SessionView(Fill(v.baseTable, None), Fill(v.baseDict, map[]), Fill(v.lines, []), Fill(v.generated, false))
  }

  /** Initialising an initialised session changes nothing. */
  lemma InitializedIdempotent(v: SessionView)
    ensures Initialized(Initialized(v)) == Initialized(v)
  {
  }

  /** The session after a budget is started: no lines, marked generated, catalog untouched. */
  function Started(v: SessionView): (w: SessionView)
    ensures w.lines == Present([]) && w.generated == Present(true)
    ensures w.baseTable == v.baseTable && w.baseDict == v.baseDict
  {
    v.(lines := Present([]), generated := Present(true))
  }

  /** Starting a budget twice is the same as starting it once. */
  lemma StartedIdempotent(v: SessionView)
    ensures Started(Started(v)) == Started(v)
  {
  }

  /** The session after a placeholder line is appended. */
  function WithLine(v: SessionView): (w: SessionView)
    requires v.lines.Present?
    ensures w.lines.Present? && |w.lines.value| == |v.lines.value| + 1
    ensures w.lines.value[..|v.lines.value|] == v.lines.value
    ensures w.lines.value[|v.lines.value|] == PLACEHOLDER
    ensures w.baseTable == v.baseTable && w.baseDict == v.baseDict && w.generated == v.generated
  {
    v.(lines := Present(v.lines.value + [PLACEHOLDER]))
  }

  /** Appending a placeholder line leaves the grand total unchanged. */
  lemma AddLineKeepsGrandTotal(v: SessionView)
    requires v.lines.Present?
    ensures GrandTotal(WithLine(v).lines.value) == GrandTotal(v.lines.value)
  {
    GrandTotalAppend(v.lines.value, PLACEHOLDER);
  }

  /** The session state of one user, updated in place by the budget actions. */
  class Session {
    var baseTable: Slot<Option<seq<PricedRow>>>
    var baseDict: Slot<map<Cell, Entry>>
    var lines: Slot<seq<BudgetLine>>
    var generated: Slot<bool>

    function View(): SessionView
      reads this
    {
      SessionView(baseTable, baseDict, lines, generated)
    }

    /** A new session holds no keys. */
    constructor ()
      ensures View() == SessionView(Absent, Absent, Absent, Absent)
    {
      baseTable, baseDict, lines, generated := Absent, Absent, Absent, Absent;
    }

    /** Sets each missing key to its default; present keys are left alone. */
    method Init()
      modifies this
      ensures View() == Initialized(old(View()))
    {
      if baseTable.Absent? {
        baseTable := Present(None);
      }
      if baseDict.Absent? {
        baseDict := Present(map[]);
      }
      if lines.Absent? {
        lines := Present([]);
      }
      if generated.Absent? {
        generated := Present(false);
      }
    }

    /** Clears the lines and marks the budget as started. */
    method StartBudget()
      modifies this`lines, this`generated
      ensures View() == Started(old(View()))
    {
      lines := Present([]);
      generated := Present(true);
    }

    /** Appends a placeholder line. */
    method AddLine()
      requires lines.Present?
      modifies this`lines
      ensures View() == WithLine(old(View()))
    {
      lines := Present(lines.value + [PLACEHOLDER]);
    }
  }
}
