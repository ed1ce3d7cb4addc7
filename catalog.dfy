/**
 * Catalog ingestion: choosing the sheet of the uploaded workbook that carries the
 * price table, deriving a unit price for each usable row, and folding the priced
 * rows into the lookup map the budget screen offers.
 *
 * The workbook is given already parsed (header on the sixth row of every sheet):
 * a sheet is either unparsable or a set of column names and rows of cells.
 */
module Catalog {
  import opened Wrappers

  /** A non-missing spreadsheet cell: a number or a piece of text. */
  datatype Cell = Num(x: real) | Text(s: string)

  /**
   * One row of a parsed sheet, restricted to the four columns the catalog uses
   * (Item, un, Quantidade Total, Valor Total); None is a missing (NA) cell.
   */
  datatype Row = Row(item: Option<Cell>, un: Option<Cell>, quantity: Option<Cell>, total: Option<Cell>)

  /** The outcome of reading one sheet with the header on its sixth row. */
  datatype SheetRead = Unparsable | Parsed(columns: set<string>, rows: seq<Row>)

  datatype Sheet = Sheet(name: string, read: SheetRead)

  /** A workbook, or a file that cannot be opened as one. */
  datatype Workbook = Corrupt | Workbook(sheets: seq<Sheet>)

  /** The column names a sheet must carry to be taken as the price table. */
  const EXPECTED_COLUMNS: seq<string> := ["Item", "un", "Quantidade Total", "Valor Total"]

  // ---------------------------------------------------------------- sheet search

  predicate HasExpectedColumns(s: Sheet) {
    s.read.Parsed? && forall c :: c in EXPECTED_COLUMNS ==> c in s.read.columns
  }

  /** Sheet i carries the expected columns and no earlier sheet does. */
  predicate IsFirstMatch(sheets: seq<Sheet>, i: int) {
    && 0 <= i < |sheets|
    && HasExpectedColumns(sheets[i])
    && forall j :: 0 <= j < i ==> !HasExpectedColumns(sheets[j])
  }

  predicate NoMatch(sheets: seq<Sheet>) {
    forall j :: 0 <= j < |sheets| ==> !HasExpectedColumns(sheets[j])
  }

  /**
   * Scans the sheets in file order, skipping those whose read fails, and stops at
   * the first one whose columns include all expected names.
   */
  method FindSheet(sheets: seq<Sheet>) returns (found: Option<nat>)
    ensures found.Some? ==> IsFirstMatch(sheets, found.value)
    ensures found.None? <==> NoMatch(sheets)
  {
    found := None;
    var i := 0;
    while i < |sheets|
      invariant 0 <= i <= |sheets|
      invariant found == None
      invariant forall j :: 0 <= j < i ==> !HasExpectedColumns(sheets[j])
    {
      if sheets[i].read.Unparsable? {
        // reading this sheet raised: try the next one
        i := i + 1;
        continue;
      }
      if HasExpectedColumns(sheets[i]) {
        found := Some(i);
        break;
      }
      i := i + 1;
    }
  }

  // ---------------------------------------------------------------- unit prices

  /** A row kept in the catalog table, with the derived valor_unitario column. */
  datatype PricedRow = PricedRow(item: Cell, un: Option<Cell>, quantity: real, total: real, unitPrice: real)

  /** The sheet row a priced row was derived from. */
  function AsRow(p: PricedRow): Row {
    Row(Some(p.item), p.un, Some(Num(p.quantity)), Some(Num(p.total)))
  }

  function AsRows(ps: seq<PricedRow>): (rs: seq<Row>)
    ensures |rs| == |ps|
  {
    if ps == [] then [] else [AsRow(ps[0])] + AsRows(ps[1..])
  }

  /** A row that yields a defined unit price: item present, numeric non-zero quantity, numeric total. */
  predicate Usable(r: Row) {
    && r.item.Some?
    && r.quantity.Some? && r.quantity.value.Num? && r.quantity.value.x != 0.0
    && r.total.Some? && r.total.value.Num?
  }

  /**
   * A row on which the division raises: it passes the missing-value mask, its
   * quantity is not the number zero, and one of the two operands is text.
   */
  predicate Clashes(r: Row) {
    && r.item.Some? && r.quantity.Some? && r.total.Some?
    && r.quantity != Some(Num(0.0))
    && (r.quantity.value.Text? || r.total.value.Text?)
  }

  /** The usable rows of a sheet, in sheet order. */
  function UsableRows(rows: seq<Row>): seq<Row> {
    if rows == [] then []
    else if Usable(rows[0]) then [rows[0]] + UsableRows(rows[1..])
    else UsableRows(rows[1..])
  }

  /** What the loading pipeline does with one row. */
  datatype Verdict = Dropped | Kept(priced: PricedRow) | TypeClash

  /** The replacement of a zero quantity by NA, done before dividing. */
  function ZeroToMissing(q: Option<Cell>): Option<Cell> {
    if q == Some(Num(0.0)) then None else q
  }

  /**
   * One row through the pipeline: drop it if Item, Quantidade Total or Valor
   * Total is missing; turn a zero quantity into NA; divide the total by the
   * quantity (NA when the quantity is NA, a type error when an operand is text);
   * drop it when the quotient is NA.
   */
  function Classify(r: Row): (v: Verdict)
    ensures v.Kept? <==> Usable(r)
    ensures v.TypeClash? <==> Clashes(r)
    ensures v.Kept? ==> AsRow(v.priced) == r
    ensures v.Kept? ==> v.priced.quantity != 0.0 && v.priced.unitPrice == v.priced.total / v.priced.quantity
  {
    if r.item.None? || r.quantity.None? || r.total.None? then Dropped
    else
      match ZeroToMissing(r.quantity)
      case None => Dropped
      case Some(q) =>
        if q.Num? && r.total.value.Num? then
          Kept(PricedRow(r.item.value, r.un, q.x, r.total.value.x, r.total.value.x / q.x))
        else TypeClash
  }

  /**
   * The catalog table derived from the rows of the chosen sheet, or None when the
   * division raises on some row (which aborts the whole load).
   */
  function Derive(rows: seq<Row>): (r: Option<seq<PricedRow>>)
    ensures r.None? <==> exists x :: x in rows && Clashes(x)
    ensures r.Some? ==> AsRows(r.value) == UsableRows(rows)
    ensures r.Some? ==> forall p :: p in r.value ==> p.quantity != 0.0 && p.unitPrice == p.total / p.quantity
  {
    if rows == [] then Some([])
    else
      match Classify(rows[0])
      case TypeClash => None
      case Dropped => Derive(rows[1..])
      case Kept(p) =>
        match Derive(rows[1..])
        case None => None
        case Some(rest) => Some([p] + rest)
  }

  /** xs can be obtained from ys by deleting elements. */
  ghost predicate Subsequence<T>(xs: seq<T>, ys: seq<T>) {
    if xs == [] then true
    else if ys == [] then false
    else (xs[0] == ys[0] && Subsequence(xs[1..], ys[1..])) || Subsequence(xs, ys[1..])
  }

  /** The retained rows keep the order of the sheet. */
  lemma {:induction false} UsableRowsInOrder(rows: seq<Row>)
    ensures Subsequence(UsableRows(rows), rows)
  {
    if rows != [] {
      UsableRowsInOrder(rows[1..]);
      if Usable(rows[0]) {
        assert UsableRows(rows)[1..] == UsableRows(rows[1..]);
      } else {
        SubsequenceSkip(UsableRows(rows[1..]), rows);
      }
    }
  }

  lemma SubsequenceSkip<T>(xs: seq<T>, ys: seq<T>)
    requires ys != [] && Subsequence(xs, ys[1..])
    ensures Subsequence(xs, ys)
  {
  }

  /** A row is retained exactly when it is a usable row of the sheet. */
  lemma {:induction false} UsableRowsMembership(rows: seq<Row>, x: Row)
    ensures x in UsableRows(rows) <==> x in rows && Usable(x)
  {
    if rows != [] {
      UsableRowsMembership(rows[1..], x);
      assert rows == [rows[0]] + rows[1..];
    }
  }

  // ---------------------------------------------------------------- loading

  datatype LoadError = Unreadable | NoMatchingSheet

  /** A loaded catalog table and the sheet it was read from. */
  datatype Loaded = Loaded(sheet: nat, name: string, rows: seq<PricedRow>)

  function SheetRows(s: Sheet): seq<Row> {
    if s.read.Parsed? then s.read.rows else []
  }

  /**
   * Opens the workbook, picks the first sheet with the expected columns and
   * derives its catalog table. Any failure to read, and a division that raises,
   * is reported as Unreadable; a workbook without a matching sheet as
   * NoMatchingSheet.
   */
  method LoadBaseTable(book: Workbook) returns (res: Result<Loaded, LoadError>)
    ensures book.Corrupt? ==> res == Failure(Unreadable)
    ensures res == Failure(NoMatchingSheet) <==> book.Workbook? && NoMatch(book.sheets)
    ensures res == Failure(Unreadable) <==>
      book.Corrupt? || (book.Workbook? && exists i :: IsFirstMatch(book.sheets, i) && Derive(SheetRows(book.sheets[i])).None?)
    ensures res.Success? <==>
      book.Workbook? && exists i :: IsFirstMatch(book.sheets, i) && Derive(SheetRows(book.sheets[i])).Some?
    ensures res.Success? ==>
      && book.Workbook?
      && IsFirstMatch(book.sheets, res.value.sheet)
      && res.value.name == book.sheets[res.value.sheet].name
      && Derive(SheetRows(book.sheets[res.value.sheet])) == Some(res.value.rows)
  {
    if book.Corrupt? {
      return Failure(Unreadable);
    }
    var found := FindSheet(book.sheets);
    if found.None? {
      return Failure(NoMatchingSheet);
    }
    var i := found.value;
    var sheet := book.sheets[i];
    match Derive(SheetRows(sheet))
    case None =>
      res := Failure(Unreadable);
    case Some(rows) =>
      res := Success(Loaded(i, sheet.name, rows));
      assert forall j :: IsFirstMatch(book.sheets, j) ==> j == i;
  }

  // ---------------------------------------------------------------- lookup map

  /** What the budget screen needs of a catalog item. */
  datatype Entry = Entry(un: Option<Cell>, unitPrice: real)

  function EntryOf(p: PricedRow): Entry {
    Entry(p.un, p.unitPrice)
  }

  /** rows[j] is the last row with its item among the first n rows. */
  predicate LastWithItem(rows: seq<PricedRow>, j: int, n: int)
    requires 0 <= j < n <= |rows|
  {
    forall m :: j < m < n ==> rows[m].item != rows[j].item
  }

  /** The index of the first row with item c, or |rows| when there is none. */
  function FirstIndex(rows: seq<PricedRow>, c: Cell): (r: nat)
    ensures r <= |rows|
    ensures r < |rows| ==> rows[r].item == c
  {
    if rows == [] then 0
    else if rows[0].item == c then 0
    else 1 + FirstIndex(rows[1..], c)
  }

  /** No row before FirstIndex(rows, c) has item c. */
  lemma {:induction false} FirstIndexIsFirst(rows: seq<PricedRow>, c: Cell)
    ensures forall m :: 0 <= m < FirstIndex(rows, c) ==> rows[m].item != c
  {
    if rows != [] && rows[0].item != c {
      FirstIndexIsFirst(rows[1..], c);
    }
  }

  /** The keys of base are the items of the first i rows. */
  ghost predicate KeysAfter(rows: seq<PricedRow>, base: map<Cell, Entry>, i: nat)
    requires i <= |rows|
  {
    base.Keys == set p | p in rows[..i] :: p.item
  }

  /** Each item of the first i rows maps to the entry of its last row among them. */
  ghost predicate LastWinsAfter(rows: seq<PricedRow>, base: map<Cell, Entry>, i: nat)
    requires i <= |rows|
  {
    forall j {:trigger LastWithItem(rows, j, i)} :: 0 <= j < i && LastWithItem(rows, j, i) ==> rows[j].item in base && base[rows[j].item] == EntryOf(rows[j])
  }

  /** order lists the keys of base, sorted by first row, all first seen before row i. */
  ghost predicate OrderAfter(rows: seq<PricedRow>, base: map<Cell, Entry>, order: seq<Cell>, i: nat) {
    && (forall k :: k in order <==> k in base)
    && (forall a :: 0 <= a < |order| ==> FirstIndex(rows, order[a]) < i)
    && (forall a, b :: 0 <= a < b < |order| ==> FirstIndex(rows, order[a]) < FirstIndex(rows, order[b]))
  }

  /** Assigning row i adds its item to the keys of the first i rows. */
  lemma KeysStep(rows: seq<PricedRow>, base: map<Cell, Entry>, i: nat)
    requires i < |rows| && KeysAfter(rows, base, i)
    ensures KeysAfter(rows, base[rows[i].item := EntryOf(rows[i])], i + 1)
  {
    assert rows[..i + 1] == rows[..i] + [rows[i]];
  }

  /** Assigning row i keeps every key at the entry of its last row so far. */
  lemma LastWinsStep(rows: seq<PricedRow>, base: map<Cell, Entry>, i: nat)
    requires i < |rows| && LastWinsAfter(rows, base, i)
    ensures LastWinsAfter(rows, base[rows[i].item := EntryOf(rows[i])], i + 1)
  {
    var next := base[rows[i].item := EntryOf(rows[i])];
    forall j | 0 <= j < i + 1 && LastWithItem(rows, j, i + 1)
      ensures rows[j].item in next && next[rows[j].item] == EntryOf(rows[j])
    {
      if j < i {
        assert rows[i].item != rows[j].item;
        assert LastWithItem(rows, j, i);
      }
    }
  }

  /** An item that does not occur among the first i rows first occurs at row i. */
  lemma NewItemFirstAt(rows: seq<PricedRow>, base: map<Cell, Entry>, i: nat)
    requires i < |rows| && KeysAfter(rows, base, i) && rows[i].item !in base
    ensures FirstIndex(rows, rows[i].item) == i
  {
    forall m | 0 <= m < i
      ensures rows[m].item != rows[i].item
    {
      assert rows[m] in rows[..i];
    }
    FirstIndexIsFirst(rows, rows[i].item);
  }

  /** Assigning a row whose item is already a key leaves the key order as it is. */
  lemma OrderStepKnown(rows: seq<PricedRow>, base: map<Cell, Entry>, order: seq<Cell>, i: nat)
    requires i < |rows| && rows[i].item in base && OrderAfter(rows, base, order, i)
    ensures OrderAfter(rows, base[rows[i].item := EntryOf(rows[i])], order, i + 1)
  {
  }

  /** Assigning a row with a new item appends that item to the key order. */
  lemma OrderStepNew(rows: seq<PricedRow>, base: map<Cell, Entry>, order: seq<Cell>, i: nat)
    requires i < |rows| && KeysAfter(rows, base, i) && rows[i].item !in base && OrderAfter(rows, base, order, i)
    ensures OrderAfter(rows, base[rows[i].item := EntryOf(rows[i])], order + [rows[i].item], i + 1)
  {
    NewItemFirstAt(rows, base, i);
    var c := rows[i].item;
    var next := order + [c];
    forall a | 0 <= a < |next|
      ensures FirstIndex(rows, next[a]) < i + 1
    {
      if a < |order| { assert next[a] == order[a]; }
    }
    forall a, b | 0 <= a < b < |next|
      ensures FirstIndex(rows, next[a]) < FirstIndex(rows, next[b])
    {
      assert next[a] == order[a];
      if b < |order| { assert next[b] == order[b]; }
    }
    assert forall k :: k in next <==> k in order || k == c;
  }

  /**
   * Builds the map from item to unit and unit price by assigning the rows in
   * order, so that a later row with the same item replaces an earlier one. The
   * dict's key order is returned as well: each item once, in the order of its
   * first row, since replacing a value keeps the key where it was.
   */
  method BuildBaseDict(rows: seq<PricedRow>) returns (base: map<Cell, Entry>, order: seq<Cell>)
    ensures base.Keys == set p | p in rows :: p.item
    ensures forall j {:trigger LastWithItem(rows, j, |rows|)} :: 0 <= j < |rows| && LastWithItem(rows, j, |rows|) ==> base[rows[j].item] == EntryOf(rows[j])
    ensures forall k :: k in order <==> k in base
    ensures forall a, b :: 0 <= a < b < |order| ==> FirstIndex(rows, order[a]) < FirstIndex(rows, order[b])
  {
    base, order := map[], [];
    for i := 0 to |rows|
      invariant KeysAfter(rows, base, i)
      invariant LastWinsAfter(rows, base, i)
      invariant OrderAfter(rows, base, order, i)
    {
      KeysStep(rows, base, i);
      LastWinsStep(rows, base, i);
      if rows[i].item in base {
        OrderStepKnown(rows, base, order, i);
      } else {
        OrderStepNew(rows, base, order, i);
        order := order + [rows[i].item];
      }
      base := base[rows[i].item := EntryOf(rows[i])];
    }
    assert rows[..|rows|] == rows;
  }
}
