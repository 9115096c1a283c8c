/** The orders hook: status updates, note appends, the CSV text of the
    export and the order-insights call. The seed orders carry no `notes`
    field, while `addOrderNote` reads and writes one, so `notes` is optional.
    Totals are whole numbers, as in every seed order. */
module Orders {
  import opened Wrappers
  import Text
  import Store

  datatype CustomerRef = CustomerRef(name: string, id: string, location: string)

  datatype OrderLine = OrderLine(id: string, name: string, quantity: int, price: int)

  /** A note: the timestamp used as its id, its text and an ISO date. */
  datatype Note = Note(id: int, text: string, date: string)

  /** `status` is a free string: `updateOrderStatus` accepts any value. */
  datatype Order = Order(
    id: string, customer: CustomerRef, products: seq<OrderLine>, status: string, total: int,
    createdAt: string, updatedAt: string, estimatedDelivery: string, notes: Option<seq<Note>>)

  function IdOf(o: Order): string { o.id }

  const Seeds: seq<Order> := [
    Order("ORD-001628", CustomerRef("Apple Inc.", "CUST001", "Cupertino, CA"),
      [OrderLine("INV001", "Microprocessors A12", 200, 125), OrderLine("INV002", "Display Modules 5.5\"", 150, 75)],
      "shipped", 34840, "2023-11-01T09:00:00Z", "2023-11-01T14:30:00Z", "2023-11-10T00:00:00Z", None),
    Order("ORD-001627", CustomerRef("Tesla Motors", "CUST002", "Fremont, CA"),
      [OrderLine("INV003", "Battery Cells 3000mAh", 500, 24), OrderLine("INV007", "Charging Modules 20W", 50, 11)],
      "processing", 12350, "2023-10-31T15:20:00Z", "2023-10-31T16:45:00Z", "2023-11-08T00:00:00Z", None),
    Order("ORD-001626", CustomerRef("Samsung Electronics", "CUST003", "Seoul, SK"),
      [OrderLine("INV001", "Microprocessors A12", 150, 125), OrderLine("INV005", "Circuit Boards V2", 200, 45),
       OrderLine("INV006", "Touch Sensors T10", 300, 15)],
      "delivered", 28654, "2023-10-30T10:15:00Z", "2023-11-01T09:30:00Z", "2023-11-02T00:00:00Z", None),
    Order("ORD-001625", CustomerRef("Microsoft Corp", "CUST004", "Redmond, WA"),
      [OrderLine("INV002", "Display Modules 5.5\"", 100, 75), OrderLine("INV005", "Circuit Boards V2", 150, 45),
       OrderLine("INV008", "Glass Panels Premium", 80, 40)],
      "pending", 18290, "2023-10-29T14:50:00Z", "2023-10-29T14:50:00Z", "2023-11-15T00:00:00Z", None)
  ]

  // ---------------------------------------------------------------------
  // Status updates
  // ---------------------------------------------------------------------

  /** `updateOrderStatus`: a `map` over the whole list, so every order with
      the id gets the new status; there is no check on the transition. */
  function UpdateOrderStatus(os: seq<Order>, id: string, status: string): (r: seq<Order>)
    ensures |r| == |os|
    ensures forall i :: 0 <= i < |os| ==> r[i].status == (if os[i].id == id then status else os[i].status)
    ensures forall i :: 0 <= i < |os| ==> r[i].(status := os[i].status) == os[i]
  {
    seq(|os|, i requires 0 <= i < |os| => if os[i].id == id then os[i].(status := status) else os[i])
  }

  /** An unknown id changes nothing; a second update of the same id
      overrides the first; the ids and their order never change. */
  lemma UpdateStatusLaws(os: seq<Order>, id: string, a: string, b: string)
    ensures (forall i :: 0 <= i < |os| ==> os[i].id != id) ==> UpdateOrderStatus(os, id, a) == os
    ensures UpdateOrderStatus(UpdateOrderStatus(os, id, a), id, b) == UpdateOrderStatus(os, id, b)
    ensures forall i :: 0 <= i < |os| ==> UpdateOrderStatus(os, id, a)[i].id == os[i].id
  {
  }

  // ---------------------------------------------------------------------
  // Notes
  // ---------------------------------------------------------------------

  /** `order.notes || []`. */
  function NotesOf(o: Order): seq<Note> {
    o.notes.GetOr([])
  }

  /** `addOrderNote`: every order with the id gets the note appended to its
      notes (a missing list counts as empty); the timestamp and date are
      parameters. */
  function AddOrderNote(os: seq<Order>, id: string, text: string, stamp: int, date: string): (r: seq<Order>)
    ensures |r| == |os|
    ensures forall i :: 0 <= i < |os| && os[i].id != id ==> r[i] == os[i]
    ensures forall i :: 0 <= i < |os| && os[i].id == id ==>
      r[i].notes.Some? && r[i].(notes := os[i].notes) == os[i]
  {
    seq(|os|, i requires 0 <= i < |os| =>
      if os[i].id == id then os[i].(notes := Some(NotesOf(os[i]) + [Note(stamp, text, date)])) else os[i])
  }

  /** On a matching order the note list grows by exactly one: the earlier
      notes stay in front and the new note is last. */
  lemma AddOrderNoteAppends(os: seq<Order>, id: string, text: string, stamp: int, date: string, i: nat)
    requires i < |os| && os[i].id == id
    ensures var after := NotesOf(AddOrderNote(os, id, text, stamp, date)[i]);
            |after| == |NotesOf(os[i])| + 1
            && after[..|NotesOf(os[i])|] == NotesOf(os[i])
            && after[|after| - 1] == Note(stamp, text, date)
  {
  }

  // ---------------------------------------------------------------------
  // CSV export
  // ---------------------------------------------------------------------

  const Header: string := "ID,Customer,Status,Total,Date"

  /** The five exported fields of an order. */
  function Fields(o: Order): (f: seq<string>)
    ensures |f| == 5
  {
    [o.id, o.customer.name, o.status, Text.IntToString(o.total), o.createdAt]
  }

  /** One CSV row: the fields joined by commas, with no quoting. */
  function Row(o: Order): string {
    Text.Join(Fields(o), ",")
  }

  function Rows(os: seq<Order>): (rows: seq<string>)
    ensures |rows| == |os|
    ensures forall i :: 0 <= i < |os| ==> rows[i] == Row(os[i])
  {
    if |os| == 0 then [] else [Row(os[0])] + Rows(os[1..])
  }

  /** The exported text: header, newline, then the rows joined by newlines. */
  function ExportCsv(os: seq<Order>): (csv: string)
    ensures Header + "\n" <= csv
  {
    Header + "\n" + Text.Join(Rows(os), "\n")
  }

  /** An empty order list exports the header and a lone newline. */
  lemma ExportEmpty()
    ensures ExportCsv([]) == "ID,Customer,Status,Total,Date\n"
  {
  }

  /** No field of `o` holds a newline. */
  predicate SingleLine(o: Order) {
    '\n' !in o.id && '\n' !in o.customer.name && '\n' !in o.status && '\n' !in o.createdAt
  }

  /** No field of `o` holds a comma. */
  predicate CommaFree(o: Order) {
    ',' !in o.id && ',' !in o.customer.name && ',' !in o.status && ',' !in o.createdAt
  }

  lemma RowSingleLine(o: Order)
    requires SingleLine(o)
    ensures '\n' !in Row(o)
  {
    Text.JoinAvoids(Fields(o), ",", '\n');
  }

  /** No line of the export other than the separators holds a newline. */
  lemma RowsSingleLine(os: seq<Order>)
    requires forall i :: 0 <= i < |os| ==> SingleLine(os[i])
    ensures forall i :: 0 <= i < |Rows(os)| ==> '\n' !in Rows(os)[i]
  {
    forall i | 0 <= i < |Rows(os)|
      ensures '\n' !in Rows(os)[i]
    {
      RowSingleLine(os[i]);
    }
  }

  lemma HeaderSingleLine()
    ensures '\n' !in Header
  {
  }

  /** A single-line head, a newline, then single-line lines joined by
      newlines: splitting on newlines recovers the head and the lines. */
  lemma SplitLines(head: string, lines: seq<string>)
    requires '\n' !in head
    requires forall i :: 0 <= i < |lines| ==> '\n' !in lines[i]
    ensures Text.Split(head + "\n" + Text.Join(lines, "\n"), '\n') == [head] + (if |lines| == 0 then [""] else lines)
  {
    if |lines| == 0 {
      Text.JoinCons(head, [""], "\n");
      Text.SplitJoin([head, ""], '\n');
    } else {
      Text.JoinCons(head, lines, "\n");
      Text.SplitJoin([head] + lines, '\n');
    }
  }

  /** When no field spans lines, splitting the export on newlines gives the
      header and then exactly one line per order, in order. */
  lemma {:induction false} ExportLines(os: seq<Order>)
    requires forall i :: 0 <= i < |os| ==> SingleLine(os[i])
    ensures Text.Split(ExportCsv(os), '\n') == [Header] + (if |os| == 0 then [""] else Rows(os))
  {
    var rows := Rows(os);
    var head := Header;
    HeaderSingleLine();
    RowsSingleLine(os);
    SplitLines(head, rows);
    assert ExportCsv(os) == head + "\n" + Text.Join(rows, "\n");
  }

  /** Commas in the fields total. */
  function FieldCommas(o: Order): nat {
    Text.CountChar(o.id, ',') + Text.CountChar(o.customer.name, ',')
      + Text.CountChar(o.status, ',') + Text.CountChar(o.createdAt, ',')
  }

  /** Every comma inside a field adds one column: a row splits into five
      columns plus one per embedded comma. */
  lemma RowColumnCount(o: Order)
    ensures |Text.Split(Row(o), ',')| == 5 + FieldCommas(o)
  {
    var f := Fields(o);
    Text.SplitCount(Row(o), ',');
    Text.CountCharJoin(f, ',');
    Text.CountCharAbsent(Text.IntToString(o.total), ',');
    assert f[1..][1..][1..][1..][1..] == [];
    assert Text.CountCharAll(f[1..][1..][1..][1..], ',') == Text.CountChar(o.createdAt, ',');
    assert Text.CountCharAll(f[1..][1..][1..], ',') == Text.CountChar(o.createdAt, ',');
    assert Text.CountCharAll(f[1..][1..], ',') == Text.CountChar(o.status, ',') + Text.CountChar(o.createdAt, ',');
  }

  /** A row splits back into its five fields exactly when no field holds a
      comma. */
  lemma RowRoundTrip(o: Order)
    ensures Text.Split(Row(o), ',') == Fields(o) <==> CommaFree(o)
  {
    RowColumnCount(o);
    Text.CountCharAbsent(o.id, ',');
    Text.CountCharAbsent(o.customer.name, ',');
    Text.CountCharAbsent(o.status, ',');
    Text.CountCharAbsent(o.createdAt, ',');
    if CommaFree(o) {
      Text.SplitJoin(Fields(o), ',');
    }
  }

  // ---------------------------------------------------------------------
  // Order insights
  // ---------------------------------------------------------------------

  /** Whatever an insight would hold. */
  datatype Insight = Insight(summary: string)

  /** The error message shown, if any, and the value returned. */
  datatype InsightsReply = InsightsReply(value: Option<Insight>, error: Option<string>)

  const NotConfiguredMessage := "ML service not configured"
  const FailedMessage := "Failed to get order insights"

  /** `mlService.analyzeOrder(order)`: the service defines no such method, so
      the call throws a TypeError. */
  function AnalyzeOrder(o: Order): Result<Insight, Failure> {
    Err(TypeError)
  }

  /** `getOrderInsights`: `null` when the service is unconfigured, when no
      order has the id, and when the analysis throws; the last shows an
      error message. */
  function GetOrderInsights(configured: bool, os: seq<Order>, id: string): (r: InsightsReply)
    ensures r.value.None?
    ensures r.error == Some(NotConfiguredMessage) <==> !configured
    ensures r.error.None? <==> configured && !Store.HasId(os, id, IdOf)
  {
    if !configured then InsightsReply(None, Some(NotConfiguredMessage))
    else match Store.FindIndex(os, id, IdOf)
      case None => InsightsReply(None, None)
      case Some(i) =>
        match AnalyzeOrder(os[i])
        case Ok(v) => InsightsReply(Some(v), None)
        case Err(_) => InsightsReply(None, Some(FailedMessage))
  }
}
