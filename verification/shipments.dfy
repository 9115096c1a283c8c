/** Shipments: the record the add-shipment modal builds, the table's tab
    filter, status colours and icons, and the three status cards. */
module Shipments {
  import Text
  import Seqs
  import Ui

  datatype Mode = Truck | Ship | Air | Rail

  /** A shipment's status: exactly three values. */
  datatype ShipmentStatus = Scheduled | InTransit | Delivered {
    function Label(): string {
      match this
      case Scheduled => "Scheduled"
      case InTransit => "In Transit"
      case Delivered => "Delivered"
    }
  }

  /** The modal's six form fields. */
  datatype ShipmentForm = ShipmentForm(
    origin: string, destination: string, carrier: string, mode: Mode, departureDate: string, eta: string)

  datatype Shipment = Shipment(
    id: string, origin: string, destination: string, carrier: string, mode: Mode,
    departureDate: string, eta: string, status: ShipmentStatus, progress: int)

  /** Empty fields, mode Truck. */
  const InitialForm := ShipmentForm("", "", "", Truck, "", "")

  /** The form fields a shipment carries. */
  function FormOf(s: Shipment): ShipmentForm {
    ShipmentForm(s.origin, s.destination, s.carrier, s.mode, s.departureDate, s.eta)
  }

  // ---------------------------------------------------------------------
  // New shipments
  // ---------------------------------------------------------------------

  /** `Math.floor(Math.random() * 1000)`. */
  type Draw = n: nat | n < 1000

  /** `SHP` followed by the draw, zero-padded to three digits. */
  function NewId(n: Draw): (id: string)
    ensures |id| == 6 && id[..3] == "SHP"
    ensures Text.AllDigits(id[3..]) && Text.DigitsValue(id[3..]) == n
  {
    Text.Pad3Digits(n);
    var id := "SHP" + Text.Pad3(n);
    assert id[3..] == Text.Pad3(n);
    id
  }

  /** Different draws give different ids, and the draw 1 gives the id of
      the first initial shipment. */
  lemma NewIdLaws(a: Draw, b: Draw)
    ensures NewId(a) == NewId(b) ==> a == b
    ensures NewId(1) == "SHP001"
  {
    if NewId(a) == NewId(b) {
      assert NewId(a)[3..] == NewId(b)[3..];
    }
    NewIdOne();
  }

  lemma NewIdOne()
    ensures NewId(1) == "SHP001"
  {
    assert Text.NatToString(1) == ['1'];
    assert Text.Pad3(1) == Text.Repeat('0', 2) + ['1'];
    assert Text.Repeat('0', 2) == ['0', '0'];
    assert NewId(1) == ['S', 'H', 'P', '0', '0', '1'];
  }

  /** The shipment `handleSubmit` builds: the draw's id, then every form
      field, then status Scheduled and progress 0. */
  function NewShipment(form: ShipmentForm, n: Draw): (s: Shipment)
    ensures s.id == NewId(n) && FormOf(s) == form
    ensures s.status == Scheduled && s.progress == 0
  {
    Shipment(NewId(n), form.origin, form.destination, form.carrier, form.mode,
      form.departureDate, form.eta, Scheduled, 0)
  }

  /** What a submit does: hands one shipment to the page, resets the form
      and closes the dialog. */
  datatype SubmitEffect = SubmitEffect(added: Shipment, form: ShipmentForm, open: bool)

  function Submit(form: ShipmentForm, n: Draw): (r: SubmitEffect)
    ensures r.added == NewShipment(form, n)
    ensures r.form == InitialForm && !r.open
  {
    SubmitEffect(NewShipment(form, n), InitialForm, false)
  }

  // ---------------------------------------------------------------------
  // Table
  // ---------------------------------------------------------------------

  /** The status as the table compares it: by its display text. */
  function HasStatusText(t: string): Shipment -> bool {
    (s: Shipment) => s.status.Label() == t
  }

  function HasStatus(st: ShipmentStatus): Shipment -> bool {
    (s: Shipment) => s.status == st
  }

  /** The table's tab test. "all" and any unknown tab keep everything. */
  function TabTest(tab: string): Shipment -> bool {
    if tab == "transit" then HasStatusText("In Transit")
    else if tab == "scheduled" then HasStatusText("Scheduled")
    else if tab == "delivered" then HasStatusText("Delivered")
    else if tab == "delayed" then HasStatusText("Delayed")
    else (s: Shipment) => true
  }

  /** `filteredShipments` of the table. */
  function TabFilter(ss: seq<Shipment>, tab: string): (r: seq<Shipment>)
    ensures |r| <= |ss|
  {
    Seqs.Filter(ss, TabTest(tab))
  }

  lemma LabelInjective(a: ShipmentStatus, b: ShipmentStatus)
    ensures a.Label() == b.Label() <==> a == b
  {
  }

  /** Each named tab keeps exactly the shipments of its status, in order;
      "all" and unknown tabs keep everything; "delayed" keeps nothing,
      because no status reads "Delayed". */
  lemma TabFilterLaws(ss: seq<Shipment>, tab: string)
    ensures tab == "transit" ==> TabFilter(ss, tab) == Seqs.Filter(ss, HasStatus(InTransit))
    ensures tab == "scheduled" ==> TabFilter(ss, tab) == Seqs.Filter(ss, HasStatus(Scheduled))
    ensures tab == "delivered" ==> TabFilter(ss, tab) == Seqs.Filter(ss, HasStatus(Delivered))
    ensures tab == "delayed" ==> TabFilter(ss, tab) == []
    ensures tab !in ["transit", "scheduled", "delivered", "delayed"] ==> TabFilter(ss, tab) == ss
  {
    if tab == "transit" {
      Seqs.SameFilter(ss, TabTest(tab), HasStatus(InTransit));
    } else if tab == "scheduled" {
      Seqs.SameFilter(ss, TabTest(tab), HasStatus(Scheduled));
    } else if tab == "delivered" {
      Seqs.SameFilter(ss, TabTest(tab), HasStatus(Delivered));
    } else if tab == "delayed" {
      Seqs.FilterNone(ss, TabTest(tab));
    } else {
      Seqs.FilterAll(ss, TabTest(tab));
    }
  }

  /** `getStatusColor`: by status text. */
  function StatusColor(status: string): (v: Ui.BadgeVariant)
    ensures v == Ui.Default <==> status == "Delivered"
    ensures v == Ui.Outline <==> status == "Scheduled"
    ensures v == Ui.Destructive <==> status == "Delayed"
    ensures v == Ui.Secondary <==> status !in ["Delivered", "Scheduled", "Delayed"]
  {
    if status == "Delivered" then Ui.Default
    else if status == "In Transit" then Ui.Secondary
    else if status == "Scheduled" then Ui.Outline
    else if status == "Delayed" then Ui.Destructive
    else if status == "Cancelled" then Ui.Secondary
    else Ui.Secondary
  }

  /** `getStatusIcon`: by status text. */
  function StatusIcon(status: string): (i: Ui.StatusIcon)
    ensures i == Ui.CheckIcon <==> status == "Delivered"
    ensures i == Ui.AlertIcon <==> status == "Delayed" || status == "Cancelled"
    ensures i == Ui.ClockIcon <==> status !in ["Delivered", "Delayed", "Cancelled"]
  {
    if status == "Delivered" then Ui.CheckIcon
    else if status == "Delayed" then Ui.AlertIcon
    else if status == "Cancelled" then Ui.AlertIcon
    else Ui.ClockIcon
  }

  /** For the three real statuses: three different colours, never the
      destructive one, and never the alert icon. */
  lemma TypedStatusDisplay(a: ShipmentStatus, b: ShipmentStatus)
    ensures StatusColor(a.Label()) == StatusColor(b.Label()) ==> a == b
    ensures StatusColor(a.Label()) != Ui.Destructive
    ensures StatusIcon(a.Label()) != Ui.AlertIcon
  {
  }

  // ---------------------------------------------------------------------
  // Status cards
  // ---------------------------------------------------------------------

  /** The three cards: in transit, scheduled, delivered. */
  datatype Stats = Stats(inTransit: nat, scheduled: nat, delivered: nat)

  function StatsOf(ss: seq<Shipment>): (r: Stats)
    ensures r.inTransit == Seqs.Count(ss, HasStatus(InTransit))
    ensures r.scheduled == Seqs.Count(ss, HasStatus(Scheduled))
    ensures r.delivered == Seqs.Count(ss, HasStatus(Delivered))
    ensures r.inTransit + r.scheduled + r.delivered == |ss|
  {
    Seqs.CountPartition3(ss, HasStatus(InTransit), HasStatus(Scheduled), HasStatus(Delivered));
    Stats(Seqs.Count(ss, HasStatus(InTransit)), Seqs.Count(ss, HasStatus(Scheduled)),
      Seqs.Count(ss, HasStatus(Delivered)))
  }

  /** Appending one shipment adds one to the count of its status only. */
  lemma CountAppend(ss: seq<Shipment>, s: Shipment, st: ShipmentStatus)
    ensures Seqs.Count(ss + [s], HasStatus(st)) == Seqs.Count(ss, HasStatus(st)) + (if s.status == st then 1 else 0)
  {
    Seqs.FilterAppend(ss, [s], HasStatus(st));
    assert [s][1..] == [];
  }

  /** A shipment from the modal raises the Scheduled card by one and leaves
      the other two. */
  lemma AddRaisesScheduled(ss: seq<Shipment>, form: ShipmentForm, n: Draw)
    ensures var after := StatsOf(ss + [NewShipment(form, n)]);
            after == StatsOf(ss).(scheduled := StatsOf(ss).scheduled + 1)
  {
    var s := NewShipment(form, n);
    CountAppend(ss, s, InTransit);
    CountAppend(ss, s, Scheduled);
    CountAppend(ss, s, Delivered);
  }
}
