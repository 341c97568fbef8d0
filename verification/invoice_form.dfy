/** The invoice editor opened from an appointment (`InvoiceForm`): service
    lines that each carry their own subtotal, and the invoice totals. */
module InvoiceForm {
  import opened Wrappers
  import opened Seqs

  /** A service as the editor lists it. */
  datatype ServiceOption = ServiceOption(id: nat, name: string, price: real)

  /** An invoice line, with its stored subtotal. */
  datatype InvoiceLine = InvoiceLine(serviceId: nat, quantity: real, unitPrice: real, subtotal: real)

  /** The stored subtotal is the unit price times the quantity. */
  predicate Consistent(l: InvoiceLine) { l.subtotal == l.unitPrice * l.quantity }

  predicate AllConsistent(lines: seq<InvoiceLine>)
  {
    forall i :: 0 <= i < |lines| ==> Consistent(lines[i])
  }

  /** The test `services.find(s => s.id === id)` applies. */
  function ServiceIdIs(id: nat): ServiceOption -> bool { (s: ServiceOption) => s.id == id }

  /** One unit of a service at its listed price. */
  function OneOf(s: ServiceOption): (l: InvoiceLine)
    ensures l.serviceId == s.id && l.quantity == 1.0 && l.unitPrice == s.price && Consistent(l)
  {
    InvoiceLine(s.id, 1.0, s.price, s.price)
  }

  /** The lines the editor opens with: one unit of the appointment's
      service when it is among the loaded services, else none. */
  function InitialLines(services: seq<ServiceOption>, appointmentService: nat): (r: seq<InvoiceLine>)
    ensures Find(services, ServiceIdIs(appointmentService)).None? ==> r == []
    ensures Find(services, ServiceIdIs(appointmentService)).Some? ==>
              |r| == 1 && r[0].serviceId == appointmentService && r[0].quantity == 1.0
              && r[0].unitPrice == Find(services, ServiceIdIs(appointmentService)).value.price
    ensures AllConsistent(r)
  {
    match Find(services, ServiceIdIs(appointmentService))
    case Some(s) => [OneOf(s)]
    case None => []
  }

  /** `addLine`: one unit of the first listed service, appended; nothing
      when no service is listed. */
  function AddLine(lines: seq<InvoiceLine>, services: seq<ServiceOption>): (r: seq<InvoiceLine>)
    ensures |services| == 0 ==> r == lines
    ensures |services| > 0 ==> |r| == |lines| + 1 && r[..|lines|] == lines
    ensures |services| > 0 ==> r[|lines|].serviceId == services[0].id && r[|lines|].quantity == 1.0
    ensures |services| > 0 ==> r[|lines|].unitPrice == services[0].price && r[|lines|].subtotal == services[0].price
  {
    if |services| == 0 then lines else lines + [OneOf(services[0])]
  }

  /** `updateLine`: with an unknown service nothing changes; otherwise line
      `idx` becomes that service at its price, with the given quantity and
      a recomputed subtotal, and every other line stays. */
  function UpdateLine(lines: seq<InvoiceLine>, services: seq<ServiceOption>, idx: nat, serviceId: nat, quantity: real): (r: seq<InvoiceLine>)
    requires idx < |lines|
    ensures Find(services, ServiceIdIs(serviceId)).None? ==> r == lines
    ensures |r| == |lines|
    ensures forall k :: 0 <= k < |lines| && k != idx ==> r[k] == lines[k]
    ensures Find(services, ServiceIdIs(serviceId)).Some? ==>
              r[idx].serviceId == serviceId && r[idx].quantity == quantity
              && r[idx].unitPrice == Find(services, ServiceIdIs(serviceId)).value.price && Consistent(r[idx])
  {
    match Find(services, ServiceIdIs(serviceId))
    case None => lines
    case Some(s) => lines[idx := InvoiceLine(serviceId, quantity, s.price, s.price * quantity)]
  }

  /** `removeLine`: only position `idx` goes; an index outside the lines
      removes nothing. */
  function RemoveLine(lines: seq<InvoiceLine>, idx: int): (r: seq<InvoiceLine>)
    ensures 0 <= idx < |lines| ==> r == lines[..idx] + lines[idx + 1..]
    ensures !(0 <= idx < |lines|) ==> r == lines
  {
    if 0 <= idx < |lines| then lines[..idx] + lines[idx + 1..] else lines
  }

  function StoredSubtotal(l: InvoiceLine): real { l.subtotal }
  function PriceTimesQuantity(l: InvoiceLine): real { l.unitPrice * l.quantity }

  /** The invoice subtotal: the sum of the stored line subtotals. */
  function Subtotal(lines: seq<InvoiceLine>): real { SumOf(lines, StoredSubtotal) }

  /** The invoice total: subtotal less discount plus surcharge, unclamped. */
  function Total(lines: seq<InvoiceLine>, discount: real, surcharge: real): real
  {
    Subtotal(lines) - discount + surcharge
  }

  /** Every line operation keeps each stored subtotal equal to unit price
      times quantity. */
  lemma {:induction false} OperationsKeepConsistent(lines: seq<InvoiceLine>, services: seq<ServiceOption>, idx: nat, serviceId: nat, quantity: real, removed: int)
    requires AllConsistent(lines)
    ensures AllConsistent(AddLine(lines, services))
    ensures idx < |lines| ==> AllConsistent(UpdateLine(lines, services, idx, serviceId, quantity))
    ensures AllConsistent(RemoveLine(lines, removed))
  {
    var r := RemoveLine(lines, removed);
    if 0 <= removed < |lines| {
      assert forall k :: 0 <= k < |r| ==> r[k] == lines[if k < removed then k else k + 1];
    }
  }

  /** On consistent lines, the invoice subtotal is the sum of unit price
      times quantity: the stored column agrees with a recomputation, and so
      does the total saved as the invoice's final amount. */
  lemma {:induction false} SubtotalRecomputes(lines: seq<InvoiceLine>)
    requires AllConsistent(lines)
    ensures Subtotal(lines) == SumOf(lines, PriceTimesQuantity)
    ensures forall discount: real, surcharge: real ::
      Total(lines, discount, surcharge) == SumOf(lines, PriceTimesQuantity) - discount + surcharge
  {
    SumOfCongruent(lines, StoredSubtotal, PriceTimesQuantity);
  }

  /** Changing one line moves the subtotal by exactly the change in that
      line's subtotal; removing one takes its subtotal out. */
  lemma {:induction false} LineChangesSubtotal(lines: seq<InvoiceLine>, services: seq<ServiceOption>, idx: nat, serviceId: nat, quantity: real)
    requires idx < |lines|
    ensures Subtotal(UpdateLine(lines, services, idx, serviceId, quantity))
            == Subtotal(lines) - lines[idx].subtotal + UpdateLine(lines, services, idx, serviceId, quantity)[idx].subtotal
    ensures Subtotal(RemoveLine(lines, idx)) == Subtotal(lines) - lines[idx].subtotal
  {
    var r := UpdateLine(lines, services, idx, serviceId, quantity);
    if Find(services, ServiceIdIs(serviceId)).Some? {
      assert r == lines[idx := r[idx]];
      SumOfUpdate(lines, idx, r[idx], StoredSubtotal);
    }
    SumOfRemove(lines, idx, StoredSubtotal);
  }
}
