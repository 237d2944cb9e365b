/**
 * What a batch's history says about it. Replaying the history gives the
 * current custodian, the status, and how many recalls were recorded; a
 * record is Consistent when its mutable fields agree with that replay.
 * Every transaction keeps every stored record Consistent (see Lifecycle),
 * so the event history is a complete audit trail of the record. (The text
 * lines the chaincode stores for it cannot always be read back: see
 * HistoryLine.DestinationBarIsAmbiguous.)
 */
module Audit {
  import opened Drugs

  /** The status a record has right after an event of kind `k`. */
  function StatusAfter(k: EventKind): (s: string)
    ensures s != StatusDelivered
  {
    match k
    case Created => StatusInProduction
    case Shipped => StatusInTransit
    case Recalled => StatusRecalled
  }

  /** Who holds the batch after the events of `h`: the creator, then each shipment's receiver. */
  function Custodian(h: seq<Event>): string
    decreases |h|
  {
    if h == [] then ""
    else
      var e := h[|h| - 1];
      match e.kind
      case Created => e.from
      case Shipped => e.to
      case Recalled => Custodian(h[..|h| - 1])
  }

  /** The number of Recalled events in `h`. */
  function Recalls(h: seq<Event>): nat
    decreases |h|
  {
    if h == [] then 0
    else Recalls(h[..|h| - 1]) + (if h[|h| - 1].kind == Recalled then 1 else 0)
  }

  /** Every shipment in `h` was sent by whoever held the batch at that point. */
  predicate ChainIntact(h: seq<Event>) {
    forall i :: 0 <= i < |h| && h[i].kind == Shipped ==> h[i].from == Custodian(h[..i])
  }

  /** The record stored under `key` agrees with its own history. */
  predicate Consistent(key: string, d: Drug) {
    && d.drugId == key
    && d.manufacturer == Manufacturer
    && |d.history| > 0
    && d.history[0].kind == Created
    && (forall i :: 0 < i < |d.history| ==> d.history[i].kind != Created)
    && d.status == StatusAfter(d.history[|d.history| - 1].kind)
    && d.currentOwner == Custodian(d.history)
    && ChainIntact(d.history)
    && |d.inspectionNotes| == Recalls(d.history)
    && d.isRecalled == (Recalls(d.history) > 0)
  }

  predicate ConsistentState(ws: map<string, Drug>) {
    forall k :: k in ws ==> Consistent(k, ws[k])
  }

  lemma CustodianAppend(h: seq<Event>, e: Event)
    ensures Custodian(h + [e]) == match e.kind
                                  case Created => e.from
                                  case Shipped => e.to
                                  case Recalled => Custodian(h)
  {
  }

  lemma RecallsAppend(h: seq<Event>, e: Event)
    ensures Recalls(h + [e]) == Recalls(h) + (if e.kind == Recalled then 1 else 0)
  {
  }

  lemma ChainAppend(h: seq<Event>, e: Event)
    requires ChainIntact(h)
    requires e.kind == Shipped ==> e.from == Custodian(h)
    ensures ChainIntact(h + [e])
  {
    var h' := h + [e];
    forall i | 0 <= i < |h'| && h'[i].kind == Shipped
      ensures h'[i].from == Custodian(h'[..i])
    {
      if i < |h| {
        assert h'[..i] == h[..i];
      } else {
        assert h'[..i] == h;
      }
    }
  }

  /** A freshly registered record agrees with its one-entry history. */
  lemma NewDrugConsistent(drugId: string, name: string, batchNumber: string, mfgDate: string,
                          expiryDate: string, composition: string, now: string)
    ensures Consistent(drugId, NewDrug(drugId, name, batchNumber, mfgDate, expiryDate, composition, now))
  {
  }

  /**
   * Appending an event that is not a creation, and updating the fields the
   * way that event says, keeps a record consistent.
   */
  lemma AppendConsistent(key: string, d: Drug, d': Drug, e: Event)
    requires Consistent(key, d)
    requires e.kind != Created
    requires SameBatch(d, d')
    requires d'.history == d.history + [e]
    requires d'.status == StatusAfter(e.kind)
    requires e.kind == Shipped ==> e.from == d.currentOwner && d'.currentOwner == e.to
    requires e.kind == Recalled ==> d'.currentOwner == d.currentOwner
    requires |d'.inspectionNotes| == |d.inspectionNotes| + (if e.kind == Recalled then 1 else 0)
    requires d'.isRecalled == (d.isRecalled || e.kind == Recalled)
    ensures Consistent(key, d')
  {
    CustodianAppend(d.history, e);
    RecallsAppend(d.history, e);
    ChainAppend(d.history, e);
  }

  /** A recall is recorded in the history exactly when the flag is set. */
  lemma {:induction false} RecallsPositive(h: seq<Event>)
    ensures Recalls(h) > 0 <==> exists i :: 0 <= i < |h| && h[i].kind == Recalled
    decreases |h|
  {
    if h != [] {
      var p := h[..|h| - 1];
      RecallsPositive(p);
      if exists i :: 0 <= i < |p| && p[i].kind == Recalled {
        var i :| 0 <= i < |p| && p[i].kind == Recalled;
        assert h[i] == p[i];
      }
      if exists i :: 0 <= i < |h| && h[i].kind == Recalled {
        var i :| 0 <= i < |h| && h[i].kind == Recalled;
        if i < |p| {
          assert p[i] == h[i];
        }
      }
    }
  }

  /**
   * What a consistent record promises a reader: it is never Delivered, it is
   * recalled exactly when it has inspection notes and exactly when its history
   * holds a Recalled entry, and its history opens with the one Created entry.
   */
  lemma ConsistentRecord(key: string, d: Drug)
    requires Consistent(key, d)
    ensures d.status != StatusDelivered
    ensures d.isRecalled <==> |d.inspectionNotes| > 0
    ensures d.isRecalled <==> exists i :: 0 <= i < |d.history| && d.history[i].kind == Recalled
    ensures d.history[0].kind == Created
  {
    RecallsPositive(d.history);
  }
}
