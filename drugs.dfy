/**
 * The batch record of the drug-custody chaincode, the error kinds its
 * transactions report, and the well-known organisation names they compare
 * the caller's MSP ID against.
 */
module Drugs {

  datatype Option<T> = None | Some(value: T)

  /** Why a transaction was rejected. The world state is left as it was. */
  datatype Error =
    | Unauthorized    // the caller's MSP ID does not grant the operation
    | AlreadyExists   // RegisterDrug on an ID that already has a record
    | NotFound        // ShipDrug, RecallDrug or TrackDrug on an absent ID
    | MalformedMspId  // ShipDrug with an MSP ID too short to drop a three-character suffix

  datatype Outcome = Pass | Fail(error: Error)

  datatype Result<T> = Ok(value: T) | Err(error: Error)

  const ManufacturerMsp: string := "CiplaMSP"
  const RegulatorMsp: string := "CDSCOMSP"
  /** The organisation names written into records and history entries. */
  const Manufacturer: string := "Cipla"
  const Regulator: string := "CDSCO"

  /** The values the `status` field takes. Nothing ever writes Delivered. */
  const StatusInProduction: string := "InProduction"
  const StatusInTransit: string := "InTransit"
  const StatusDelivered: string := "Delivered"
  const StatusRecalled: string := "Recalled"

  datatype EventKind = Created | Shipped | Recalled {
    /** The word that stands in the second field of a history line. */
    function Name(): string {
      match this
      case Created => "Created"
      case Shipped => "Shipped"
      case Recalled => "Recalled"
    }
  }

  /** One history entry, the fields of a "timestamp|event|from|to|details" line. */
  datatype Event = Event(timestamp: string, kind: EventKind, from: string, to: string, detail: string)

  /** One pharmaceutical batch as stored under its ID in the world state. */
  datatype Drug = Drug(
    drugId: string,
    name: string,
    manufacturer: string,
    batchNumber: string,
    mfgDate: string,
    expiryDate: string,
    composition: string,
    currentOwner: string,
    status: string,
    history: seq<Event>,
    isRecalled: bool,
    inspectionNotes: seq<string>)

  /**
   * The organisation name ShipDrug derives from an MSP ID by dropping its last
   * three characters ("Cipla" from "CiplaMSP"); None where the slice would
   * be out of range.
   */
  function OwnerName(mspId: string): (r: Option<string>)
    ensures r.Some? <==> |mspId| >= 3
    ensures r.Some? ==> |r.value| == |mspId| - 3 && r.value + mspId[|mspId| - 3..] == mspId
  {
    if |mspId| < 3 then None else Some(mspId[..|mspId| - 3])
  }

  /**
   * Only the length of the suffix matters: the owner name followed by any
   * three characters passes as that owner's MSP ID.
   */
  lemma AnySuffixNamesOwner(owner: string, suffix: string)
    requires |suffix| == 3
    ensures OwnerName(owner + suffix) == Some(owner)
  {
    assert (owner + suffix)[..|owner|] == owner;
  }

  /** The caller holds custody of `d` when its MSP ID minus the suffix names the owner. */
  predicate IsOwner(d: Drug, mspId: string) {
    OwnerName(mspId) == Some(d.currentOwner)
  }

  /** The record RegisterDrug builds for a new batch. */
  function NewDrug(drugId: string, name: string, batchNumber: string, mfgDate: string,
                   expiryDate: string, composition: string, now: string): Drug
  {
    Drug(drugId, name, Manufacturer, batchNumber, mfgDate, expiryDate, composition,
         Manufacturer, StatusInProduction,
         [Event(now, Created, Manufacturer, "-", "Batch: " + batchNumber)],
         false, [])
  }

  /** The inspection note RecallDrug appends: "timestamp: reason". */
  function RecallNote(now: string, reason: string): string {
    now + ": " + reason
  }

  /** The attributes fixed at registration are the same in both records. */
  predicate SameBatch(d: Drug, d': Drug) {
    && d'.drugId == d.drugId
    && d'.name == d.name
    && d'.manufacturer == d.manufacturer
    && d'.batchNumber == d.batchNumber
    && d'.mfgDate == d.mfgDate
    && d'.expiryDate == d.expiryDate
    && d'.composition == d.composition
  }
}
