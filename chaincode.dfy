/**
 * The chaincode as the peer runs it: one object holding the world state,
 * and one method per transaction that reads the record under a key,
 * checks the caller, updates the record field by field and writes it back.
 * Each method is proved to do what the matching function of Transitions
 * specifies, and to keep every stored record consistent with its history.
 */
module Chaincode {
  import opened Drugs
  import opened Transitions
  import opened Audit
  import opened Lifecycle

  class Ledger {
    /** The world state: drug ID to stored record. */
    var state: map<string, Drug>

    ghost predicate Valid()
      reads this
    {
      ConsistentState(state)
    }

    constructor ()
      ensures Valid() && state == map[]
    {
      state := map[];
    }

    method RegisterDrug(mspId: string, drugId: string, name: string, batchNumber: string,
                        mfgDate: string, expiryDate: string, composition: string, now: string)
      returns (outcome: Outcome)
      requires Valid()
      modifies this
      ensures Valid()
      ensures Effect(outcome, state) ==
              Register(old(state), mspId, drugId, name, batchNumber, mfgDate, expiryDate, composition, now)
    {
      if mspId != ManufacturerMsp {
        return Fail(Unauthorized);
      }
      if drugId in state {
        return Fail(AlreadyExists);
      }
      var drug := NewDrug(drugId, name, batchNumber, mfgDate, expiryDate, composition, now);
      StepKeepsConsistent(state, RegisterTx(mspId, drugId, name, batchNumber, mfgDate, expiryDate, composition, now));
      state := state[drugId := drug];
      outcome := Pass;
    }

    method ShipDrug(mspId: string, drugId: string, to: string, now: string) returns (outcome: Outcome)
      requires Valid()
      modifies this
      ensures Valid()
      ensures Effect(outcome, state) == Ship(old(state), mspId, drugId, to, now)
    {
      if drugId !in state {
        return Fail(NotFound);
      }
      var drug := state[drugId];
      if |mspId| < 3 {
        return Fail(MalformedMspId);
      }
      if drug.currentOwner != mspId[..|mspId| - 3] {
        return Fail(Unauthorized);
      }
      var from := drug.currentOwner;
      drug := drug.(currentOwner := to);
      drug := drug.(status := StatusInTransit);
      drug := drug.(history := drug.history + [Event(now, Shipped, from, to, "")]);
      StepKeepsConsistent(state, ShipTx(mspId, drugId, to, now));
      state := state[drugId := drug];
      outcome := Pass;
    }

    method RecallDrug(mspId: string, drugId: string, reason: string, now: string) returns (outcome: Outcome)
      requires Valid()
      modifies this
      ensures Valid()
      ensures Effect(outcome, state) == Recall(old(state), mspId, drugId, reason, now)
    {
      if mspId != RegulatorMsp {
        return Fail(Unauthorized);
      }
      if drugId !in state {
        return Fail(NotFound);
      }
      var drug := state[drugId];
      drug := drug.(isRecalled := true);
      drug := drug.(status := StatusRecalled);
      drug := drug.(inspectionNotes := drug.inspectionNotes + [RecallNote(now, reason)]);
      drug := drug.(history := drug.history + [Event(now, Recalled, Regulator, "-", "Reason: " + reason)]);
      StepKeepsConsistent(state, RecallTx(mspId, drugId, reason, now));
      state := state[drugId := drug];
      outcome := Pass;
    }

    /** Reads the record under `drugId`; there is no check on the caller. */
    method TrackDrug(drugId: string) returns (r: Result<Drug>)
      ensures r == Track(state, drugId)
    {
      if drugId !in state {
        return Err(NotFound);
      }
      r := Ok(state[drugId]);
    }
  }

  /**
   * The walk-through of a batch's life: registration by the manufacturer, a
   * shipment by it, a rejected shipment by the regulator, a recall, and a
   * recall of an unknown ID.
   */
  method Walkthrough() {
    var ledger := new Ledger();
    var o1 := ledger.RegisterDrug(ManufacturerMsp, "DRUG-1", "ParacetamolX", "B100",
                                  "2025-01-01", "2027-01-01", "paracetamol 500mg", "t1");
    assert o1 == Pass;
    assert ledger.state["DRUG-1"].status == StatusInProduction;
    assert ledger.state["DRUG-1"].currentOwner == Manufacturer;
    assert |ledger.state["DRUG-1"].history| == 1;

    assert ManufacturerMsp == Manufacturer + "MSP";
    assert OwnerName(ManufacturerMsp) == Some(Manufacturer);
    var o2 := ledger.ShipDrug(ManufacturerMsp, "DRUG-1", "DistributorA", "t2");
    assert o2 == Pass;
    assert ledger.state["DRUG-1"].currentOwner == "DistributorA";
    assert |ledger.state["DRUG-1"].history| == 2;

    var before := ledger.state;
    var o3 := ledger.ShipDrug(RegulatorMsp, "DRUG-1", "DistributorB", "t3");
    assert o3 == Fail(Unauthorized) && ledger.state == before;

    var o4 := ledger.RecallDrug(RegulatorMsp, "DRUG-1", "contamination", "t4");
    assert o4 == Pass;
    assert ledger.state["DRUG-1"].isRecalled && ledger.state["DRUG-1"].status == StatusRecalled;
    assert |ledger.state["DRUG-1"].inspectionNotes| == 1 && |ledger.state["DRUG-1"].history| == 3;

    var o5 := ledger.RecallDrug(RegulatorMsp, "DRUG-404", "contamination", "t5");
    assert o5 == Fail(NotFound);
    var t := ledger.TrackDrug("DRUG-404");
    assert t == Err(NotFound);
  }
}
