/**
 * The chaincode's four transactions as functions of the world state (a map
 * from drug ID to record): each gives the outcome the transaction returns
 * and the world state it leaves. Every rejection leaves the world state as
 * it was; every success writes the one key it was called with.
 */
module Transitions {
  import opened Drugs

  type WorldState = map<string, Drug>

  datatype Effect = Effect(outcome: Outcome, ws: WorldState)

  /** `ws'` is `ws` with at most the record under `key` written. */
  predicate WritesOnly(ws: WorldState, ws': WorldState, key: string) {
    key in ws' && ws' == ws[key := ws'[key]]
  }

  /** RegisterDrug: the manufacturer creates the record of a new batch. */
  function Register(ws: WorldState, mspId: string, drugId: string, name: string, batchNumber: string,
                    mfgDate: string, expiryDate: string, composition: string, now: string): (r: Effect)
    ensures r.outcome == Fail(Unauthorized) <==> mspId != ManufacturerMsp
    ensures r.outcome == Fail(AlreadyExists) <==> mspId == ManufacturerMsp && drugId in ws
    ensures r.outcome.Pass? <==> mspId == ManufacturerMsp && drugId !in ws
    ensures r.outcome.Fail? ==> r.ws == ws
    ensures r.outcome.Pass? ==>
      && WritesOnly(ws, r.ws, drugId)
      && var d := r.ws[drugId];
      && d.drugId == drugId && d.name == name && d.batchNumber == batchNumber
      && d.mfgDate == mfgDate && d.expiryDate == expiryDate && d.composition == composition
      && d.manufacturer == Manufacturer && d.currentOwner == Manufacturer
      && d.status == StatusInProduction && !d.isRecalled
      && d.history == [Event(now, Created, Manufacturer, "-", "Batch: " + batchNumber)]
      && d.inspectionNotes == []
  {
    if mspId != ManufacturerMsp then Effect(Fail(Unauthorized), ws)
    else if drugId in ws then Effect(Fail(AlreadyExists), ws)
    else Effect(Pass, ws[drugId := NewDrug(drugId, name, batchNumber, mfgDate, expiryDate, composition, now)])
  }

  /** ShipDrug: the current owner hands the batch on to `to`. */
  function Ship(ws: WorldState, mspId: string, drugId: string, to: string, now: string): (r: Effect)
    ensures r.outcome == Fail(NotFound) <==> drugId !in ws
    ensures r.outcome == Fail(MalformedMspId) <==> drugId in ws && |mspId| < 3
    ensures r.outcome == Fail(Unauthorized) <==>
              drugId in ws && |mspId| >= 3 && mspId[..|mspId| - 3] != ws[drugId].currentOwner
    ensures r.outcome.Pass? <==> drugId in ws && IsOwner(ws[drugId], mspId)
    ensures r.outcome.Fail? ==> r.ws == ws
    ensures r.outcome.Pass? ==>
      && WritesOnly(ws, r.ws, drugId)
      && var d, d' := ws[drugId], r.ws[drugId];
      && SameBatch(d, d')
      && d'.currentOwner == to
      && d'.status == StatusInTransit
      && d'.history == d.history + [Event(now, Shipped, d.currentOwner, to, "")]
      && d'.isRecalled == d.isRecalled
      && d'.inspectionNotes == d.inspectionNotes
  {
    if drugId !in ws then Effect(Fail(NotFound), ws)
    else
      var d := ws[drugId];
      match OwnerName(mspId)
      case None => Effect(Fail(MalformedMspId), ws)
      case Some(owner) =>
        if d.currentOwner != owner then Effect(Fail(Unauthorized), ws)
        else
          var shipped := d.(currentOwner := to, status := StatusInTransit,
                            history := d.history + [Event(now, Shipped, d.currentOwner, to, "")]);
          Effect(Pass, ws[drugId := shipped])
  }

  /** RecallDrug: the regulator flags a batch as recalled, giving a reason. */
  function Recall(ws: WorldState, mspId: string, drugId: string, reason: string, now: string): (r: Effect)
    ensures r.outcome == Fail(Unauthorized) <==> mspId != RegulatorMsp
    ensures r.outcome == Fail(NotFound) <==> mspId == RegulatorMsp && drugId !in ws
    ensures r.outcome.Pass? <==> mspId == RegulatorMsp && drugId in ws
    ensures r.outcome.Fail? ==> r.ws == ws
    ensures r.outcome.Pass? ==>
      && WritesOnly(ws, r.ws, drugId)
      && var d, d' := ws[drugId], r.ws[drugId];
      && SameBatch(d, d')
      && d'.currentOwner == d.currentOwner
      && d'.isRecalled
      && d'.status == StatusRecalled
      && d'.inspectionNotes == d.inspectionNotes + [RecallNote(now, reason)]
      && d'.history == d.history + [Event(now, Recalled, Regulator, "-", "Reason: " + reason)]
  {
    if mspId != RegulatorMsp then Effect(Fail(Unauthorized), ws)
    else if drugId !in ws then Effect(Fail(NotFound), ws)
    else
      var d := ws[drugId];
      var recalled := d.(isRecalled := true, status := StatusRecalled,
                         inspectionNotes := d.inspectionNotes + [RecallNote(now, reason)],
                         history := d.history + [Event(now, Recalled, Regulator, "-", "Reason: " + reason)]);
      Effect(Pass, ws[drugId := recalled])
  }

  /** TrackDrug: anyone reads the stored record. */
  function Track(ws: WorldState, drugId: string): (r: Result<Drug>)
    ensures r.Ok? <==> drugId in ws
    ensures r.Ok? ==> r.value == ws[drugId]
    ensures r.Err? ==> r.error == NotFound
  {
    if drugId in ws then Ok(ws[drugId]) else Err(NotFound)
  }

  /** One submitted transaction with its caller's MSP ID and the block time. */
  datatype Tx =
    | RegisterTx(mspId: string, drugId: string, name: string, batchNumber: string,
                 mfgDate: string, expiryDate: string, composition: string, now: string)
    | ShipTx(mspId: string, drugId: string, to: string, now: string)
    | RecallTx(mspId: string, drugId: string, reason: string, now: string)
    | TrackTx(drugId: string)

  function Step(ws: WorldState, tx: Tx): Effect {
    match tx
    case RegisterTx(msp, id, name, batch, mfg, exp, comp, now) =>
      Register(ws, msp, id, name, batch, mfg, exp, comp, now)
    case ShipTx(msp, id, to, now) => Ship(ws, msp, id, to, now)
    case RecallTx(msp, id, reason, now) => Recall(ws, msp, id, reason, now)
    case TrackTx(id) =>
      var r := Track(ws, id);
      Effect(if r.Ok? then Pass else Fail(r.error), ws)
  }

  /** The world state after the transactions `txs` are committed in order. */
  function Run(ws: WorldState, txs: seq<Tx>): WorldState
    decreases |txs|
  {
    if txs == [] then ws else Run(Step(ws, txs[0]).ws, txs[1..])
  }
}
