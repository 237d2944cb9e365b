/**
 * Properties of whole runs of transactions: what stays true of a batch
 * whatever is committed after it was registered.
 */
module Lifecycle {
  import opened Drugs
  import opened Transitions
  import opened Audit

  /**
   * `d'` is a later version of `d`: same batch, history and inspection notes
   * only extended at the end, and a recall flag that was never cleared.
   */
  predicate Evolves(d: Drug, d': Drug) {
    && SameBatch(d, d')
    && d.history <= d'.history
    && d.inspectionNotes <= d'.inspectionNotes
    && (d.isRecalled ==> d'.isRecalled)
  }

  lemma EvolvesTransitive(d0: Drug, d1: Drug, d2: Drug)
    requires Evolves(d0, d1) && Evolves(d1, d2)
    ensures Evolves(d0, d2)
  {
  }

  /**
   * One transaction writes at most the key it names, removes no key, and
   * leaves every stored record a later version of itself.
   */
  lemma StepFrame(ws: WorldState, tx: Tx)
    ensures var ws' := Step(ws, tx).ws;
            && (ws' == ws || WritesOnly(ws, ws', tx.drugId))
            && ws.Keys <= ws'.Keys
            && forall k :: k in ws ==> Evolves(ws[k], ws'[k])
  {
  }

  /** After any run, every record that existed is still there and has only evolved. */
  lemma {:induction false} RunEvolves(ws: WorldState, txs: seq<Tx>)
    ensures forall k :: k in ws ==> k in Run(ws, txs) && Evolves(ws[k], Run(ws, txs)[k])
    decreases |txs|
  {
    if txs != [] {
      var ws1 := Step(ws, txs[0]).ws;
      StepFrame(ws, txs[0]);
      RunEvolves(ws1, txs[1..]);
      forall k | k in ws
        ensures k in Run(ws, txs) && Evolves(ws[k], Run(ws, txs)[k])
      {
        EvolvesTransitive(ws[k], ws1[k], Run(ws1, txs[1..])[k]);
      }
    }
  }

  /** A key that no transaction of the run names is neither added, removed nor changed. */
  lemma {:induction false} RunLeavesOtherKeys(ws: WorldState, txs: seq<Tx>, key: string)
    requires forall i :: 0 <= i < |txs| ==> txs[i].drugId != key
    ensures key in Run(ws, txs) <==> key in ws
    ensures key in ws ==> Run(ws, txs)[key] == ws[key]
    decreases |txs|
  {
    if txs != [] {
      StepFrame(ws, txs[0]);
      RunLeavesOtherKeys(Step(ws, txs[0]).ws, txs[1..], key);
    }
  }

  /** Once a batch is recalled, no sequence of transactions clears the flag. */
  lemma RecallIsPermanent(ws: WorldState, txs: seq<Tx>, drugId: string)
    requires drugId in ws && ws[drugId].isRecalled
    ensures drugId in Run(ws, txs) && Run(ws, txs)[drugId].isRecalled
  {
    RunEvolves(ws, txs);
  }

  /** A batch's history is never shortened, rewritten or reordered: the old one is a prefix. */
  lemma HistoryIsAppendOnly(ws: WorldState, txs: seq<Tx>, drugId: string)
    requires drugId in ws
    ensures drugId in Run(ws, txs)
    ensures ws[drugId].history <= Run(ws, txs)[drugId].history
    ensures |ws[drugId].history| <= |Run(ws, txs)[drugId].history|
    ensures ws[drugId].inspectionNotes <= Run(ws, txs)[drugId].inspectionNotes
  {
    RunEvolves(ws, txs);
  }

  /**
   * Exactly-once registration: after a successful RegisterDrug of an ID,
   * whatever is committed next, a second RegisterDrug of that ID fails,
   * with AlreadyExists when the manufacturer sends it.
   */
  lemma RegisterOnlyOnce(ws: WorldState, first: Tx, txs: seq<Tx>, second: Tx)
    requires first.RegisterTx? && second.RegisterTx? && second.drugId == first.drugId
    requires Step(ws, first).outcome.Pass?
    ensures var ws' := Run(Step(ws, first).ws, txs);
            && Step(ws', second).outcome.Fail?
            && (second.mspId == ManufacturerMsp ==> Step(ws', second).outcome == Fail(AlreadyExists))
  {
    RunEvolves(Step(ws, first).ws, txs);
  }

  /** Every transaction keeps every stored record consistent with its history. */
  lemma StepKeepsConsistent(ws: WorldState, tx: Tx)
    requires ConsistentState(ws)
    ensures ConsistentState(Step(ws, tx).ws)
  {
    var r := Step(ws, tx);
    if r.outcome.Pass? && !tx.TrackTx? {
      var id := tx.drugId;
      forall k | k in r.ws ensures Consistent(k, r.ws[k]) {
        if k == id {
          match tx
          case RegisterTx(_, _, name, batch, mfg, exp, comp, now) =>
            NewDrugConsistent(id, name, batch, mfg, exp, comp, now);
          case ShipTx(_, _, _, _) =>
            var d, d' := ws[id], r.ws[id];
            AppendConsistent(id, d, d', d'.history[|d'.history| - 1]);
          case RecallTx(_, _, _, _) =>
            var d, d' := ws[id], r.ws[id];
            AppendConsistent(id, d, d', d'.history[|d'.history| - 1]);
        }
      }
    }
  }

  lemma {:induction false} RunKeepsConsistent(ws: WorldState, txs: seq<Tx>)
    requires ConsistentState(ws)
    ensures ConsistentState(Run(ws, txs))
    decreases |txs|
  {
    if txs != [] {
      StepKeepsConsistent(ws, txs[0]);
      RunKeepsConsistent(Step(ws, txs[0]).ws, txs[1..]);
    }
  }

  /**
   * Starting from an empty world state, no run ever produces a Delivered
   * batch, and every batch is recalled exactly when it carries inspection notes.
   */
  lemma NoRunDelivers(txs: seq<Tx>, drugId: string)
    requires drugId in Run(map[], txs)
    ensures Run(map[], txs)[drugId].status != StatusDelivered
    ensures Run(map[], txs)[drugId].isRecalled <==> |Run(map[], txs)[drugId].inspectionNotes| > 0
  {
    RunKeepsConsistent(map[], txs);
    ConsistentRecord(drugId, Run(map[], txs)[drugId]);
  }

  /**
   * ShipDrug has no recall guard: the owner of a recalled batch can still ship
   * it, which overwrites the status with InTransit while the flag stays set.
   */
  lemma ShipIgnoresRecall(ws: WorldState, mspId: string, drugId: string, to: string, now: string)
    requires drugId in ws && ws[drugId].isRecalled && IsOwner(ws[drugId], mspId)
    ensures var r := Ship(ws, mspId, drugId, to, now);
            && r.outcome == Pass
            && r.ws[drugId].status == StatusInTransit
            && r.ws[drugId].isRecalled
  {
  }

  /**
   * A second recall of a recalled batch succeeds again. It sets the status
   * back to Recalled (the batch may have been shipped since) and otherwise
   * only appends a note and a history entry; while the status is still
   * Recalled, the appends are the only change.
   */
  lemma RecallAgainAppends(ws: WorldState, drugId: string, reason: string, now: string)
    requires drugId in ws && ws[drugId].isRecalled
    ensures var r := Recall(ws, RegulatorMsp, drugId, reason, now);
            && r.outcome == Pass
            && r.ws[drugId] == ws[drugId].(
                 status := StatusRecalled,
                 inspectionNotes := ws[drugId].inspectionNotes + [RecallNote(now, reason)],
                 history := ws[drugId].history + [Event(now, Recalled, Regulator, "-", "Reason: " + reason)])
    ensures ws[drugId].status == StatusRecalled ==>
            Recall(ws, RegulatorMsp, drugId, reason, now).ws[drugId] == ws[drugId].(
              inspectionNotes := ws[drugId].inspectionNotes + [RecallNote(now, reason)],
              history := ws[drugId].history + [Event(now, Recalled, Regulator, "-", "Reason: " + reason)])
  {
  }
}
