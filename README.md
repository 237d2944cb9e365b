# Drug custody chaincode, modelled in Dafny

A Hyperledger Fabric chaincode that tracks pharmaceutical batches. The world
state maps a drug ID to a `Drug` record. Four transactions act on it:

- `RegisterDrug` creates a record once per ID. Only the manufacturer MSP
  `CiplaMSP` may call it.
- `ShipDrug` hands custody on. Only the current owner may call it. The owner
  name is the caller's MSP ID with its last three characters dropped.
- `RecallDrug` flags a recall. Only the regulator MSP `CDSCOMSP` may call it.
- `TrackDrug` reads a record. Anyone may call it.

Every record keeps a history of `timestamp|event|from|to|details` lines and a
list of inspection notes. Both lists only grow.

Modules:

- `Drugs` (drugs.dfy): the record, the history event, the error kinds, the
  MSP and organisation constants, and the owner-name derivation.
- `HistoryLine` (history.dfy): the text layout of a history line and a reader
  that gets the event back.
- `Transitions` (transitions.dfy): each transaction as a function from the
  world state to an outcome and a new world state. This is the specification
  the methods are proved against. `Run` commits a sequence of transactions.
- `Audit` (audit.dfy): what the history says about a record: custodian,
  status and number of recalls. It defines the invariant `Consistent`, which
  says the record's mutable fields agree with its history.
- `Lifecycle` (lifecycle.dfy): lemmas about whole runs. A recall is never
  undone. History is append-only. An ID is registered at most once. Every
  record stays consistent with its history.
- `Chaincode` (chaincode.dfy): class `Ledger` with the world state as a
  mutable `map` field and one method per transaction. Each method reads the
  record, checks the caller, updates fields one at a time and writes the
  record back. Each is proved equal to its `Transitions` function, and each
  keeps the `Consistent` invariant. `Walkthrough` is a client that registers,
  ships, tries a bad shipment and recalls one batch.

The code departs from the usual custody policy in these ways, and the model
does what the code does:

- `ShipDrug` compares the owner with the truncated MSP ID, not with an exact
  role name. Any MSP ID made of the owner name plus any three characters
  passes (`Drugs.AnySuffixNamesOwner`).
- `ShipDrug` has no recall guard. No `InvalidState` error exists. Shipping a
  recalled batch succeeds: the status becomes `InTransit` and `isRecalled`
  stays true (`Lifecycle.ShipIgnoresRecall`). So `Recalled` is not an
  absorbing status, but the flag is permanent.
- No transaction sets the status to `Delivered`.
- A repeated recall is not idempotent. It succeeds again and appends another
  note and another history entry. It also sets the status back to `Recalled`
  if the batch was shipped after the first recall.
- The recall history entry names `CDSCO` as its sender, not the MSP ID.

History entries are kept as a structured `Event` with the five fields of a
line. `HistoryLine.Format` gives the text that the chaincode stores.

## Model

| member | source | states |
|---|---|---|
| `Drugs.OwnerName` | chaincode/drugChaincode.go:86-87 | Defined exactly when the MSP ID has at least three characters. The result plus the dropped three-character suffix gives the MSP ID back. |
| `Drugs.AnySuffixNamesOwner` | chaincode/drugChaincode.go:87 | The owner name followed by any three characters passes the owner check as that owner, so only the suffix length is checked. |
| `Transitions.Register` | chaincode/drugChaincode.go:38-72 | Fails with Unauthorized iff the caller is not `CiplaMSP`. Otherwise fails with AlreadyExists iff the ID is taken. A failure leaves the state unchanged. On success only the new key is written. Its record copies the given attributes and has owner = manufacturer = Cipla, status InProduction, not recalled, no inspection notes, and one history entry: Created, from Cipla to "-", with the batch number in the detail. |
| `Transitions.Ship` | chaincode/drugChaincode.go:75-101 | NotFound iff the ID is absent. Then MalformedMspId iff the MSP ID is shorter than three characters. Then Unauthorized iff the truncated MSP ID is not the owner. Passes iff the record exists and the caller owns it. A failure leaves the state unchanged. On success only that key is written: the owner becomes `to`, the status InTransit, and history grows by one Shipped entry from the old owner to `to`. The recall flag, the notes and the batch attributes are unchanged. |
| `Transitions.Recall` | chaincode/drugChaincode.go:104-128 | Fails with Unauthorized iff the caller is not `CDSCOMSP`, whether the ID exists or not. Otherwise fails with NotFound iff the ID is absent. A failure leaves the state unchanged. On success only that key is written: the flag is set, the status becomes Recalled, and notes and history each grow by one entry. The history entry is Recalled, from CDSCO to "-", with the reason. Owner and batch attributes are unchanged. |
| `Transitions.Track` | chaincode/drugChaincode.go:131-137 | Returns the stored record iff the ID is present, else NotFound. It checks no role. |
| `Chaincode.Ledger.RegisterDrug` | chaincode/drugChaincode.go:38-72 | The outcome and the new world state are those of `Transitions.Register` on the old state. The consistency invariant is kept. |
| `Chaincode.Ledger.ShipDrug` | chaincode/drugChaincode.go:75-101 | The owner is updated in place and the history is appended. The outcome and new state are those of `Transitions.Ship`. The invariant is kept. |
| `Chaincode.Ledger.RecallDrug` | chaincode/drugChaincode.go:104-128 | The flag and status are updated in place, and notes and history are appended. The outcome and new state are those of `Transitions.Recall`. The invariant is kept. |
| `Chaincode.Ledger.TrackDrug` | chaincode/drugChaincode.go:131-137 | Its result is that of `Transitions.Track` on the current state: the stored record when present, NotFound otherwise. It has no modifies clause, so it changes nothing. |
| `HistoryLine.Format` | chaincode/drugChaincode.go:20 | Its length is the five fields' lengths plus four separating bars. It starts with the timestamp and a bar, and ends with a bar and the details. Bars inside the fields are not excluded. `CreatedLine`, `ShippedLine` and `RecalledLine` give the exact layouts. |
| `HistoryLine.CreatedLine` | chaincode/drugChaincode.go:66 | The Created event formats to "timestamp, then `Created`, `Cipla` and `-`, then `Batch: ` and the batch number", all separated by bars. |
| `HistoryLine.ShippedLine` | chaincode/drugChaincode.go:94 | The Shipped event formats to "timestamp, then `Shipped`, sender and receiver", separated by bars, with a trailing bar and empty details. |
| `HistoryLine.RecalledLine` | chaincode/drugChaincode.go:121 | The Recalled event formats to "timestamp, then `Recalled`, `CDSCO` and `-`, then `Reason: ` and the reason", all separated by bars. |
| `HistoryLine.ParseFormat` | chaincode/drugChaincode.go:20 | A history line can be read back into the event it was written from, provided the timestamp and both parties hold no bar character. |
| `HistoryLine.DestinationBarIsAmbiguous` | chaincode/drugChaincode.go:94 | A bar character in the unchecked destination lets two different shipments write the same history line. Cipla shipping to "A, bar, B" and a later holder "Cipla, bar, A" shipping to "B" both write the same line. |
| `Audit.StatusAfter` | chaincode/drugChaincode.go:19 | The status after any event is never Delivered. |
| `Audit.NewDrugConsistent` | chaincode/drugChaincode.go:54-68 | A newly registered record agrees with its one-entry history. |
| `Audit.AppendConsistent` | chaincode/drugChaincode.go:91-121 | Appending a Shipped event (lines 91-94) or a Recalled event (lines 118-121), with the field updates that event implies, keeps a record consistent with its history. |
| `Audit.RecallsPositive` | chaincode/drugChaincode.go:118-121 | The history counts a recall iff it holds a Recalled entry. |
| `Audit.ConsistentRecord` | chaincode/drugChaincode.go:118-121 | A consistent record is never Delivered. It is recalled iff it has inspection notes, and iff its history holds a Recalled entry. Its history opens with a Created entry. |
| `Lifecycle.StepFrame` | chaincode/drugChaincode.go:38-137 | A transaction writes at most the key it names. It removes no key. Every stored record is left a later version of itself. |
| `Lifecycle.RunEvolves` | chaincode/drugChaincode.go:38-128 | After any sequence of transactions, every record that existed still exists. Its batch attributes are the same, its history and notes only grew at the end, and the recall flag was not cleared. |
| `Lifecycle.RunLeavesOtherKeys` | chaincode/drugChaincode.go:38-128 | A key that no transaction of a run names is neither added, removed nor changed. |
| `Lifecycle.RecallIsPermanent` | chaincode/drugChaincode.go:91-121 | Once a batch is recalled, no sequence of transactions clears the flag. |
| `Lifecycle.HistoryIsAppendOnly` | chaincode/drugChaincode.go:94-121 | Across any run, the old history is a prefix of the new one, so the length never decreases. The same holds for the inspection notes. |
| `Lifecycle.RegisterOnlyOnce` | chaincode/drugChaincode.go:46-52 | After a successful registration of an ID, whatever is committed next, a second registration of that ID fails. When the manufacturer sends it, the error is AlreadyExists. |
| `Lifecycle.StepKeepsConsistent` | chaincode/drugChaincode.go:54-121 | Every transaction keeps every stored record consistent with its history. |
| `Lifecycle.RunKeepsConsistent` | chaincode/drugChaincode.go:38-128 | Every run of transactions keeps every stored record consistent with its history. |
| `Lifecycle.NoRunDelivers` | chaincode/drugChaincode.go:19 | From an empty world state, no run produces a Delivered batch. Every batch is recalled iff it has inspection notes. |
| `Lifecycle.ShipIgnoresRecall` | chaincode/drugChaincode.go:86-94 | The owner of a recalled batch can still ship it. The status becomes InTransit and the flag stays set. |
| `Lifecycle.RecallAgainAppends` | chaincode/drugChaincode.go:104-127 | Recalling an already recalled batch succeeds again. It sets the status to Recalled, which undoes an InTransit written by a shipment after the first recall, and appends one note and one history entry. Nothing else changes. While the status is still Recalled, only the two appends change the record. |

## Left out

- The Fabric plumbing (`contractapi` context, `GetStub`, `GetClientIdentity`, `main`, `chaincode.Start`): the caller's MSP ID is a string parameter and the world state is a `map` field.
- Identity lookup failures. `RegisterDrug` and `RecallDrug` report them as Unauthorized. `ShipDrug` ignores them and slices an empty MSP ID. In the model, an empty MSP ID gives MalformedMspId.
- The out-of-range slice at line 87 makes Go panic. It is modelled as the failure MalformedMspId with the state unchanged. A possible crash of the chaincode process is not modelled.
- Go slices strings by bytes. The model slices `seq<char>`. The two agree for ASCII MSP IDs.
- Storage failures of `GetState`/`PutState`, and any key the store would refuse, are not modelled.
- JSON marshalling and unmarshalling: the record is stored as a value. So the model cannot tell an absent inspection-note list (`null`) from an empty one. The ignored unmarshal error at line 116 also does not arise.
- `TrackDrug` returns the stored JSON text. The model returns the record.
- The wall clock (`getTimestamp`) is the parameter `now`. `RecallDrug` reads the clock twice (lines 120-121). The model uses one value for both, so it does not capture the two readings landing in different seconds.
- `SetEvent` notifications (lines 97, 124) do not affect the state and are not modelled.
- Consensus, replication and per-key serialisability belong to the platform.
- The wording of the error messages: errors are an enumeration.
