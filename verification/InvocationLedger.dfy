/** The rows of `_integration_invocations` as the account-write ledger reads and
    writes them: each function is one SQL statement or one pure computation.
    internal/infrastructure/persistence/database/integration/connection_account_write_receipts.go
    internal/infrastructure/persistence/database/integration/delivery_store.go */
module InvocationLedger {
  import opened Basics
  import opened Fences
  import opened Text
  import opened Identity

  const TABLE := "_integration_invocations"
  const RECEIPT_LIMIT := 32768

  datatype Source = Source(
    workspaceId: string, connectionKey: string, connectorKey: string, providerKey: string,
    accountUpdatedAt: string, operation: string, contractSha256: string)

  datatype Claim = Claim(
    workspaceId: string, actorId: string, requestId: string, source: Source, payload: string,
    invocationId: string, fingerprint: string)

  datatype Status = Running | Succeeded | Failed | Uncertain | Reconciling | Erasing

  datatype Metadata =
    | WriteEvidence(actorId: string, source: Source, fingerprint: string, receipt: string, credentialUpdateFailed: bool)
    | OtherEvidence(body: string)
    | Redacted

  datatype Row = Row(workspaceId: string, status: Status, metadata: Metadata)

  type Rows = map<string, Row>

  datatype Outcome = Outcome(status: Status, payload: string, credentialUpdateFailed: bool)

  /** What the owner is composed with: a digest, JSON validity and the receipt codec. */
  datatype Contracts = Contracts(
    digest: string -> string,
    validJson: string -> bool,
    receipt: (Claim, string) -> Option<string>)

  function Content(source: Source, payload: string): string {
    "{" + QuoteAll([source.workspaceId, source.connectionKey, source.connectorKey, source.providerKey,
                    source.accountUpdatedAt, source.operation, source.contractSha256]) + payload
  }

  /** The claim the application freezes from an authorized request. */
  function MakeClaim(k: Contracts, workspaceId: string, actorId: string, requestId: string, source: Source, payload: string): Claim {
    Claim(workspaceId, actorId, requestId, source, payload,
          AccountWriteId(k.digest, workspaceId, actorId, requestId),
          k.digest(Content(source, payload)))
  }

  lemma ContentInjective(s: Source, p: string, s': Source, p': string)
    requires Content(s, p) == Content(s', p')
    ensures s == s' && p == p'
  {
    var x := [s.workspaceId, s.connectionKey, s.connectorKey, s.providerKey, s.accountUpdatedAt, s.operation, s.contractSha256];
    var y := [s'.workspaceId, s'.connectionKey, s'.connectorKey, s'.providerKey, s'.accountUpdatedAt, s'.operation, s'.contractSha256];
    assert "{" + QuoteAll(x) + p == "{" + (QuoteAll(x) + p);
    assert "{" + QuoteAll(y) + p' == "{" + (QuoteAll(y) + p');
    PrefixedInjective("{", QuoteAll(x) + p, QuoteAll(y) + p');
    QuoteAllPrefixFree(x, p, y, p');
    assert x[0] == y[0] && x[1] == y[1] && x[2] == y[2] && x[3] == y[3] && x[4] == y[4] && x[5] == y[5] && x[6] == y[6];
  }

  function Evidence(claim: Claim): Metadata {
    WriteEvidence(claim.actorId, claim.source, claim.fingerprint, "", false)
  }

  predicate ReceiptValid(k: Contracts, receipt: string) {
    0 < |receipt| <= RECEIPT_LIMIT && k.validJson(receipt)
  }

  predicate OutcomeValid(k: Contracts, outcome: Outcome) {
    || outcome.status == Failed
    || outcome.status == Uncertain
    || (outcome.status == Succeeded && ReceiptValid(k, outcome.payload))
  }

  function FinishedMetadata(claim: Claim, outcome: Outcome): Metadata {
    WriteEvidence(claim.actorId, claim.source, claim.fingerprint,
                  if outcome.status == Succeeded then outcome.payload else "", outcome.credentialUpdateFailed)
  }

  /** The WHERE clause of the terminal update: the row is still exactly the claim. */
  predicate StillClaimed(rows: Rows, fences: set<Fence>, claim: Claim) {
    && claim.invocationId in rows
    && rows[claim.invocationId] == Row(claim.workspaceId, Running, Evidence(claim))
    && RowWriteAllowed(fences, TABLE, claim.workspaceId, claim.invocationId)
  }

  function Finished(rows: Rows, fences: set<Fence>, claim: Claim, outcome: Outcome): Rows {
    if StillClaimed(rows, fences, claim)
    then rows[claim.invocationId := Row(claim.workspaceId, outcome.status, FinishedMetadata(claim, outcome))]
    else rows
  }

  datatype Reading = NotFound | Conflict | ReceiptInvalid | Recorded(status: Status, receipt: string)

  predicate SameRequest(metadata: Metadata, claim: Claim) {
    && metadata.WriteEvidence?
    && metadata.actorId == claim.actorId
    && metadata.source == claim.source
    && metadata.fingerprint == claim.fingerprint
  }

  function Read(k: Contracts, rows: Rows, claim: Claim): Reading {
    if claim.invocationId !in rows || rows[claim.invocationId].workspaceId != claim.workspaceId then NotFound
    else
      var row := rows[claim.invocationId];
      if !SameRequest(row.metadata, claim) then Conflict
      else match row.status
        case Succeeded => if ReceiptValid(k, row.metadata.receipt) then Recorded(Succeeded, row.metadata.receipt) else ReceiptInvalid
        case Failed => Recorded(Failed, "")
        case _ => Recorded(Uncertain, "")
  }

  /** Every fence an insert consults. */
  function InsertReferences(connectionKey: string, messageId: string, id: string): seq<Reference> {
    [Reference("connection", "", connectionKey), Reference("message", "", messageId), Reference("row", TABLE, id)]
  }

  /** Erasure, as these rows see it. In-flight rows refuse the whole preparation. */
  predicate Busy(row: Row) {
    row.status == Running || row.status == Reconciling
  }

  predicate Preparable(rows: Rows, ids: set<string>) {
    ids <= rows.Keys && forall id :: id in ids ==> !Busy(rows[id])
  }

  function PreparedRows(rows: Rows, ids: set<string>): Rows {
    map id | id in rows :: if id in ids then rows[id].(status := Erasing) else rows[id]
  }

  function PreparedFences(rows: Rows, fences: set<Fence>, ids: set<string>): set<Fence>
    requires ids <= rows.Keys
  {
    fences + set id | id in ids :: Fence(rows[id].workspaceId, "row", TABLE, id)
  }

  predicate Planned(rows: Rows, fences: set<Fence>, ids: set<string>) {
    forall id :: id in ids && id in rows ==> !RowWriteAllowed(fences, TABLE, rows[id].workspaceId, id)
  }

  function ErasedRows(rows: Rows, ids: set<string>): Rows {
    map id | id in rows :: if id in ids then Row(rows[id].workspaceId, Failed, Redacted) else rows[id]
  }

  /** The ledger's two statements as they are executed. */
  class InvocationStore {
    var rows: Rows
    var fences: set<Fence>

    constructor ()
      ensures rows == map[] && fences == {}
    {
      rows, fences := map[], {};
    }

    /** The guard and the unique insert. */
    method InsertInvocation(workspaceId: string, connectionKey: string, messageId: string, id: string, metadata: Metadata, fate: Fate)
      returns (ok: bool)
      modifies this`rows
      ensures ok <==> !SubjectErased(fences, workspaceId, InsertReferences(connectionKey, messageId, id)) && id !in old(rows) && fate == Landed
      ensures rows == if SubjectErased(fences, workspaceId, InsertReferences(connectionKey, messageId, id)) || id in old(rows) || fate == Lost
                      then old(rows) else old(rows)[id := Row(workspaceId, Running, metadata)]
    {
      var erased := GuardSubjectWrite(fences, workspaceId, InsertReferences(connectionKey, messageId, id));
      if erased || id in rows || fate == Lost {
        return false;
      }
      rows := rows[id := Row(workspaceId, Running, metadata)];
      ok := fate == Landed;
    }

    method ReadAccountWrite(k: Contracts, claim: Claim) returns (reading: Reading)
      ensures reading == Read(k, rows, claim)
      ensures reading.Recorded? && reading.status == Succeeded ==> ReceiptValid(k, reading.receipt)
    {
      if claim.invocationId !in rows || rows[claim.invocationId].workspaceId != claim.workspaceId {
        return NotFound;
      }
      var row := rows[claim.invocationId];
      if !SameRequest(row.metadata, claim) {
        return Conflict;
      }
      reading := Recorded(Uncertain, "");
      if row.status == Succeeded {
        reading := if ReceiptValid(k, row.metadata.receipt) then Recorded(Succeeded, row.metadata.receipt) else ReceiptInvalid;
      } else if row.status == Failed {
        reading := Recorded(Failed, "");
      }
    }

    /** Compare-and-set on the running status and the original evidence. */
    method FinishAccountWrite(k: Contracts, claim: Claim, outcome: Outcome, fate: Fate) returns (reading: Option<Reading>)
      modifies this`rows
      ensures OutcomeValid(k, outcome) && fate.Lands() ==> rows == Finished(old(rows), fences, claim, outcome)
      ensures !OutcomeValid(k, outcome) || fate == Lost ==> rows == old(rows)
      ensures reading == if OutcomeValid(k, outcome) && fate == Landed && StillClaimed(old(rows), fences, claim)
                         then Some(Read(k, rows, claim)) else None
      ensures reading.Some? ==> reading == Some(Recorded(outcome.status, if outcome.status == Succeeded then outcome.payload else ""))
    {
      if outcome.status != Succeeded && outcome.status != Failed && outcome.status != Uncertain {
        return None;
      }
      var metadata, initial := Evidence(claim), Evidence(claim);
      if outcome.status == Succeeded {
        if |outcome.payload| == 0 || |outcome.payload| > RECEIPT_LIMIT || !k.validJson(outcome.payload) {
          return None;
        }
        metadata := metadata.(receipt := outcome.payload);
      }
      metadata := metadata.(credentialUpdateFailed := outcome.credentialUpdateFailed);
      if fate == Lost {
        return None;
      }
      var id := claim.invocationId;
      var count := 0;
      if id in rows && RowWriteAllowed(fences, TABLE, rows[id].workspaceId, id) && rows[id].workspaceId == claim.workspaceId
         && rows[id].status == Running && rows[id].metadata == initial {
        rows, count := rows[id := rows[id].(status := outcome.status, metadata := metadata)], 1;
      }
      if count != 1 || fate == LandedButReported {
        return None;
      }
      var answer := ReadAccountWrite(k, claim);
      reading := Some(answer);
    }
  }
}
