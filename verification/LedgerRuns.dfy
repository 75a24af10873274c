/** Whole runs of the ledger: any interleaving of its transactions. */
module LedgerRuns {
  import opened Ledger
  import opened LedgerInvariant
  import opened LedgerSteps

  /** One committed or refused transaction. Batch transactions carry the rows their queries selected, in order. */
  datatype Op =
    | OpReserve(q: AdmissionRequest, now: int, spare: Uuid)
    | OpDispatch(id: Uuid, backend: string, lease: int, expected: int, now: int)
    | OpReconcile(id: Uuid, actual: Cost, success: bool, backend: string)
    | OpRecover(now: int, worker: string, lease: int, expired: seq<Uuid>, stale: seq<Uuid>, claimed: seq<Uuid>)
    | OpEvidence(id: Uuid, worker: string, evidence: OwnerEvidence)
    | OpExpire(ids: seq<Uuid>)
    | OpIngest(ref: EvidenceRef, report: Report)
    | OpCompensate(id: Uuid, ref: EvidenceRef, revision: int)
    | OpRepair(windows: seq<WindowKey>)

  function Recover(s: Ledger, now: int, worker: string, lease: int,
                   expired: seq<Uuid>, stale: seq<Uuid>, claimed: seq<Uuid>): Ledger
  {
    ClaimAll(MarkAllStale(ExpireAdmissions(s, expired), stale, now), claimed, worker, now, lease)
  }

  ghost function Apply(s: Ledger, op: Op): Ledger {
    match op
    case OpReserve(q, now, spare) => Reserve(s, q, now, spare).db
    case OpDispatch(id, backend, lease, expected, now) => Dispatch(s, id, backend, lease, expected, now).db
    case OpReconcile(id, actual, success, backend) => Reconcile(s, id, actual, success, backend).db
    case OpRecover(now, worker, lease, expired, stale, claimed) =>
      Recover(s, now, worker, lease, expired, stale, claimed)
    case OpEvidence(id, worker, evidence) => ApplyOwnerEvidence(s, id, worker, evidence).db
    case OpExpire(ids) => ExpireUnknowns(s, ids)
    case OpIngest(ref, report) => InsertVerifiedEvidence(s, ref, report).db
    case OpCompensate(id, ref, revision) => LateCompensate(s, id, ref, revision).db
    case OpRepair(windows) => RepairDebtCaches(s, windows)
  }

  ghost function Run(s: Ledger, ops: seq<Op>): Ledger {
    if ops == [] then s else Apply(Run(s, ops[..|ops| - 1]), ops[|ops| - 1])
  }

  /** A settlement is on time when recovery has not taken its reservation first. */
  predicate OnTime(s: Ledger, op: Op) {
    op.OpReconcile? && op.id in s.rows ==> Settleable(s, op.id)
  }

  ghost predicate OnTimeRun(s: Ledger, ops: seq<Op>) {
    forall k :: 0 <= k < |ops| ==> OnTime(Run(s, ops[..k]), ops[k])
  }

  // ---- The invariant along runs.

  lemma {:induction false} ExpireAdmissionsKeepInv(s: Ledger, ids: seq<Uuid>)
    requires Inv(s)
    ensures Inv(ExpireAdmissions(s, ids))
  {
    hide Inv, ExpireAdmission;
    if ids != [] {
      ExpireAdmissionsKeepInv(s, ids[..|ids| - 1]);
      ExpireAdmissionKeepsInv(ExpireAdmissions(s, ids[..|ids| - 1]), ids[|ids| - 1]);
    }
  }

  lemma {:induction false} StaleKeepsInv(s: Ledger, ids: seq<Uuid>, now: int)
    requires Inv(s)
    ensures Inv(MarkAllStale(s, ids, now))
  {
    hide Inv, MarkStale;
    if ids != [] {
      StaleKeepsInv(s, ids[..|ids| - 1], now);
      MarkStaleKeepsInv(MarkAllStale(s, ids[..|ids| - 1], now), ids[|ids| - 1], now);
    }
  }

  lemma {:induction false} ClaimAllKeepsInv(s: Ledger, ids: seq<Uuid>, worker: string, now: int, lease: int)
    requires Inv(s)
    ensures Inv(ClaimAll(s, ids, worker, now, lease))
  {
    hide Inv, ClaimRecovery;
    if ids != [] {
      ClaimAllKeepsInv(s, ids[..|ids| - 1], worker, now, lease);
      ClaimKeepsInv(ClaimAll(s, ids[..|ids| - 1], worker, now, lease), ids[|ids| - 1], worker, now, lease);
    }
  }

  lemma {:induction false} ExpireAllKeepsInv(s: Ledger, ids: seq<Uuid>)
    requires Inv(s)
    ensures Inv(ExpireUnknowns(s, ids))
  {
    hide Inv, ExpireUnknownOne;
    if ids != [] {
      ExpireAllKeepsInv(s, ids[..|ids| - 1]);
      ExpireUnknownKeepsInv(ExpireUnknowns(s, ids[..|ids| - 1]), ids[|ids| - 1]);
    }
  }

  lemma {:induction false} RepairAllIsIdle(s: Ledger, ws: seq<WindowKey>)
    requires Inv(s)
    ensures RepairDebtCaches(s, ws) == s
  {
    hide Inv, RepairDebtCache;
    if ws != [] {
      RepairAllIsIdle(s, ws[..|ws| - 1]);
      RepairIsIdle(s, ws[|ws| - 1]);
    }
  }

  lemma ApplyKeepsInv(s: Ledger, op: Op)
    requires Inv(s) && OnTime(s, op)
    ensures Inv(Apply(s, op))
  {
    hide Inv, Reserve, Dispatch, Reconcile, ApplyOwnerEvidence, InsertVerifiedEvidence, LateCompensate;
    match op
    case OpReserve(q, now, spare) => ReserveKeepsInv(s, q, now, spare);
    case OpDispatch(id, backend, lease, expected, now) => DispatchKeepsInv(s, id, backend, lease, expected, now);
    case OpReconcile(id, actual, success, backend) =>
      if id in s.rows {
        ReconcileKeepsInv(s, id, actual, success, backend);
      } else {
        ReconcileUnknownRow(s, id, actual, success, backend);
      }
    case OpRecover(now, worker, lease, expired, stale, claimed) =>
      ExpireAdmissionsKeepInv(s, expired);
      StaleKeepsInv(ExpireAdmissions(s, expired), stale, now);
      ClaimAllKeepsInv(MarkAllStale(ExpireAdmissions(s, expired), stale, now), claimed, worker, now, lease);
    case OpEvidence(id, worker, evidence) => OwnerEvidenceKeepsInv(s, id, worker, evidence);
    case OpExpire(ids) => ExpireAllKeepsInv(s, ids);
    case OpIngest(ref, report) => InsertEvidenceKeepsInv(s, ref, report);
    case OpCompensate(id, ref, revision) => LateCompensateKeepsInv(s, id, ref, revision);
    case OpRepair(windows) => RepairAllIsIdle(s, windows);
  }

  lemma ReconcileUnknownRow(s: Ledger, id: Uuid, actual: Cost, success: bool, backend: string)
    requires id !in s.rows
    ensures Reconcile(s, id, actual, success, backend).db == s
  {
  }

  /** Every on-time run of the ledger keeps the invariant. */
  lemma {:induction false} RunKeepsInv(s: Ledger, ops: seq<Op>)
    requires Inv(s) && OnTimeRun(s, ops)
    ensures Inv(Run(s, ops))
  {
    hide Inv, Apply, OnTime;
    if ops != [] {
      var before := ops[..|ops| - 1];
      assert forall k :: 0 <= k < |before| ==> before[..k] == ops[..k];
      RunKeepsInv(s, before);
      ApplyKeepsInv(Run(s, before), ops[|ops| - 1]);
    }
  }
}
