/** Recovery leases: successive claims of one attempt never overlap, whatever the workers' clocks say. */
module RecoveryLeases {
  import opened Options
  import opened Ledger
  import opened LedgerRuns
  import opened LedgerIndex

  /** The transaction hands the attempt back: a report that the outcome is still unknown, and that is not refused. */
  ghost predicate Releases(s: Ledger, op: Op, id: Uuid) {
    op.OpEvidence? && op.id == id && op.evidence.outcome == OwnerUnknown && Apply(s, op) != s
  }

  /** While the attempt stays UNKNOWN its lease is kept or replaced by a later one. */
  predicate LeaseKept(s: Ledger, s': Ledger, id: Uuid) {
    id in s.rows && s.rows[id].state == Unknown ==>
      && id in s'.rows
      && (s'.rows[id].state == Unknown && s.rows[id].recovery.Some? ==>
            s'.rows[id].recovery.Some? && s.rows[id].recovery.value.until <= s'.rows[id].recovery.value.until)
  }

  predicate Untouched(s: Ledger, s': Ledger, id: Uuid) {
    id in s.rows && s.rows[id].state == Unknown ==>
      id in s'.rows && (s'.rows[id].state == Unknown ==> s'.rows[id] == s.rows[id])
  }

  predicate Held(s: Ledger, s': Ledger, id: Uuid) {
    id in s.rows && s.rows[id].state == Unknown ==> id in s'.rows && s'.rows[id] == s.rows[id]
  }

  lemma ReserveUntouched(s: Ledger, q: AdmissionRequest, now: int, spare: Uuid, id: Uuid)
    ensures Untouched(s, Reserve(s, q, now, spare).db, id)
  {
  }

  lemma DispatchUntouched(s: Ledger, j: Uuid, backend: string, lease: int, expected: int, now: int, id: Uuid)
    ensures Untouched(s, Dispatch(s, j, backend, lease, expected, now).db, id)
  {
  }

  lemma ReconcileUntouched(s: Ledger, j: Uuid, actual: Cost, success: bool, backend: string, id: Uuid)
    ensures Untouched(s, Reconcile(s, j, actual, success, backend).db, id)
  {
  }

  lemma {:induction false} ExpireAdmissionsHold(s: Ledger, ids: seq<Uuid>, id: Uuid)
    ensures Held(s, ExpireAdmissions(s, ids), id)
  {
    if ids != [] {
      ExpireAdmissionsHold(s, ids[..|ids| - 1], id);
    }
  }

  lemma {:induction false} MarkAllStaleHolds(s: Ledger, ids: seq<Uuid>, now: int, id: Uuid)
    ensures Held(s, MarkAllStale(s, ids, now), id)
  {
    if ids != [] {
      MarkAllStaleHolds(s, ids[..|ids| - 1], now, id);
    }
  }

  lemma {:induction false} ExpireUnknownsUntouched(s: Ledger, ids: seq<Uuid>, id: Uuid)
    ensures Untouched(s, ExpireUnknowns(s, ids), id)
  {
    if ids != [] {
      ExpireUnknownsUntouched(s, ids[..|ids| - 1], id);
    }
  }

  lemma {:induction false} ClaimAllKeepsLease(s: Ledger, ids: seq<Uuid>, worker: string, now: int, lease: int, id: Uuid)
    requires lease >= 0
    ensures LeaseKept(s, ClaimAll(s, ids, worker, now, lease), id)
    ensures id in s.rows ==> id in ClaimAll(s, ids, worker, now, lease).rows
    ensures id in s.rows ==> ClaimAll(s, ids, worker, now, lease).rows[id].state == s.rows[id].state
  {
    if ids != [] {
      ClaimAllKeepsLease(s, ids[..|ids| - 1], worker, now, lease, id);
    }
  }

  lemma EvidenceKeepsLease(s: Ledger, j: Uuid, worker: string, e: OwnerEvidence, id: Uuid)
    requires j == id && e.outcome == OwnerUnknown ==> ApplyOwnerEvidence(s, j, worker, e).db == s
    ensures Untouched(s, ApplyOwnerEvidence(s, j, worker, e).db, id)
  {
  }

  lemma ClosedUntouched(s: Ledger, j: Uuid, ref: EvidenceRef, why: Category, id: Uuid)
    requires j in s.rows && ref in s.inbox && WellFormedReport(s.inbox[ref].report)
    ensures Untouched(s, Violate(s, j, ref, why), id)
    ensures s.rows[j].debt.Active? ==> Untouched(s, Compensate(s, j, ref), id)
  {
    hide CompensatedWindow;
  }

  lemma AdjudicationUntouched(s: Ledger, j: Uuid, ref: EvidenceRef, id: Uuid)
    requires Indexed(s) && j in s.rows && ref in s.inbox && s.rows[j].debt.Active? && s.rows[j].backend.Some?
    ensures Untouched(s, Adjudicate(s, j, ref).db, id)
  {
    hide Indexed, Violation, Violate, Compensate, Lookup, WellFormedReport;
    ReportSound(s, ref);
    ClosedUntouched(s, j, ref, CryptoViolation, id);
    ClosedUntouched(s, j, ref, ContractViolation, id);
  }

  lemma CompensateUntouched(s: Ledger, j: Uuid, ref: EvidenceRef, expected: int, id: Uuid)
    requires Indexed(s)
    ensures Untouched(s, LateCompensate(s, j, ref, expected).db, id)
  {
    hide Indexed, Adjudicate;
    if ref in s.inbox && j in s.rows && s.rows[j].debt.Active? && s.rows[j].backend.Some? {
      AdjudicationUntouched(s, j, ref, id);
    }
  }

  lemma UntouchedKeepsLease(s: Ledger, s': Ledger, id: Uuid)
    requires Untouched(s, s', id)
    ensures LeaseKept(s, s', id)
  {
  }

  lemma RecoverKeepsLease(s: Ledger, now: int, worker: string, lease: int,
                          expired: seq<Uuid>, stale: seq<Uuid>, claimed: seq<Uuid>, id: Uuid)
    requires lease >= 0
    ensures LeaseKept(s, Recover(s, now, worker, lease, expired, stale, claimed), id)
  {
    var a := ExpireAdmissions(s, expired);
    var b := MarkAllStale(a, stale, now);
    ExpireAdmissionsHold(s, expired, id);
    MarkAllStaleHolds(a, stale, now, id);
    ClaimAllKeepsLease(b, claimed, worker, now, lease, id);
  }

  lemma {:induction false} RepairRowsSame(s: Ledger, ws: seq<WindowKey>)
    ensures RepairDebtCaches(s, ws).rows == s.rows
  {
    hide WindowTotal;
    if ws != [] {
      RepairRowsSame(s, ws[..|ws| - 1]);
    }
  }

  lemma IngestUntouched(s: Ledger, ref: EvidenceRef, report: Report, id: Uuid)
    ensures Untouched(s, InsertVerifiedEvidence(s, ref, report).db, id)
  {
    hide WellFormedReport;
  }

  lemma ApplyKeepsLease(s: Ledger, op: Op, id: Uuid)
    requires Indexed(s) && !Releases(s, op, id) && (op.OpRecover? ==> op.lease >= 0)
    ensures LeaseKept(s, Apply(s, op), id)
  {
    hide Indexed, LeaseKept, Untouched, Reserve, Dispatch, Reconcile, Recover, ApplyOwnerEvidence, ExpireUnknowns,
         InsertVerifiedEvidence, LateCompensate, RepairDebtCaches;
    var s' := Apply(s, op);
    if !op.OpRecover? {
      assert Untouched(s, s', id) by {
        match op
        case OpReserve(q, now, spare) => ReserveUntouched(s, q, now, spare, id);
        case OpDispatch(j, backend, lease, expected, now) => DispatchUntouched(s, j, backend, lease, expected, now, id);
        case OpReconcile(j, actual, success, backend) => ReconcileUntouched(s, j, actual, success, backend, id);
        case OpEvidence(j, worker, evidence) => EvidenceKeepsLease(s, j, worker, evidence, id);
        case OpExpire(ids) => ExpireUnknownsUntouched(s, ids, id);
        case OpIngest(ref, report) => IngestUntouched(s, ref, report, id);
        case OpCompensate(j, ref, revision) => CompensateUntouched(s, j, ref, revision, id);
        case OpRepair(windows) => RepairRowsSame(s, windows); SameRowsUntouched(s, s', id);
        case OpRecover(_, _, _, _, _, _) =>
      }
      UntouchedKeepsLease(s, s', id);
    } else {
      RecoverKeepsLease(s, op.now, op.worker, op.lease, op.expired, op.stale, op.claimed, id);
    }
  }

  lemma SameRowsUntouched(s: Ledger, s': Ledger, id: Uuid)
    requires s'.rows == s.rows
    ensures Untouched(s, s', id)
  {
  }

  predicate WasUncertain(s: Ledger, id: Uuid) {
    id in s.rows && Stage(s.rows[id].state) >= 2
  }

  /** No step of the run hands the attempt back, and recovery asks for no negative lease. */
  ghost predicate NeverReleased(s: Ledger, ops: seq<Op>, id: Uuid) {
    forall k :: 0 <= k < |ops| ==>
      !Releases(Run(s, ops[..k]), ops[k], id) && (ops[k].OpRecover? ==> ops[k].lease >= 0)
  }

  /** Along any run that does not hand the attempt back its lease is kept, because an attempt that left UNKNOWN never
      returns to it, even by a late settlement. */
  lemma {:induction false} RunKeepsLease(s: Ledger, ops: seq<Op>, id: Uuid)
    requires Indexed(s) && id in s.rows && s.rows[id].state == Unknown && s.rows[id].recovery.Some?
    requires NeverReleased(s, ops, id)
    ensures LeaseKept(s, Run(s, ops), id) && WasUncertain(Run(s, ops), id)
  {
    hide Indexed, Apply, Releases;
    if ops != [] {
      var before, last := ops[..|ops| - 1], ops[|ops| - 1];
      assert forall k :: 0 <= k < |before| ==> before[..k] == ops[..k] && before[k] == ops[k];
      RunKeepsLease(s, before, id);
      RunIndexed(s, before);
      ApplyIndexed(Run(s, before), last);
      ApplyKeepsLease(Run(s, before), last, id);
    }
  }

  /** In every run, on time or not: a second claim without a release in between starts strictly after the first lease
      has ended. */
  lemma LeasesDisjoint(manifests: set<string>, before: seq<Op>, ops: seq<Op>, id: Uuid, now: int)
    requires var s := Run(Fresh(manifests), before);
             && id in s.rows && s.rows[id].state == Unknown && s.rows[id].recovery.Some? && NeverReleased(s, ops, id)
             && id in Run(s, ops).rows && Claimable(Run(s, ops).rows[id], now)
    ensures Run(Fresh(manifests), before).rows[id].recovery.value.until < now
  {
    hide Indexed, Run, NeverReleased;
    FreshIndexed(manifests);
    RunIndexed(Fresh(manifests), before);
    RunKeepsLease(Run(Fresh(manifests), before), ops, id);
  }

  /** Evidence from anyone but the current lease holder changes nothing. */
  lemma DisplacedWorkerIsIgnored(s: Ledger, id: Uuid, worker: string, e: OwnerEvidence)
    requires id in s.rows && s.rows[id].recovery != None ==> s.rows[id].recovery.value.owner != worker
    ensures ApplyOwnerEvidence(s, id, worker, e).db == s
  {
  }
}
