/** What every transaction keeps in any run, whether or not its settlements are on time. */
module LedgerIndex {
  import opened Options
  import opened Ledger
  import opened LedgerRuns

  predicate RowsIndexed(rows: map<Uuid, Row>, claims: map<ClaimKey, Uuid>) {
    forall id :: id in rows ==> rows[id].admission.claim in claims && claims[rows[id].admission.claim] == id
  }

  predicate ClaimsIndexed(rows: map<Uuid, Row>, claims: map<ClaimKey, Uuid>) {
    forall k :: k in claims ==> claims[k] in rows && rows[claims[k]].admission.claim == k
  }

  /** An attempt gets its request id with its dispatch or settlement, never before. */
  predicate Unsent(rows: map<Uuid, Row>) {
    forall id :: id in rows && rows[id].state == Admitted ==> rows[id].backend == None
  }

  predicate RequestsKnown(rows: map<Uuid, Row>, requests: map<string, Uuid>) {
    forall b :: b in requests ==> requests[b] in rows && rows[requests[b]].backend == Some(b)
  }

  /** A filed report is well formed and names its own attempt by owner, request and window. */
  predicate FiledFor(rows: map<Uuid, Row>, ref: EvidenceRef, e: Evidence) {
    && WellFormedReport(e.report) && e.attempt in rows && rows[e.attempt].backend == Some(ref.request)
    && rows[e.attempt].admission.claim.owner == ref.owner && rows[e.attempt].admission.window == e.window
  }

  predicate ReportsFiled(rows: map<Uuid, Row>, inbox: map<EvidenceRef, Evidence>) {
    forall ref :: ref in inbox ==> FiledFor(rows, ref, inbox[ref])
  }

  predicate Filed(s: Ledger) {
    Unsent(s.rows) && RequestsKnown(s.rows, s.requests) && ReportsFiled(s.rows, s.inbox)
  }

  /** Attempts and claims index each other one to one, and every request and report names its attempt. */
  predicate Indexed(s: Ledger) {
    RowsIndexed(s.rows, s.claims) && ClaimsIndexed(s.rows, s.claims) && Filed(s)
  }

  /** How far an attempt is from its admission; a stage once left is never entered again. */
  function Stage(state: AttemptState): nat {
    match state
    case Admitted => 0
    case Running => 1
    case Unknown => 2
    case _ => 3
  }

  /** Attempts and claims stay, and no attempt returns to an earlier stage. */
  predicate Persists(s: Ledger, s': Ledger) {
    && (forall id :: id in s.rows ==>
          && id in s'.rows && s'.rows[id].admission == s.rows[id].admission
          && Stage(s.rows[id].state) <= Stage(s'.rows[id].state))
    && (forall k :: k in s.claims ==> k in s'.claims && s'.claims[k] == s.claims[k])
  }

  /** A transaction other than admission adds neither attempts nor claims. */
  predicate Quiet(s: Ledger, s': Ledger) {
    Persists(s, s') && s'.rows.Keys == s.rows.Keys && s'.claims == s.claims && Filed(s')
  }

  lemma QuietTransitive(a: Ledger, b: Ledger, c: Ledger)
    requires Quiet(a, b) && Quiet(b, c)
    ensures Quiet(a, c)
  {
  }

  lemma QuietSame(s: Ledger, s': Ledger)
    requires Indexed(s) && s'.rows == s.rows && s'.claims == s.claims && s'.inbox == s.inbox
    requires s'.requests == s.requests
    ensures Quiet(s, s')
  {
  }

  /** The row keeps the request id it has; a first one is registered for it. */
  predicate RequestKept(s: Ledger, s': Ledger, id: Uuid, r': Row)
    requires id in s.rows
  {
    && (s.rows[id].backend.Some? ==> r'.backend == s.rows[id].backend) && (r'.state == Admitted ==> r'.backend == None)
    && (s'.requests == s.requests || (r'.backend.Some? && s'.requests == s.requests[r'.backend.value := id]))
  }

  lemma FiledFollows(s: Ledger, s': Ledger, id: Uuid, r': Row)
    requires Filed(s) && id in s.rows && s'.rows == s.rows[id := r'] && s'.inbox == s.inbox
    requires r'.admission == s.rows[id].admission && RequestKept(s, s', id, r')
    ensures Filed(s')
  {
    hide WellFormedReport;
    forall ref | ref in s'.inbox ensures FiledFor(s'.rows, ref, s'.inbox[ref]) {
      assert FiledFor(s.rows, ref, s.inbox[ref]);
    }
  }

  lemma QuietOne(s: Ledger, s': Ledger, id: Uuid, r': Row)
    requires Indexed(s) && id in s.rows && s'.rows == s.rows[id := r'] && s'.claims == s.claims && s'.inbox == s.inbox
    requires r'.admission == s.rows[id].admission && Stage(s.rows[id].state) <= Stage(r'.state)
    requires RequestKept(s, s', id, r')
    ensures Quiet(s, s')
  {
    hide Filed, RequestKept;
    FiledFollows(s, s', id, r');
  }

  lemma NotSent(s: Ledger, id: Uuid)
    requires Indexed(s) && id in s.rows && s.rows[id].state == Admitted
    ensures s.rows[id].backend == None
  {
  }

  lemma QuietKeepsIndexed(s: Ledger, s': Ledger)
    requires Indexed(s) && Quiet(s, s')
    ensures Indexed(s')
  {
  }

  lemma DispatchQuiet(s: Ledger, id: Uuid, backend: string, lease: int, expected: int, now: int)
    requires Indexed(s)
    ensures var t := Dispatch(s, id, backend, lease, expected, now);
            Quiet(s, t.db) &&
            (t.outcome.Done? ==> id in s.rows && s.rows[id].state == Admitted && t.db.rows[id].state != Admitted)
  {
    hide Quiet, Indexed;
    var t := Dispatch(s, id, backend, lease, expected, now);
    if t.outcome.Done? {
      NotSent(s, id);
      QuietOne(s, t.db, id, DispatchedRow(s.rows[id], backend, now + lease));
    } else {
      QuietSame(s, t.db);
    }
  }

  lemma ReconcileQuiet(s: Ledger, id: Uuid, actual: Cost, success: bool, backend: string)
    requires Indexed(s)
    ensures Quiet(s, Reconcile(s, id, actual, success, backend).db)
  {
    hide Quiet, Indexed;
    var t := Reconcile(s, id, actual, success, backend);
    if t.outcome.Done? && s.rows[id].reservation != Reconciled {
      QuietOne(s, t.db, id, ReconciledRow(s.rows[id], actual, success, backend));
    } else {
      QuietSame(s, t.db);
    }
  }

  lemma {:induction false} ExpireAdmissionsQuiet(s: Ledger, ids: seq<Uuid>)
    requires Indexed(s)
    ensures Quiet(s, ExpireAdmissions(s, ids))
  {
    hide Quiet, Indexed;
    if ids == [] {
      QuietSame(s, s);
    } else {
      var s0, id := ExpireAdmissions(s, ids[..|ids| - 1]), ids[|ids| - 1];
      ExpireAdmissionsQuiet(s, ids[..|ids| - 1]);
      QuietKeepsIndexed(s, s0);
      if id in s0.rows && s0.rows[id].state == Admitted {
        QuietOne(s0, ExpireAdmission(s0, id), id, ExpiredRow(s0.rows[id]));
      } else {
        QuietSame(s0, s0);
      }
      QuietTransitive(s, s0, ExpireAdmission(s0, id));
    }
  }

  lemma {:induction false} MarkAllStaleQuiet(s: Ledger, ids: seq<Uuid>, now: int)
    requires Indexed(s)
    ensures Quiet(s, MarkAllStale(s, ids, now))
  {
    hide Quiet, Indexed;
    if ids == [] {
      QuietSame(s, s);
    } else {
      var s0, id := MarkAllStale(s, ids[..|ids| - 1], now), ids[|ids| - 1];
      MarkAllStaleQuiet(s, ids[..|ids| - 1], now);
      QuietKeepsIndexed(s, s0);
      if id in s0.rows && LeaseExpired(s0.rows[id], now) {
        QuietOne(s0, MarkStale(s0, id, now), id, StaleRow(s0.rows[id], now));
      } else {
        QuietSame(s0, s0);
      }
      QuietTransitive(s, s0, MarkStale(s0, id, now));
    }
  }

  lemma {:induction false} ClaimAllQuiet(s: Ledger, ids: seq<Uuid>, worker: string, now: int, lease: int)
    requires Indexed(s)
    ensures Quiet(s, ClaimAll(s, ids, worker, now, lease))
  {
    hide Quiet, Indexed;
    if ids == [] {
      QuietSame(s, s);
    } else {
      var s0, id := ClaimAll(s, ids[..|ids| - 1], worker, now, lease), ids[|ids| - 1];
      ClaimAllQuiet(s, ids[..|ids| - 1], worker, now, lease);
      QuietKeepsIndexed(s, s0);
      var s1 := ClaimRecovery(s0, id, worker, now, lease);
      if id in s0.rows && Claimable(s0.rows[id], now) {
        QuietOne(s0, s1, id, s0.rows[id].(recovery := Some(RecoveryLease(worker, now + lease))));
      } else {
        QuietSame(s0, s0);
      }
      QuietTransitive(s, s0, s1);
    }
  }

  lemma {:induction false} ExpireUnknownsQuiet(s: Ledger, ids: seq<Uuid>)
    requires Indexed(s)
    ensures Quiet(s, ExpireUnknowns(s, ids))
  {
    hide Quiet, Indexed;
    if ids == [] {
      QuietSame(s, s);
    } else {
      var s0, id := ExpireUnknowns(s, ids[..|ids| - 1]), ids[|ids| - 1];
      ExpireUnknownsQuiet(s, ids[..|ids| - 1]);
      QuietKeepsIndexed(s, s0);
      if id in s0.rows && s0.rows[id].state == Unknown && s0.rows[id].reservation == InDoubt {
        QuietOne(s0, ExpireUnknownOne(s0, id), id, UnresolvedRow(s0.rows[id]));
      } else {
        QuietSame(s0, s0);
      }
      QuietTransitive(s, s0, ExpireUnknownOne(s0, id));
    }
  }

  lemma {:induction false} RepairQuiet(s: Ledger, ws: seq<WindowKey>)
    requires Indexed(s)
    ensures Quiet(s, RepairDebtCaches(s, ws))
  {
    hide Quiet, Indexed;
    if ws == [] {
      QuietSame(s, s);
    } else {
      var s0 := RepairDebtCaches(s, ws[..|ws| - 1]);
      RepairQuiet(s, ws[..|ws| - 1]);
      QuietKeepsIndexed(s, s0);
      QuietSame(s0, RepairDebtCache(s0, ws[|ws| - 1]));
      QuietTransitive(s, s0, RepairDebtCache(s0, ws[|ws| - 1]));
    }
  }

  lemma OwnerEvidenceQuiet(s: Ledger, id: Uuid, worker: string, e: OwnerEvidence)
    requires Indexed(s)
    ensures Quiet(s, ApplyOwnerEvidence(s, id, worker, e).db)
  {
    hide Quiet, Indexed, Settle, Block, Lookup;
    var t := ApplyOwnerEvidence(s, id, worker, e);
    if t.outcome.Refused? || s.rows[id].state != Unknown {
      QuietSame(s, t.db);
    } else if e.outcome == OwnerUnknown {
      QuietOne(s, t.db, id, s.rows[id].(recovery := None));
    } else {
      QuietOne(s, t.db, id, OwnerSettledRow(s.rows[id], e));
    }
  }

  lemma QuietInbox(s: Ledger, s': Ledger, ref: EvidenceRef, e: Evidence)
    requires Indexed(s) && s'.rows == s.rows && s'.claims == s.claims && s'.inbox == s.inbox[ref := e]
    requires s'.requests == s.requests && FiledFor(s.rows, ref, e)
    ensures Quiet(s, s')
  {
    hide FiledFor;
  }

  lemma InsertQuiet(s: Ledger, ref: EvidenceRef, report: Report)
    requires Indexed(s)
    ensures Quiet(s, InsertVerifiedEvidence(s, ref, report).db)
  {
    hide Quiet, WellFormedReport, RowsIndexed, ClaimsIndexed, ReportsFiled, Unsent;
    var t := InsertVerifiedEvidence(s, ref, report);
    if ref !in s.inbox && t.outcome.Done? {
      QuietInbox(s, t.db, ref, t.db.inbox[ref]);
    } else {
      QuietSame(s, t.db);
    }
  }

  lemma ReportSound(s: Ledger, ref: EvidenceRef)
    requires Indexed(s) && ref in s.inbox
    ensures FiledFor(s.rows, ref, s.inbox[ref]) && WellFormedReport(s.inbox[ref].report)
    ensures Stage(s.inbox[ref].report.terminal) == 3
  {
  }

  lemma ViolateQuiet(s: Ledger, id: Uuid, ref: EvidenceRef, why: Category)
    requires Indexed(s) && id in s.rows && ref in s.inbox
    ensures Quiet(s, Violate(s, id, ref, why))
  {
    hide Quiet, Indexed, WellFormedReport;
    var filed := Quarantine(s, ref, why);
    ReportSound(s, ref);
    QuietInbox(s, filed, ref, filed.inbox[ref]);
    QuietKeepsIndexed(s, filed);
    QuietOne(filed, Violate(s, id, ref, why), id, ViolatedRow(s.rows[id], why));
    QuietTransitive(s, filed, Violate(s, id, ref, why));
  }

  lemma CompensateQuiet(s: Ledger, id: Uuid, ref: EvidenceRef)
    requires Indexed(s) && id in s.rows && ref in s.inbox && s.rows[id].debt.Active?
    ensures Quiet(s, Compensate(s, id, ref))
  {
    hide Quiet, Indexed, WellFormedReport, CompensatedWindow, Block, Lookup;
    var filed := s.(inbox := s.inbox[ref := s.inbox[ref].(state := Consumed)]);
    ReportSound(s, ref);
    QuietInbox(s, filed, ref, filed.inbox[ref]);
    QuietKeepsIndexed(s, filed);
    QuietOne(filed, Compensate(s, id, ref), id, CompensatedRow(s.rows[id], ref, s.inbox[ref].report));
    QuietTransitive(s, filed, Compensate(s, id, ref));
  }

  lemma AdjudicateQuiet(s: Ledger, id: Uuid, ref: EvidenceRef)
    requires Indexed(s) && id in s.rows && ref in s.inbox && s.rows[id].debt.Active? && s.rows[id].backend.Some?
    ensures Quiet(s, Adjudicate(s, id, ref).db)
  {
    hide Quiet, Indexed, Violation, WellFormedReport, Violate, Compensate, Lookup;
    var t := Adjudicate(s, id, ref);
    ReportSound(s, ref);
    if t.outcome.Refused? || t.outcome.value == RejectedScope {
      QuietSame(s, t.db);
    } else if t.outcome.value == Compensated {
      CompensateQuiet(s, id, ref);
    } else {
      ViolateQuiet(s, id, ref, CryptoViolation);
      ViolateQuiet(s, id, ref, ContractViolation);
    }
  }

  lemma LateCompensateQuiet(s: Ledger, id: Uuid, ref: EvidenceRef, expected: int)
    requires Indexed(s)
    ensures Quiet(s, LateCompensate(s, id, ref, expected).db)
  {
    hide Quiet, Indexed, Adjudicate;
    QuietSame(s, s);
    if ref in s.inbox && id in s.rows && s.rows[id].debt.Active? && s.rows[id].backend.Some? {
      AdjudicateQuiet(s, id, ref);
    }
  }

  lemma RecoverQuiet(s: Ledger, op: Op)
    requires Indexed(s) && op.OpRecover?
    ensures Quiet(s, Apply(s, op))
  {
    hide Quiet, Indexed, ExpireAdmissions, MarkAllStale, ClaimAll;
    var a := ExpireAdmissions(s, op.expired);
    var b := MarkAllStale(a, op.stale, op.now);
    ExpireAdmissionsQuiet(s, op.expired);
    QuietKeepsIndexed(s, a);
    MarkAllStaleQuiet(a, op.stale, op.now);
    QuietKeepsIndexed(a, b);
    ClaimAllQuiet(b, op.claimed, op.worker, op.now, op.lease);
    QuietTransitive(s, a, b);
    QuietTransitive(s, b, Apply(s, op));
  }

  lemma ApplyQuiet(s: Ledger, op: Op)
    requires Indexed(s) && !op.OpReserve?
    ensures Quiet(s, Apply(s, op))
  {
    hide Quiet, Indexed, Dispatch, Reconcile, ApplyOwnerEvidence, InsertVerifiedEvidence, LateCompensate,
      Recover, ExpireUnknowns, RepairDebtCaches;
    match op
    case OpDispatch(id, backend, lease, expected, now) => DispatchQuiet(s, id, backend, lease, expected, now);
    case OpReconcile(id, actual, success, backend) => ReconcileQuiet(s, id, actual, success, backend);
    case OpRecover(_, _, _, _, _, _) => RecoverQuiet(s, op);
    case OpEvidence(id, worker, evidence) => OwnerEvidenceQuiet(s, id, worker, evidence);
    case OpExpire(ids) => ExpireUnknownsQuiet(s, ids);
    case OpIngest(ref, report) => InsertQuiet(s, ref, report);
    case OpCompensate(id, ref, revision) => LateCompensateQuiet(s, id, ref, revision);
    case OpRepair(windows) => RepairQuiet(s, windows);
  }

  lemma IndexGrows(rows: map<Uuid, Row>, claims: map<ClaimKey, Uuid>, id: Uuid, r: Row)
    requires RowsIndexed(rows, claims) && ClaimsIndexed(rows, claims) && id !in rows && r.admission.claim !in claims
    ensures RowsIndexed(rows[id := r], claims[r.admission.claim := id])
    ensures ClaimsIndexed(rows[id := r], claims[r.admission.claim := id])
  {
  }

  lemma AdmitIndexed(s: Ledger, id: Uuid, r: Row)
    requires Indexed(s) && id !in s.rows && r.admission.claim !in s.claims && r.backend == None
    ensures var s' := Admit(s, id, r);
            && Indexed(s') && Persists(s, s')
            && r.admission.claim in s'.claims && s'.claims[r.admission.claim] == id && id in s'.rows && s'.rows[id] == r
  {
    hide RowsIndexed, ClaimsIndexed, Filed, Lookup, Hold;
    IndexGrows(s.rows, s.claims, id, r);
    FiledGrows(s, id, r);
  }

  lemma FiledGrows(s: Ledger, id: Uuid, r: Row)
    requires Filed(s) && id !in s.rows && r.backend == None
    ensures Filed(Admit(s, id, r))
  {
    hide Lookup, Hold, WellFormedReport;
    var s' := Admit(s, id, r);
    forall ref | ref in s'.inbox ensures FiledFor(s'.rows, ref, s'.inbox[ref]) {
      assert FiledFor(s.rows, ref, s.inbox[ref]);
    }
  }

  /** A reservation, new or replayed, answers the attempt its claim is indexed by. */
  lemma ReserveIndexed(s: Ledger, q: AdmissionRequest, now: int, spare: Uuid)
    requires Indexed(s)
    ensures var t := Reserve(s, q, now, spare);
            && Indexed(t.db) && Persists(s, t.db)
            && (t.outcome.Done? ==> q.Claim() in t.db.claims && t.db.claims[q.Claim()] == t.outcome.value.attemptId)
            && (t.outcome.Done? && !t.outcome.value.replay ==>
                  t.outcome.value.attemptId in t.db.rows &&
                  t.db.rows[t.outcome.value.attemptId].admission.reserved.bytes == q.maximum.bytes)
  {
    hide AdmissionWindowBudget, Exceeds, WindowTotal, Indexed, Persists, Admit, Lookup, InsertAccepted;
    var t := Reserve(s, q, now, spare);
    PersistsSame(s);
    if t.outcome.Done? && !t.outcome.value.replay {
      var id := t.outcome.value.attemptId;
      NotYetIndexed(s, q, id);
      AdmitIndexed(s, id, NewRow(q, WindowOf(q, now), GroupOf(q, now), now));
    }
  }

  lemma NotYetIndexed(s: Ledger, q: AdmissionRequest, id: Uuid)
    requires InsertAccepted(s, q, id)
    ensures id !in s.rows
  {
  }

  lemma PersistsSame(s: Ledger)
    ensures Persists(s, s)
  {
  }

  // ---- Any run.

  /** What one transaction of any kind keeps. */
  lemma ApplyIndexed(s: Ledger, op: Op)
    requires Indexed(s)
    ensures Indexed(Apply(s, op)) && Persists(s, Apply(s, op))
  {
    hide Indexed, Persists, Apply;
    if op.OpReserve? {
      ReserveIndexed(s, op.q, op.now, op.spare);
      ReserveApplies(s, op);
    } else {
      ApplyQuiet(s, op);
      QuietKeepsIndexed(s, Apply(s, op));
      QuietPersists(s, Apply(s, op));
    }
  }

  lemma QuietPersists(s: Ledger, s': Ledger)
    requires Quiet(s, s')
    ensures Persists(s, s')
  {
  }

  lemma ReserveApplies(s: Ledger, op: Op)
    requires op.OpReserve?
    ensures Apply(s, op) == Reserve(s, op.q, op.now, op.spare).db
  {
    hide Reserve;
  }

  lemma FreshIndexed(manifests: set<string>)
    ensures Indexed(Fresh(manifests))
  {
  }

  lemma {:induction false} RunIndexed(s: Ledger, ops: seq<Op>)
    requires Indexed(s)
    ensures Indexed(Run(s, ops))
  {
    hide Indexed, Apply;
    if ops != [] {
      RunIndexed(s, ops[..|ops| - 1]);
      ApplyIndexed(Run(s, ops[..|ops| - 1]), ops[|ops| - 1]);
    }
  }
}
