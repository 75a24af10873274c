/** What every run of the ledger keeps: late settlements, displaced workers and crashes included. */
module EveryRun {
  import opened Ledger
  import opened LedgerRuns
  import opened LedgerIndex
  import opened LedgerTracks
  import opened ControlBudget
  import LedgerSteps

  ghost predicate Kept(s: Ledger) { Indexed(s) && Tracked(s) }

  /** No attempt disappears, and each one endures. */
  predicate Lasts(s: Ledger, s': Ledger) {
    forall id :: id in s.rows ==> id in s'.rows && Endures(s.rows[id], s'.rows[id])
  }

  /** Closed attempts are left alone. */
  predicate Seals(s: Ledger, s': Ledger) {
    forall id :: id in s.rows && Closed(s.rows[id]) ==> id in s'.rows && s'.rows[id] == s.rows[id]
  }

  lemma LastsTransitive(a: Ledger, b: Ledger, c: Ledger)
    requires Lasts(a, b) && Lasts(b, c)
    ensures Lasts(a, c) && (Seals(a, b) && Seals(b, c) ==> Seals(a, c))
  {
    hide Endures;
    forall id | id in a.rows ensures id in c.rows && Endures(a.rows[id], c.rows[id]) {
      EnduresTransitive(a.rows[id], b.rows[id], c.rows[id]);
    }
  }

  lemma SameLasts(s: Ledger, s': Ledger)
    requires forall id :: id in s.rows ==> id in s'.rows && s'.rows[id] == s.rows[id]
    ensures Lasts(s, s') && Seals(s, s')
  {
  }

  lemma MovesLast(s: Ledger, s': Ledger, id: Uuid)
    requires Moves(s, s', id)
    ensures id in s.rows && id in s'.rows && Lasts(s, s')
    ensures (Closed(s.rows[id]) ==> s'.rows[id] == s.rows[id]) ==> Seals(s, s')
  {
    hide Moves;
    MovedRow(s, s', id);
  }

  /** Held calls follow the reservations. */
  ghost predicate Level(s: Ledger, s': Ledger) { forall w: WindowKey :: Gap(s', w) == Gap(s, w) }

  /** The transaction keeps the tracked books and, once they hold, the control caps; attempts endure, closed ones are
      left alone, and held calls follow. */
  ghost predicate Keeps(s: Ledger, s': Ledger) {
    Tracked(s') && (Governs(s) ==> Governs(s')) && Lasts(s, s') && Seals(s, s') && Level(s, s')
  }

  lemma StepLevel(s: Ledger, s': Ledger, id: Uuid)
    requires Tracked(s) && Steps(s, s', id)
    ensures Level(s, s')
  {
    hide Tracked, Moves, Gap, ControlCost, Thrifty;
    forall w: WindowKey ensures Gap(s', w) == Gap(s, w) {
      if Idle(s, s') {
        IdleGap(s, s', w);
      } else {
        MovedRow(s, s', id);
        PlainRow(s, id);
        GapMoves(s, s', id, w);
      }
    }
  }

  lemma IdleGap(s: Ledger, s': Ledger, w: WindowKey)
    requires Idle(s, s')
    ensures Gap(s', w) == Gap(s, w)
  {
    hide EvidenceStays;
    IdleTotals(s, s', w, GroupKey(w, "", "", ""));
  }

  lemma AdmitLevel(s: Ledger, id: Uuid, r: Row)
    requires id !in s.rows && r.reservation == Reserved
    ensures Level(s, Admit(s, id, r))
  {
    hide WindowTotal, Open;
    forall w: WindowKey ensures Gap(Admit(s, id, r), w) == Gap(s, w) {
      LedgerSteps.AdmitTotals(s, id, r, w, r.admission.group);
    }
  }

  lemma KeepsTransitive(a: Ledger, b: Ledger, c: Ledger)
    requires Keeps(a, b) && Keeps(b, c)
    ensures Keeps(a, c)
  {
    hide Tracked, Governs, Lasts, Seals, Gap;
    LastsTransitive(a, b, c);
  }

  lemma KeepsSame(s: Ledger)
    requires Tracked(s)
    ensures Keeps(s, s)
  {
    hide Tracked, Governs, Lasts, Seals, Gap;
    SameLasts(s, s);
  }

  lemma StepKeeps(s: Ledger, s': Ledger, id: Uuid)
    requires Tracked(s) && Steps(s, s', id)
    ensures Keeps(s, s')
  {
    hide Tracked, Governs, Moves, Lasts, Seals, Level, ControlCost, Thrifty;
    StepLevel(s, s', id);
    if Idle(s, s') {
      IdleKeepsTracked(s, s');
      SameLasts(s, s');
    } else {
      MovesKeepTracked(s, s', id);
      MovesLast(s, s', id);
    }
    if Governs(s) {
      StepsKeepGoverns(s, s', id);
    }
  }

  lemma {:induction false} ExpireAdmissionsKeep(s: Ledger, ids: seq<Uuid>)
    requires Tracked(s)
    ensures Keeps(s, ExpireAdmissions(s, ids))
  {
    hide Tracked, Governs, Lasts, Seals, Level, ExpireAdmission, Steps;
    if ids == [] {
      KeepsSame(s);
    } else {
      var mid, id := ExpireAdmissions(s, ids[..|ids| - 1]), ids[|ids| - 1];
      ExpireAdmissionsKeep(s, ids[..|ids| - 1]);
      ExpireAdmissionSteps(mid, id);
      StepKeeps(mid, ExpireAdmission(mid, id), id);
      KeepsTransitive(s, mid, ExpireAdmissions(s, ids));
    }
  }

  lemma {:induction false} MarkAllStaleKeeps(s: Ledger, ids: seq<Uuid>, now: int)
    requires Tracked(s)
    ensures Keeps(s, MarkAllStale(s, ids, now))
  {
    hide Tracked, Governs, Lasts, Seals, Level, MarkStale, Steps;
    if ids == [] {
      KeepsSame(s);
    } else {
      var mid, id := MarkAllStale(s, ids[..|ids| - 1], now), ids[|ids| - 1];
      MarkAllStaleKeeps(s, ids[..|ids| - 1], now);
      MarkStaleSteps(mid, id, now);
      StepKeeps(mid, MarkStale(mid, id, now), id);
      KeepsTransitive(s, mid, MarkAllStale(s, ids, now));
    }
  }

  lemma {:induction false} ClaimAllKeeps(s: Ledger, ids: seq<Uuid>, worker: string, now: int, lease: int)
    requires Tracked(s)
    ensures Keeps(s, ClaimAll(s, ids, worker, now, lease))
  {
    hide Tracked, Governs, Lasts, Seals, Level, ClaimRecovery, Steps;
    if ids == [] {
      KeepsSame(s);
    } else {
      var mid, id := ClaimAll(s, ids[..|ids| - 1], worker, now, lease), ids[|ids| - 1];
      ClaimAllKeeps(s, ids[..|ids| - 1], worker, now, lease);
      ClaimSteps(mid, id, worker, now, lease);
      StepKeeps(mid, ClaimRecovery(mid, id, worker, now, lease), id);
      KeepsTransitive(s, mid, ClaimAll(s, ids, worker, now, lease));
    }
  }

  lemma {:induction false} ExpireUnknownsKeep(s: Ledger, ids: seq<Uuid>)
    requires Tracked(s)
    ensures Keeps(s, ExpireUnknowns(s, ids))
  {
    hide Tracked, Governs, Lasts, Seals, Level, ExpireUnknownOne, Steps;
    if ids == [] {
      KeepsSame(s);
    } else {
      var mid, id := ExpireUnknowns(s, ids[..|ids| - 1]), ids[|ids| - 1];
      ExpireUnknownsKeep(s, ids[..|ids| - 1]);
      ExpireUnknownSteps(mid, id);
      StepKeeps(mid, ExpireUnknownOne(mid, id), id);
      KeepsTransitive(s, mid, ExpireUnknowns(s, ids));
    }
  }

  lemma RecoverKeeps(s: Ledger, op: Op)
    requires Tracked(s) && op.OpRecover?
    ensures Keeps(s, Apply(s, op))
  {
    hide Tracked, Governs, Lasts, Seals, Level, ExpireAdmissions, MarkAllStale, ClaimAll;
    var a := ExpireAdmissions(s, op.expired);
    var b := MarkAllStale(a, op.stale, op.now);
    ExpireAdmissionsKeep(s, op.expired);
    MarkAllStaleKeeps(a, op.stale, op.now);
    ClaimAllKeeps(b, op.claimed, op.worker, op.now, op.lease);
    KeepsTransitive(s, a, b);
    KeepsTransitive(s, b, Apply(s, op));
  }

  lemma NewRowPlain(q: AdmissionRequest, s: Ledger, id: Uuid, w: WindowKey, g: GroupKey, now: int)
    requires InsertAccepted(s, q, id)
    ensures Plain(NewRow(q, w, g, now)) && id !in s.rows
  {
  }

  lemma AdmitLasts(s: Ledger, id: Uuid, r: Row)
    requires id !in s.rows
    ensures Lasts(s, Admit(s, id, r)) && Seals(s, Admit(s, id, r))
  {
    hide Lasts, Seals, Hold;
    SameLasts(s, Admit(s, id, r));
  }

  lemma ReserveKeeps(s: Ledger, q: AdmissionRequest, now: int, spare: Uuid)
    requires Tracked(s)
    ensures Keeps(s, Reserve(s, q, now, spare).db)
  {
    hide Tracked, Governs, Lasts, Seals, Gap, Exceeds, WindowTotal, Admit, AdmissionWindowBudget, InsertAccepted, Plain;
    var t := Reserve(s, q, now, spare);
    SameLasts(s, s);
    if t.outcome.Done? && !t.outcome.value.replay {
      var id := t.outcome.value.attemptId;
      NewRowPlain(q, s, id, WindowOf(q, now), GroupOf(q, now), now);
      AdmitKeepsTracked(s, id, NewRow(q, WindowOf(q, now), GroupOf(q, now), now));
      AdmitLasts(s, id, NewRow(q, WindowOf(q, now), GroupOf(q, now), now));
      AdmitLevel(s, id, NewRow(q, WindowOf(q, now), GroupOf(q, now), now));
      if Governs(s) {
        AdmittedGoverns(s, q, now, id);
      }
    }
  }

  /** The calls that a settlement takes out of a window's held calls although they were released before. */
  ghost function Reclaims(s: Ledger, op: Op, w: WindowKey): int {
    if op.OpReconcile? && op.id in s.rows && s.rows[op.id].admission.window == w &&
       s.rows[op.id].reservation == Released && Apply(s, op) != s
    then s.rows[op.id].admission.reserved.calls
    else 0
  }

  lemma SettlementGap(s: Ledger, op: Op, w: WindowKey)
    requires Tracked(s) && op.OpReconcile?
    ensures Gap(Apply(s, op), w) == Gap(s, w) + Reclaims(s, op, w)
  {
    hide Tracked, Moves, Reconcile, Gap, Idle;
    ReconcileMoves(s, op.id, op.actual, op.success, op.backend);
    var s' := Apply(s, op);
    if Idle(s, s') {
      IdleGap(s, s', w);
      IdleReclaims(s, op, w);
    } else {
      MovedRow(s, s', op.id);
      GapMoves(s, s', op.id, w);
    }
  }

  lemma IdleReclaims(s: Ledger, op: Op, w: WindowKey)
    requires op.OpReconcile? && Idle(s, Apply(s, op))
    ensures Reclaims(s, op, w) == 0
  {
    hide Settle, Lookup, EvidenceStays;
  }

  lemma SettlementKeeps(s: Ledger, op: Op)
    requires Tracked(s) && op.OpReconcile?
    ensures Tracked(Apply(s, op)) && (Governs(s) && GovernedReply(s, op) ==> Governs(Apply(s, op)))
    ensures Lasts(s, Apply(s, op)) && (OnTime(s, op) ==> Seals(s, Apply(s, op)))
    ensures forall w: WindowKey :: Gap(Apply(s, op), w) == Gap(s, w) + Reclaims(s, op, w)
  {
    hide Tracked, Governs, Moves, Reconcile, GovernedReply, Lasts, Seals, Gap, Reclaims;
    forall w: WindowKey ensures Gap(Apply(s, op), w) == Gap(s, w) + Reclaims(s, op, w) {
      SettlementGap(s, op, w);
    }
    ReconcileMoves(s, op.id, op.actual, op.success, op.backend);
    if Idle(s, Apply(s, op)) {
      IdleKeepsTracked(s, Apply(s, op));
      SameLasts(s, Apply(s, op));
    } else {
      MovesKeepTracked(s, Apply(s, op), op.id);
      MovesLast(s, Apply(s, op), op.id);
      if OnTime(s, op) {
        OnTimeIsOpen(s, op);
      }
    }
    if Governs(s) && GovernedReply(s, op) {
      SettlementKeepsGoverns(s, op);
    }
  }

  /** A settlement on time finds its attempt live, or settled already. */
  lemma OnTimeIsOpen(s: Ledger, op: Op)
    requires Tracked(s) && op.OpReconcile? && op.id in s.rows && OnTime(s, op)
    ensures Closed(s.rows[op.id]) ==> Apply(s, op) == s
  {
    hide Tracked;
    PlainRow(s, op.id);
  }

  lemma IngestKeeps(s: Ledger, ref: EvidenceRef, report: Report)
    requires Tracked(s)
    ensures Keeps(s, InsertVerifiedEvidence(s, ref, report).db)
  {
    hide Tracked, Steps, Keeps, InsertVerifiedEvidence;
    IngestSteps(s, ref, report);
    StepKeeps(s, InsertVerifiedEvidence(s, ref, report).db, NIL);
  }

  lemma OtherKeeps(s: Ledger, op: Op)
    requires Kept(s) && !op.OpReconcile?
    ensures Keeps(s, Apply(s, op))
  {
    hide Indexed, Tracked, Governs, Steps, Keeps, Reserve, Dispatch, ApplyOwnerEvidence, InsertVerifiedEvidence,
      LateCompensate, Recover, ExpireUnknowns, RepairDebtCaches;
    match op
    case OpReserve(q, now, spare) => ReserveKeeps(s, q, now, spare);
    case OpDispatch(id, backend, lease, expected, now) =>
      DispatchSteps(s, id, backend, lease, expected, now);
      StepKeeps(s, Apply(s, op), id);
    case OpRecover(_, _, _, _, _, _) => RecoverKeeps(s, op);
    case OpEvidence(id, worker, evidence) =>
      OwnerEvidenceSteps(s, id, worker, evidence);
      StepKeeps(s, Apply(s, op), id);
    case OpExpire(ids) => ExpireUnknownsKeep(s, ids);
    case OpIngest(ref, report) => IngestKeeps(s, ref, report);
    case OpCompensate(id, ref, revision) =>
      LateCompensateSteps(s, id, ref, revision);
      StepKeeps(s, Apply(s, op), id);
    case OpRepair(windows) =>
      RepairIdle(s, windows);
      IdleSteps(s, NIL);
      StepKeeps(s, s, NIL);
  }

  /** One transaction of any kind, on time or not. */
  lemma ApplyKeeps(s: Ledger, op: Op)
    requires Kept(s)
    ensures Kept(Apply(s, op)) && (Governs(s) && GovernedReply(s, op) ==> Governs(Apply(s, op)))
    ensures Lasts(s, Apply(s, op)) && (OnTime(s, op) ==> Seals(s, Apply(s, op)))
    ensures forall w: WindowKey :: Gap(Apply(s, op), w) == Gap(s, w) + Reclaims(s, op, w)
  {
    hide Indexed, Tracked, Governs, Apply, GovernedReply, Lasts, Seals, OnTime, Gap;
    ApplyIndexed(s, op);
    if op.OpReconcile? {
      SettlementKeeps(s, op);
    } else {
      OtherKeeps(s, op);
    }
  }

  lemma {:induction false} RunKeeps(s: Ledger, ops: seq<Op>)
    requires Kept(s)
    ensures Kept(Run(s, ops))
  {
    hide Kept, Apply, Governs;
    if ops != [] {
      RunKeeps(s, ops[..|ops| - 1]);
      ApplyKeeps(Run(s, ops[..|ops| - 1]), ops[|ops| - 1]);
    }
  }

  /** Along every run no attempt disappears and each one endures; while settlements are on time, closed attempts never
      change again. */
  lemma {:induction false} RunLasts(s: Ledger, ops: seq<Op>)
    requires Kept(s)
    ensures Lasts(s, Run(s, ops)) && (OnTimeRun(s, ops) ==> Seals(s, Run(s, ops)))
  {
    hide Kept, Apply, Governs, Lasts, Seals, OnTime;
    if ops == [] {
      SameLasts(s, s);
    } else {
      var before := ops[..|ops| - 1];
      assert forall k :: 0 <= k < |before| ==> before[..k] == ops[..k];
      RunLasts(s, before);
      RunKeeps(s, before);
      ApplyKeeps(Run(s, before), ops[|ops| - 1]);
      LastsTransitive(s, Run(s, before), Run(s, ops));
    }
  }

  /** The control caps are kept along every governed run, from any state that has them. */
  lemma {:induction false} RunGoverns(s: Ledger, ops: seq<Op>)
    requires Kept(s) && Governs(s) && GovernedRun(s, ops)
    ensures Governs(Run(s, ops))
  {
    hide Kept, Governs, Apply, GovernedReply;
    if ops != [] {
      var before := ops[..|ops| - 1];
      assert forall k :: 0 <= k < |before| ==> before[..k] == ops[..k];
      RunGoverns(s, before);
      RunKeeps(s, before);
      ApplyKeeps(Run(s, before), ops[|ops| - 1]);
    }
  }

  lemma FreshKept(manifests: set<string>)
    ensures Kept(Fresh(manifests))
  {
    hide Indexed, Tracked;
    FreshIndexed(manifests);
    FreshTracked(manifests);
  }
}
