/** How one attempt evolves along runs: it only advances, closed attempts are frozen, debt only resolves. */
module LedgerProgress {
  import opened Ledger
  import opened LedgerInvariant
  import opened LedgerSteps
  import opened LedgerRuns
  import opened LedgerIndex
  import opened LedgerTracks
  import opened EveryRun

  /** From any state that any run reaches: an attempt's rank and revision never fall, its revision rises at most once,
      its debt only resolves, a settled cost is final, and once closed and settled it never changes again. While later
      settlements are on time, every closed attempt is frozen. */
  lemma AttemptsOnlyAdvance(manifests: set<string>, before: seq<Op>, ops: seq<Op>, id: Uuid)
    requires id in Run(Fresh(manifests), before).rows
    ensures var s := Run(Fresh(manifests), before);
            var s' := Run(s, ops);
            && id in s'.rows && Endures(s.rows[id], s'.rows[id]) && s'.rows[id].revision <= 1
            && (OnTimeRun(s, ops) && Closed(s.rows[id]) ==> s'.rows[id] == s.rows[id])
  {
    hide Tracked, Run, OnTimeRun, Endures;
    var s := Run(Fresh(manifests), before);
    FreshKept(manifests);
    RunKeeps(Fresh(manifests), before);
    RunKeeps(s, ops);
    RunLasts(s, ops);
    PlainRow(Run(s, ops), id);
  }

  // ---- Debt.

  /** In every run: debt is owed in the reserved amount, an uncertain attempt owes its objects, and only consumed
      evidence with an adjustment of the whole reservation resolves them. What is owed belongs to open uncertainty or
      to an attempt that settled late; while settlements are on time only to open uncertainty. */
  lemma DebtFollowsUncertainty(manifests: set<string>, ops: seq<Op>, id: Uuid)
    requires id in Run(Fresh(manifests), ops).rows
    ensures var s := Run(Fresh(manifests), ops);
            var r := s.rows[id];
            && (r.debt != NoDebt ==> r.debt.amount == r.admission.reserved.objects > 0)
            && (Open(r) && r.admission.reserved.objects > 0 ==> r.debt.Active?)
            && (r.debt.Active? ==> Open(r) || (r.state == Succeeded && r.reservation == Reconciled))
            && (r.debt.Active? && OnTimeRun(Fresh(manifests), ops) ==> Open(r))
            && (r.debt.Resolved? ==>
                  && r.debt.evidence in s.inbox && s.inbox[r.debt.evidence].state == Consumed
                  && s.inbox[r.debt.evidence].attempt == id
                  && r.debt.evidence in s.adjustments && s.adjustments[r.debt.evidence].attempt == id
                  && s.adjustments[r.debt.evidence].debtDelta == -r.admission.reserved.objects)
  {
    hide Run, OnTimeRun, Spent, Guarded, Inv;
    FreshKept(manifests);
    RunKeeps(Fresh(manifests), ops);
    var s := Run(Fresh(manifests), ops);
    assert Backed(s, id) && Plain(s.rows[id]);
    if OnTimeRun(Fresh(manifests), ops) {
      FreshInv(manifests);
      RunKeepsInv(Fresh(manifests), ops);
      RowFacts(s, id);
    }
  }

  /** Once an attempt is closed, the debt it still owes is owed for ever: no run resolves it, and evidence for it is
      never accepted. */
  lemma ClosedDebtIsNeverResolved(manifests: set<string>, before: seq<Op>, ops: seq<Op>, id: Uuid, ref: EvidenceRef,
                                  expected: int)
    requires var s := Run(Fresh(manifests), before); id in s.rows && Closed(s.rows[id]) && s.rows[id].debt.Active?
    ensures var s := Run(Fresh(manifests), before);
            var s' := Run(s, ops);
            && id in s'.rows && Closed(s'.rows[id]) && s'.rows[id].debt == s.rows[id].debt
            && LateCompensate(s', id, ref, expected).outcome != Done(Compensated)
  {
    hide Run, LateCompensate, OnTimeRun;
    AttemptsOnlyAdvance(manifests, before, ops, id);
    ClosedIsNotCompensated(Run(Run(Fresh(manifests), before), ops), id, ref, expected);
  }

  lemma ClosedIsNotCompensated(s: Ledger, id: Uuid, ref: EvidenceRef, expected: int)
    requires id in s.rows && Closed(s.rows[id])
    ensures LateCompensate(s, id, ref, expected).outcome != Done(Compensated)
  {
    hide Adjudicate;
  }

  /** How debt gets there: a settlement that commits after recovery marked an object-bearing attempt UNKNOWN closes it
      and leaves the whole reservation owed. */
  lemma LateSettlementStrandsDebt(manifests: set<string>, ops: seq<Op>, id: Uuid, actual: Cost, success: bool,
                                  backend: string)
    requires var s := Run(Fresh(manifests), ops);
             && id in s.rows && s.rows[id].state == Unknown && s.rows[id].admission.reserved.objects > 0
             && Reconcile(s, id, actual, success, backend).outcome.Done?
    ensures var s := Run(Fresh(manifests), ops);
            var s' := Run(Fresh(manifests), ops + [OpReconcile(id, actual, success, backend)]);
            && id in s'.rows && Closed(s'.rows[id]) && s'.rows[id].reservation == Reconciled
            && s'.rows[id].debt == Active(s.rows[id].admission.reserved.objects)
  {
    hide Tracked, Reconcile, Plain;
    var s, op := Run(Fresh(manifests), ops), OpReconcile(id, actual, success, backend);
    assert (ops + [op])[..|ops|] == ops;
    FreshKept(manifests);
    RunKeeps(Fresh(manifests), ops);
    PlainRow(s, id);
    SettledLate(s, id, actual, success, backend);
  }

  lemma SettledLate(s: Ledger, id: Uuid, actual: Cost, success: bool, backend: string)
    requires id in s.rows && s.rows[id].state == Unknown && s.rows[id].admission.reserved.objects > 0
    requires Plain(s.rows[id]) && Reconcile(s, id, actual, success, backend).outcome.Done?
    ensures var s' := Reconcile(s, id, actual, success, backend).db;
            && id in s'.rows && Closed(s'.rows[id]) && s'.rows[id].reservation == Reconciled
            && s'.rows[id].debt == Active(s.rows[id].admission.reserved.objects)
  {
    hide Settle, Lookup;
  }

  /** In every run an attempt has at most one filed report, and the owner, request and window it was filed under still
      bind it, so late compensation never rejects a binding. */
  lemma ReportsStayBound(manifests: set<string>, ops: seq<Op>, a: EvidenceRef, b: EvidenceRef, id: Uuid, expected: int)
    requires var s := Run(Fresh(manifests), ops);
             a in s.inbox && b in s.inbox && s.inbox[a].attempt == s.inbox[b].attempt
    ensures a == b && LateCompensate(Run(Fresh(manifests), ops), id, a, expected).outcome != Done(RejectedBinding)
  {
    hide Run, Indexed, Violation, Violate, Compensate, WellFormedReport;
    FreshIndexed(manifests);
    RunIndexed(Fresh(manifests), ops);
    ReportSound(Run(Fresh(manifests), ops), a);
    ReportSound(Run(Fresh(manifests), ops), b);
  }

  /** The attempt fails and its evidence is quarantined; debt, blocker, budget and adjustments stay as they were. */
  predicate OnlyFails(s: Ledger, s': Ledger, id: Uuid, ref: EvidenceRef) {
    && s'.windows == s.windows && s'.guards == s.guards && s'.adjustments == s.adjustments
    && id in s.rows && id in s'.rows
    && s'.rows[id].debt == s.rows[id].debt && s'.rows[id].reservation == s.rows[id].reservation
    && s'.rows[id].state == Failed && s'.rows[id].revision == s.rows[id].revision + 1
    && ref in s'.inbox && s'.inbox[ref].state == Quarantined
  }

  lemma ViolationTouchesNoBudget(s: Ledger, id: Uuid, ref: EvidenceRef, expected: int)
    requires LateCompensate(s, id, ref, expected).outcome == Done(CommittedDomainViolation)
    ensures OnlyFails(s, LateCompensate(s, id, ref, expected).db, id, ref)
  {
    hide Violation, Violate, Compensate, Lookup, OnlyFails;
    ViolateOnlyFails(s, id, ref, CryptoViolation);
    ViolateOnlyFails(s, id, ref, ContractViolation);
  }

  lemma ViolateOnlyFails(s: Ledger, id: Uuid, ref: EvidenceRef, why: Category)
    requires id in s.rows && ref in s.inbox
    ensures OnlyFails(s, Violate(s, id, ref, why), id, ref)
  {
  }

  // ---- Debt cache repair from a corrupted cache.

  /** The window with its cache made exact. */
  ghost function Exact(s: Ledger, w: WindowKey): Window
    requires w in s.windows
  {
    s.windows[w].(debtCache := WindowTotal(s, w).debt)
  }

  /** The record tells a window's cached debt and what it really owed, which differed. */
  ghost predicate RecordsDrift(s: Ledger, record: AuditRecord) {
    && record.DebtCacheRepaired? && record.window in s.windows && record.cached == s.windows[record.window].debtCache
    && record.authoritative == WindowTotal(s, record.window).debt && record.cached != record.authoritative
  }

  /** Exactly the caches of `ws` became exact; beside them only the audit trail grew, by the drift that was found. */
  ghost predicate Repaired(s: Ledger, s': Ledger, ws: set<WindowKey>) {
    && s' == s.(windows := s'.windows, audit := s'.audit) && s.audit <= s'.audit
    && (forall i :: |s.audit| <= i < |s'.audit| ==> RecordsDrift(s, s'.audit[i]))
    && s'.windows.Keys == s.windows.Keys
    && (forall w :: w in s.windows && w in ws ==> s'.windows[w] == Exact(s, w))
    && (forall w :: w in s.windows && w !in ws ==> s'.windows[w] == s.windows[w])
  }

  /** No column check forbids these caches: both totals are non-negative. */
  ghost predicate CachesNonNegative(s: Ledger) {
    forall w :: w in s.windows ==> s.windows[w].debtCache >= 0 && WindowTotal(s, w).debt >= 0
  }

  /** One repair, as an update of one window. */
  lemma RepairShape(s: Ledger, w: WindowKey)
    requires w in s.windows && s.windows[w].debtCache >= 0 && WindowTotal(s, w).debt >= 0
    ensures var s' := RepairDebtCache(s, w);
            && s' == s.(windows := s.windows[w := Exact(s, w)], audit := s'.audit) && s.audit <= s'.audit
            && (forall i :: |s.audit| <= i < |s'.audit| ==>
                  s'.audit[i].DebtCacheRepaired? && s'.audit[i].window == w && RecordsDrift(s, s'.audit[i]))
  {
    if RepairDebtCache(s, w) == s {
      SameUpdate(s.windows, w);
    }
  }

  lemma RepairOne(s: Ledger, mid: Ledger, ws: set<WindowKey>, w0: WindowKey)
    requires CachesNonNegative(s) && Repaired(s, mid, ws)
    ensures Repaired(s, RepairDebtCache(mid, w0), ws + {w0})
  {
    if w0 in s.windows {
      RepairStep(s, mid, ws, w0);
    }
  }

  lemma RepairStep(s: Ledger, mid: Ledger, ws: set<WindowKey>, w0: WindowKey)
    requires CachesNonNegative(s) && Repaired(s, mid, ws) && w0 in s.windows
    ensures Repaired(s, RepairDebtCache(mid, w0), ws + {w0})
  {
    hide RepairDebtCache;
    var s' := RepairDebtCache(mid, w0);
    assert WindowTotal(mid, w0) == WindowTotal(s, w0);
    RepairShape(mid, w0);
    assert Exact(mid, w0) == Exact(s, w0);
  }

  /** From any corrupted non-negative caches, repair makes exactly the given windows' caches exact. */
  lemma {:induction false} RepairRestores(s: Ledger, ws: seq<WindowKey>)
    requires CachesNonNegative(s)
    ensures Repaired(s, RepairDebtCaches(s, ws), set w | w in ws)
  {
    hide CachesNonNegative, RepairDebtCache;
    if ws != [] {
      var before := ws[..|ws| - 1];
      RepairRestores(s, before);
      RepairOne(s, RepairDebtCaches(s, before), (set w | w in before), ws[|ws| - 1]);
      assert (set w | w in ws) == (set w | w in before) + {ws[|ws| - 1]};
    }
  }
}
