/** What every run of the ledger guarantees, in the ledger's own terms. */
module LedgerClaims {
  import opened Tallies
  import opened Ledger
  import opened LedgerInvariant
  import opened LedgerSteps
  import opened LedgerRuns
  import opened LedgerIndex
  import opened LedgerTracks
  import opened ControlBudget
  import opened EveryRun

  /** A state some on-time run reaches from an empty database. */
  ghost predicate Reachable(s: Ledger) {
    exists manifests, ops :: OnTimeRun(Fresh(manifests), ops) && s == Run(Fresh(manifests), ops)
  }

  lemma ReachableInv(s: Ledger)
    requires Reachable(s)
    ensures Inv(s)
  {
    hide Inv, OnTimeRun, Run;
    var manifests, ops :| OnTimeRun(Fresh(manifests), ops) && s == Run(Fresh(manifests), ops);
    FreshInv(manifests);
    RunKeepsInv(Fresh(manifests), ops);
  }

  // ---- Conservation.

  /** In every run a window's used calls, bytes and objects and its debt cache equal what its actuals, debts and
      adjustments add up to; while settlements are on time, so do the held amounts and its reservations. */
  lemma Conservation(manifests: set<string>, ops: seq<Op>, w: WindowKey)
    requires w in Run(Fresh(manifests), ops).windows
    ensures var s := Run(Fresh(manifests), ops);
            var b, t := s.windows[w], WindowTotal(s, w);
            && b.usedCalls == t.usedCalls && b.usedBytes == t.usedBytes
            && b.usedObjects == t.usedObjects + AdjustedObjects(s, w) && AdjustedObjects(s, w) == |b.objects|
            && b.debtCache == t.debt
            && (OnTimeRun(Fresh(manifests), ops) ==>
                  b.heldCalls == t.heldCalls && b.heldBytes == t.heldBytes && b.heldObjects == t.heldObjects)
  {
    hide Run, OnTimeRun, Indexed, PlainRows, Guarded, RowsLegal, Linked, GuardsCount, InboxLinked, ObjectsExact, Sum;
    var s := Run(Fresh(manifests), ops);
    FreshKept(manifests);
    RunKeeps(Fresh(manifests), ops);
    assert Spent(BooksOf(s, w), WindowTotal(s, w), AdjustedObjects(s, w));
    if OnTimeRun(Fresh(manifests), ops) {
      FreshInv(manifests);
      RunKeepsInv(Fresh(manifests), ops);
    }
  }

  /** Attempt, dispatch, reservation, claim, debt and revision always form a legal combination. */
  lemma LegalCombinations(s: Ledger, id: Uuid)
    requires Reachable(s) && id in s.rows
    ensures LegalCombination(s.rows[id])
  {
    hide Reachable, Linked, BooksBalance, GuardsCount, InboxLinked, ObjectsExact, LegalCombination;
    ReachableInv(s);
  }

  // ---- Settlement out of time.

  lemma BooksMatch(s: Ledger, w: WindowKey)
    requires BooksBalance(s) && w in s.windows
    ensures Matches(s.windows[w], WindowTotal(s, w))
  {
  }

  lemma OutOfTimeMismatch(r: Row, r': Row, w: Window, t: Tally, actual: Cost, success: bool, backend: string)
    requires Legal(r) && r.reservation != Reserved && r.reservation != Reconciled && Matches(w, t)
    requires r' == ReconciledRow(r, actual, success, backend)
    ensures Shifted(w, Settle(w, r.admission.reserved, actual), Share(r), Share(r')) <==>
            r.reservation == InDoubt && r.admission.reserved.objects == 0
    ensures Matches(Settle(w, r.admission.reserved, actual), t.Minus(Share(r)).Plus(Share(r'))) <==>
            r.reservation == InDoubt && r.admission.reserved.objects == 0
    ensures r.reservation == InDoubt ==> !Legal(r')
  {
  }

  /** A committed settlement of an UNKNOWN or RELEASED reservation breaks the ledger, and its books unless no object
      was held. */
  lemma SettledOutOfTime(s: Ledger, id: Uuid, actual: Cost, success: bool, backend: string)
    requires Inv(s) && id in s.rows && !Settleable(s, id)
    requires Reconcile(s, id, actual, success, backend).outcome.Done?
    ensures var s' := Reconcile(s, id, actual, success, backend).db;
            !Inv(s') &&
            (BooksBalance(s') <==> s.rows[id].reservation == InDoubt && s.rows[id].admission.reserved.objects == 0)
  {
    hide Linked, GuardsCount, InboxLinked, ObjectsExact, Legal, Matches, BooksBalance, Shifted;
    var s' := Reconcile(s, id, actual, success, backend).db;
    var r, r', w0 := s.rows[id], s'.rows[id], s.rows[id].admission.window;
    RowFacts(s, id);
    BooksMatch(s, w0);
    WindowTotalMoves(s.rows, id, r', w0);
    OutOfTimeMismatch(r, r', s.windows[w0], WindowTotal(s, w0), actual, success, backend);
    if BooksBalance(s') {
      BooksMatch(s', w0);
    }
    if r.reservation == InDoubt && r.admission.reserved.objects == 0 {
      WindowsFollow(s, s', id, r', s'.windows[w0]);
    }
  }

  /** The guards that make a settlement roll back, read off before the call. */
  predicate SettlementRejected(s: Ledger, id: Uuid, actual: Cost, backend: string) {
    id in s.rows && s.rows[id].reservation != Reconciled ==>
      var r := s.rows[id];
      var w := Lookup(s.windows, r.admission.window, EMPTY_WINDOW);
      || actual.objects < 0 || actual.objects > r.admission.reserved.objects
      || w.heldObjects < r.admission.reserved.objects || w.usedObjects + actual.objects < 0
      || (r.backend.None? && backend in s.requests)
  }

  /** Settlement keeps the invariant exactly when it rolls back or finds the reservation RESERVED or RECONCILED. */
  lemma ReconcileExactly(s: Ledger, id: Uuid, actual: Cost, success: bool, backend: string)
    requires Inv(s)
    ensures Inv(Reconcile(s, id, actual, success, backend).db) <==>
            SettlementRejected(s, id, actual, backend) || Settleable(s, id)
  {
    hide Inv;
    if Settleable(s, id) {
      ReconcileKeepsInv(s, id, actual, success, backend);
    } else if !SettlementRejected(s, id, actual, backend) {
      SettledOutOfTime(s, id, actual, success, backend);
    }
  }

  /** When a settlement rewrites an attempt that is already closed: only a FAILED one whose reservation was released
      or is still UNKNOWN after rejected evidence, and exactly when no guard of the settlement refuses it. */
  lemma ClosedIsRewrittenExactly(s: Ledger, id: Uuid, actual: Cost, success: bool, backend: string)
    requires Inv(s) && id in s.rows && (s.rows[id].state == Succeeded || s.rows[id].state == Failed)
    ensures var r, s' := s.rows[id], Reconcile(s, id, actual, success, backend).db;
            && (s' != s <==> !SettlementRejected(s, id, actual, backend))
            && (s' != s ==>
                  && s'.rows == s.rows[id := ReconciledRow(r, actual, success, backend)]
                  && r.state == Failed && (r.reservation == Released || (r.reservation == InDoubt && r.debt.Active?)))
  {
    hide Inv, Lookup;
    RowFacts(s, id);
    var t := Reconcile(s, id, actual, success, backend);
    if SettlementRejected(s, id, actual, backend) {
      assert t.db == s;
    } else {
      assert t.db.rows[id].lock == s.rows[id].lock + 1;
    }
  }

  // ---- Guards.

  function Members(rows: map<Uuid, Row>, g: GroupKey): set<Uuid> {
    set id | id in rows && rows[id].admission.group == g
  }

  function OpenMembers(rows: map<Uuid, Row>, g: GroupKey): set<Uuid> {
    set id | id in rows && rows[id].admission.group == g && Open(rows[id])
  }

  lemma CountInGroup(rows: map<Uuid, Row>, g: GroupKey)
    ensures Sum(rows, GroupShare(g)).open == |OpenMembers(rows, g)|
    ensures Sum(rows, GroupShare(g)).admitted == |Members(rows, g)|
  {
    var f := GroupShare(g);
    forall id | id in rows
      ensures f(rows[id]).open == if rows[id].admission.group == g && Open(rows[id]) then 1 else 0
      ensures f(rows[id]).admitted == if rows[id].admission.group == g then 1 else 0
    {
    }
    SumCounts(rows, f);
    assert OpenKeys(rows, f) == OpenMembers(rows, g);
    assert AdmittedKeys(rows, f) == Members(rows, g);
  }

  /** What every run keeps of a group's guard, whether or not its row exists yet. */
  lemma GuardInEveryRun(manifests: set<string>, ops: seq<Op>, g: GroupKey)
    ensures var s := Run(Fresh(manifests), ops);
            var guard := Lookup(s.guards, g, NEW_GUARD);
            && guard.blocking >= |OpenMembers(s.rows, g)| && guard.equivalent == |Members(s.rows, g)| && !guard.blocked
  {
    hide Run, Indexed, PlainRows, Spent, OpenMembers, Members, Sum;
    var s := Run(Fresh(manifests), ops);
    FreshKept(manifests);
    RunKeeps(Fresh(manifests), ops);
    assert Guarded(GuardFor(s, g), GroupTotal(s, g));
    CountInGroup(s.rows, g);
  }

  /** In every run a guard counts every admission to its group, is never marked blocked, and blocks for at least the
      attempts whose uncertainty is open: for exactly those while settlements are on time. */
  lemma GuardsCountAttempts(manifests: set<string>, ops: seq<Op>, g: GroupKey)
    requires g in Run(Fresh(manifests), ops).guards
    ensures var s := Run(Fresh(manifests), ops);
            && s.guards[g].equivalent == |Members(s.rows, g)| && !s.guards[g].blocked
            && s.guards[g].blocking >= |OpenMembers(s.rows, g)|
            && (OnTimeRun(Fresh(manifests), ops) ==> s.guards[g].blocking == |OpenMembers(s.rows, g)|)
  {
    hide Run, OnTimeRun, RowsLegal, Linked, BooksBalance, InboxLinked, ObjectsExact, OpenMembers, Members, Sum;
    GuardInEveryRun(manifests, ops, g);
    if OnTimeRun(Fresh(manifests), ops) {
      FreshInv(manifests);
      RunKeepsInv(Fresh(manifests), ops);
      assert GuardCounts(Run(Fresh(manifests), ops), g);
      CountInGroup(Run(Fresh(manifests), ops).rows, g);
    }
  }

  /** After any run, a new attempt is admitted only into a group with no open uncertainty, and stays below the request's
      threshold. */
  lemma AdmissionIsGuarded(manifests: set<string>, ops: seq<Op>, q: AdmissionRequest, now: int, spare: Uuid)
    requires var t := Reserve(Run(Fresh(manifests), ops), q, now, spare); t.outcome.Done? && !t.outcome.value.replay
    ensures var s := Run(Fresh(manifests), ops);
            var t := Reserve(s, q, now, spare);
            && t.outcome.value.attemptId in t.db.rows
            && var g := t.db.rows[t.outcome.value.attemptId].admission.group;
               OpenMembers(s.rows, g) == {} && |Members(t.db.rows, g)| < q.threshold
  {
    hide Run, OpenMembers, Members, Exceeds, AdmissionWindowBudget, WindowTotal;
    var s := Run(Fresh(manifests), ops);
    var t := Reserve(s, q, now, spare);
    var id := t.outcome.value.attemptId;
    var r := t.db.rows[id];
    GuardInEveryRun(manifests, ops, r.admission.group);
    MembersGrow(s.rows, id, r);
  }

  lemma MembersGrow(rows: map<Uuid, Row>, id: Uuid, r: Row)
    requires id !in rows
    ensures |Members(rows[id := r], r.admission.group)| == |Members(rows, r.admission.group)| + 1
  {
    assert Members(rows[id := r], r.admission.group) == Members(rows, r.admission.group) + {id};
  }

  /** The debt cache never drifts: in a state any run reaches, repair changes nothing. */
  lemma RepairNeverNeeded(manifests: set<string>, ops: seq<Op>, ws: seq<WindowKey>)
    ensures RepairDebtCaches(Run(Fresh(manifests), ops), ws) == Run(Fresh(manifests), ops)
  {
    hide Run, Indexed, Tracked, RepairDebtCaches;
    FreshKept(manifests);
    RunKeeps(Fresh(manifests), ops);
    RepairIdle(Run(Fresh(manifests), ops), ws);
  }

  // ---- Control windows.

  /** In every governed run a control window stays within 24 calls, 2400 objects counting debt, and 12 MiB plus one
      byte per over-limit reply, each of which is a used call; while settlements are on time there are at most 24. */
  lemma ControlCaps(manifests: set<string>, ops: seq<Op>, w: WindowKey)
    requires (forall m :: m in manifests ==> |m| == 64) && GovernedRun(Fresh(manifests), ops)
    requires IsControl(w) && w in Run(Fresh(manifests), ops).windows
    ensures var s := Run(Fresh(manifests), ops);
            && CountersWithinCaps(s, w)
            && (OnTimeRun(Fresh(manifests), ops) ==> WindowTotal(s, w).overruns <= 24)
  {
    hide Inv, Indexed, Tracked, Governs, OnTimeRun, GovernedRun, Run, IsControl, CountersWithinCaps, WindowTotal;
    FreshKept(manifests);
    FreshGoverns(manifests);
    RunKeeps(Fresh(manifests), ops);
    RunGoverns(Fresh(manifests), ops);
    GovernedCounters(Run(Fresh(manifests), ops), w);
    if OnTimeRun(Fresh(manifests), ops) {
      FreshInv(manifests);
      RunKeepsInv(Fresh(manifests), ops);
      FewOverruns(Run(Fresh(manifests), ops), w);
    }
  }
}
