/** The finite caps of operational-control windows, kept by every transaction of a governed caller. */
module ControlBudget {
  import opened Options
  import opened Tallies
  import opened Ledger
  import opened LedgerInvariant
  import opened LedgerSteps
  import opened LedgerRuns
  import opened LedgerTracks

  /** A window of the control profile: a manifest checksum followed by the profile name. */
  predicate IsControl(w: WindowKey) {
    |w.policy| > 64 && w.policy[64..] == ":" + CONTROL_PROFILE
  }

  const MAX_BYTES := 12 * 1024 * 1024

  /** The caps on a window's stored counters, given its ACTIVE debt and the number of its over-limit replies. */
  predicate WithinCaps(b: Window, t: Tally) {
    && b.heldCalls + b.usedCalls <= 24
    && b.heldObjects + b.usedObjects + t.debt <= 2400
    && b.heldBytes + b.usedBytes <= MAX_BYTES + t.overruns
  }

  ghost predicate CapsHold(s: Ledger) {
    forall w: WindowKey :: IsControl(w) ==> WithinCaps(BooksOf(s, w), WindowTotal(s, w))
  }

  predicate ControlRow(r: Row) {
    IsControl(r.admission.window) ==> ControlCost(r.admission.reserved) && Thrifty(r)
  }

  predicate ControlRows(s: Ledger) {
    forall id :: id in s.rows ==> ControlRow(s.rows[id])
  }

  predicate ChecksumManifests(s: Ledger) {
    forall m :: m in s.manifests ==> |m| == 64
  }

  ghost predicate Governs(s: Ledger) {
    ControlRows(s) && ChecksumManifests(s) && CapsHold(s)
  }

  /** What the governed caller reports: one call, and at most one byte beyond a positive reserved reply size. */
  predicate GovernedReply(s: Ledger, op: Op) {
    op.OpReconcile? && op.id in s.rows && s.rows[op.id].admission.reserved.bytes >= 1 ==>
      op.actual.calls == 1 && op.actual.bytes <= s.rows[op.id].admission.reserved.bytes + 1
  }

  ghost predicate GovernedRun(s: Ledger, ops: seq<Op>) {
    forall k :: 0 <= k < |ops| ==> GovernedReply(Run(s, ops[..k]), ops[k])
  }

  // ---- One row changes.

  lemma CapsMove(s: Ledger, s': Ledger, id: Uuid, w: WindowKey)
    requires Moves(s, s', id) && ControlRow(s'.rows[id]) && IsControl(w)
    requires WithinCaps(BooksOf(s, w), WindowTotal(s, w))
    ensures WithinCaps(BooksOf(s', w), WindowTotal(s', w))
  {
    hide Plain, WindowTracks, GuardTracks, BooksOf, GuardFor, Sum, AdjustedObjects, IsControl, Open, ControlCost,
      Thrifty;
    WindowTotalMoves(s.rows, id, s'.rows[id], w);
  }

  lemma RowsMove(s: Ledger, s': Ledger, id: Uuid)
    requires Moves(s, s', id) && ControlRow(s'.rows[id]) && ControlRows(s)
    ensures ControlRows(s') && s'.manifests == s.manifests
  {
    hide ControlRow, RowMoves;
  }

  lemma MovesKeepGoverns(s: Ledger, s': Ledger, id: Uuid)
    requires Governs(s) && Moves(s, s', id) && ControlRow(s'.rows[id])
    ensures Governs(s')
  {
    hide ControlRow, ControlRows, Moves, IsControl, WithinCaps, BooksOf, WindowTotal;
    RowsMove(s, s', id);
    forall w: WindowKey | IsControl(w) ensures WithinCaps(BooksOf(s', w), WindowTotal(s', w)) {
      CapsMove(s, s', id, w);
    }
  }

  lemma IdleKeepsGoverns(s: Ledger, s': Ledger)
    requires Governs(s) && Idle(s, s')
    ensures Governs(s')
  {
    hide ControlRow, IsControl, WithinCaps, BooksOf, WindowTotal;
    forall w: WindowKey | IsControl(w) ensures WithinCaps(BooksOf(s', w), WindowTotal(s', w)) {
      IdleTotals(s, s', w, GroupKey(w, "", "", ""));
    }
  }

  lemma ModestRow(s: Ledger, s': Ledger, id: Uuid)
    requires ControlRows(s) && Moves(s, s', id) && Modest(s.rows[id], s'.rows[id])
    ensures ControlRow(s'.rows[id])
  {
    hide IsControl, ControlCost, Thrifty, RowMoves;
    assert ControlRow(s.rows[id]);
  }

  lemma StepsKeepGoverns(s: Ledger, s': Ledger, id: Uuid)
    requires Governs(s) && Steps(s, s', id)
    ensures Governs(s')
  {
    hide ControlRow, ControlRows, CapsHold, Moves, Modest;
    if Idle(s, s') {
      IdleKeepsGoverns(s, s');
    } else {
      ModestRow(s, s', id);
      MovesKeepGoverns(s, s', id);
    }
  }

  lemma GovernedRow(s: Ledger, op: Op)
    requires ControlRows(s) && op.OpReconcile? && op.id in s.rows && GovernedReply(s, op)
    ensures ControlRow(ReconciledRow(s.rows[op.id], op.actual, op.success, op.backend))
  {
    hide IsControl;
    assert ControlRow(s.rows[op.id]);
  }

  lemma SettlementKeepsGoverns(s: Ledger, op: Op)
    requires Tracked(s) && Governs(s) && op.OpReconcile? && GovernedReply(s, op)
    ensures Governs(Apply(s, op))
  {
    hide Tracked, ControlRow, ControlRows, CapsHold, Moves, Reconcile, GovernedReply;
    ReconcileMoves(s, op.id, op.actual, op.success, op.backend);
    if Idle(s, Apply(s, op)) {
      IdleKeepsGoverns(s, Apply(s, op));
    } else {
      TouchedRow(s, Apply(s, op), op.id);
      GovernedRow(s, op);
      MovesKeepGoverns(s, Apply(s, op), op.id);
    }
  }

  lemma TouchedRow(s: Ledger, s': Ledger, id: Uuid)
    requires Moves(s, s', id)
    ensures id in s.rows
  {
  }

  // ---- Admission.

  /** A control window is only ever fed by the control profile: a bare checksum is too short to name one. */
  lemma ControlRequest(q: AdmissionRequest, now: int)
    requires q.window > 0 && AdmissionWindowBudget(q).Some? && |q.manifest| == 64
    requires IsControl(WindowOf(q, now))
    ensures ControlCost(q.maximum) && AdmissionWindowBudget(q).value.cap == Cost(24, MAX_BYTES, 2400)
  {
  }

  lemma AdmittedWithinCaps(b: Window, t: Tally, r: Row)
    requires WithinCaps(b, t) && ControlCost(r.admission.reserved) && t.overruns >= 0
    requires !Exceeds(b, t.debt, r.admission.reserved, Cost(24, MAX_BYTES, 2400))
    requires r.reservation == Reserved && r.actual == NO_COST && r.debt == NoDebt
    ensures WithinCaps(Hold(b, r.admission.reserved), t.Plus(Share(r)))
  {
  }

  lemma {:induction false} OverrunsCounted(rows: map<Uuid, Row>, w: WindowKey)
    ensures Sum(rows, WindowShare(w)).overruns >= 0
    decreases |rows|
  {
    hide Sum, Open;
    if rows == map[] {
      SumEmpty(rows, WindowShare(w));
    } else {
      var k :| k in rows;
      SumTakeOut(rows, WindowShare(w), k);
      OverrunsCounted(rows - {k}, w);
    }
  }

  lemma AdmitKeepsCaps(s: Ledger, id: Uuid, r: Row)
    requires CapsHold(s) && id !in s.rows
    requires r.reservation == Reserved && r.actual == NO_COST && r.debt == NoDebt
    requires var w := r.admission.window;
             IsControl(w) ==>
               && ControlCost(r.admission.reserved)
               && !Exceeds(BooksOf(s, w), WindowTotal(s, w).debt, r.admission.reserved, Cost(24, MAX_BYTES, 2400))
    ensures CapsHold(Admit(s, id, r))
  {
    hide IsControl, WithinCaps, Exceeds, Share, Sum, Hold, ControlCost;
    var s' := Admit(s, id, r);
    forall w: WindowKey | IsControl(w) ensures WithinCaps(BooksOf(s', w), WindowTotal(s', w)) {
      AdmitTotals(s, id, r, w, r.admission.group);
      assert WithinCaps(BooksOf(s, w), WindowTotal(s, w));
      if w == r.admission.window {
        OverrunsCounted(s.rows, w);
        AdmittedWithinCaps(BooksOf(s, w), WindowTotal(s, w), r);
      }
    }
  }

  lemma NewRowThrifty(r: Row)
    requires r.actual == NO_COST && ControlCost(r.admission.reserved)
    ensures Thrifty(r)
  {
  }

  /** A new attempt of an admission: below the caps, unspent, and within the control profile if it names its window. */
  lemma AdmittedGoverns(s: Ledger, q: AdmissionRequest, now: int, id: Uuid)
    requires Governs(s) && q.window > 0 && AdmissionWindowBudget(q).Some? && InsertAccepted(s, q, id)
    requires !Exceeds(BooksOf(s, WindowOf(q, now)), WindowTotal(s, WindowOf(q, now)).debt, q.maximum,
                      AdmissionWindowBudget(q).value.cap)
    ensures Governs(Admit(s, id, NewRow(q, WindowOf(q, now), GroupOf(q, now), now)))
  {
    hide CapsHold, IsControl, Exceeds, ControlCost, AdmissionWindowBudget, WindowTotal, Thrifty, BooksOf, Admit,
      ControlRows, WindowOf, GroupOf;
    var r := NewRow(q, WindowOf(q, now), GroupOf(q, now), now);
    if IsControl(r.admission.window) {
      ControlRequest(q, now);
      NewRowThrifty(r);
    }
    AdmitKeepsCaps(s, id, r);
    AdmitKeepsRows(s, id, r);
  }

  lemma AdmitKeepsRows(s: Ledger, id: Uuid, r: Row)
    requires ControlRows(s) && ControlRow(r)
    ensures ControlRows(Admit(s, id, r)) && Admit(s, id, r).manifests == s.manifests
  {
    hide ControlRow, Hold, Lookup;
  }

  lemma FreshGoverns(manifests: set<string>)
    requires forall m :: m in manifests ==> |m| == 64
    ensures Governs(Fresh(manifests))
  {
  }

  // ---- What the caps say.

  lemma {:induction false} OverrunsWithinCalls(rows: map<Uuid, Row>, w: WindowKey)
    requires forall id :: id in rows && rows[id].admission.window == w ==> Thrifty(rows[id])
    ensures 0 <= Sum(rows, WindowShare(w)).overruns <= Sum(rows, WindowShare(w)).usedCalls
    decreases |rows|
  {
    hide Share, Thrifty, Sum;
    if rows == map[] {
      SumEmpty(rows, WindowShare(w));
    } else {
      var k :| k in rows;
      SumTakeOut(rows, WindowShare(w), k);
      OverrunsWithinCalls(rows - {k}, w);
      OverrunOfShare(rows[k], w);
    }
  }

  lemma OverrunOfShare(r: Row, w: WindowKey)
    requires r.admission.window == w ==> Thrifty(r)
    ensures 0 <= WindowShare(w)(r).overruns <= WindowShare(w)(r).usedCalls
  {
  }

  /** The stored counters of a control window: at most 24 calls, 2400 objects counting ACTIVE debt, and 12 MiB plus one
      byte per over-limit reply; every such reply is one of the used calls. */
  ghost predicate CountersWithinCaps(s: Ledger, w: WindowKey)
    requires w in s.windows
  {
    var b, t := s.windows[w], WindowTotal(s, w);
    && b.heldCalls + b.usedCalls <= 24
    && b.heldObjects + b.usedObjects + t.debt <= 2400
    && b.heldBytes + b.usedBytes <= MAX_BYTES + t.overruns
    && 0 <= t.overruns <= b.usedCalls
  }

  lemma GovernedCounters(s: Ledger, w: WindowKey)
    requires Tracked(s) && Governs(s) && IsControl(w) && w in s.windows
    ensures CountersWithinCaps(s, w)
  {
    hide IsControl, PlainRows, Guarded, Thrifty, ControlCost, Sum;
    OverrunsWithinCalls(s.rows, w);
    assert WithinCaps(BooksOf(s, w), WindowTotal(s, w));
    assert Spent(BooksOf(s, w), WindowTotal(s, w), AdjustedObjects(s, w));
  }

  /** While no reservation is settled twice the held calls cover their rows, so at most 24 replies overrun. */
  lemma FewOverruns(s: Ledger, w: WindowKey)
    requires Inv(s) && w in s.windows && CountersWithinCaps(s, w)
    ensures WindowTotal(s, w).overruns <= 24
  {
    hide RowsLegal, Linked, GuardsCount, InboxLinked, ObjectsExact;
    TotalsCover(s, w, GroupKey(w, "", "", ""));
    assert Matches(s.windows[w], WindowTotal(s, w));
  }
}
