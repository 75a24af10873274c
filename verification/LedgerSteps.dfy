/** Every ledger transaction keeps the invariant; settlement does so exactly when the reservation is still open or
    done. */
module LedgerSteps {
  import opened Options
  import opened Tallies
  import opened Ledger
  import opened LedgerInvariant

  lemma FreshInv(manifests: set<string>)
    ensures Inv(Fresh(manifests))
  {
  }

  lemma SameUpdate<K, V>(m: map<K, V>, k: K)
    requires k in m
    ensures m[k := m[k]] == m
  {
  }

  lemma RowFacts(s: Ledger, id: Uuid)
    requires Inv(s) && id in s.rows
    ensures RowLinked(s, id) && Legal(s.rows[id])
    ensures s.windows[s.rows[id].admission.window := s.windows[s.rows[id].admission.window]] == s.windows
    ensures s.guards[s.rows[id].admission.group := s.guards[s.rows[id].admission.group]] == s.guards
    ensures RequestsAfter(s, id, s.rows[id]) == s.requests
  {
    hide BooksBalance, GuardsCount, InboxLinked, ObjectsExact, LegalCombination;
    assert RowLinked(s, id);
    SameUpdate(s.windows, s.rows[id].admission.window);
    SameUpdate(s.guards, s.rows[id].admission.group);
    if s.rows[id].backend.Some? {
      SameUpdate(s.requests, s.rows[id].backend.value);
    }
  }

  /** A change of one row that leaves its shares alone. */
  lemma QuietMove(s: Ledger, s': Ledger, id: Uuid, r': Row)
    requires Inv(s) && id in s.rows && Legal(r') && r'.admission == s.rows[id].admission
    requires BackendKept(s, s.rows[id], r')
    requires s.rows[id].revision == 0 && !r'.debt.Resolved? && !s.rows[id].debt.Resolved?
    requires Share(r') == Share(s.rows[id])
    requires s' == s.(rows := s.rows[id := r'], requests := RequestsAfter(s, id, r'))
    ensures Inv(s')
  {
    hide Inv;
    var w, g := r'.admission.window, r'.admission.group;
    RowFacts(s, id);
    MoveKeepsInv(s, s', id, r', s.windows[w], s.guards[g]);
  }

  lemma DispatchKeepsInv(s: Ledger, id: Uuid, backend: string, lease: int, expected: int, now: int)
    requires Inv(s)
    ensures Inv(Dispatch(s, id, backend, lease, expected, now).db)
  {
    hide Inv;
    var t := Dispatch(s, id, backend, lease, expected, now);
    if t.outcome.Done? {
      RowFacts(s, id);
      QuietMove(s, t.db, id, DispatchedRow(s.rows[id], backend, now + lease));
    }
  }

  /** The rows a settlement may find: still RESERVED, or already RECONCILED. */
  predicate Settleable(s: Ledger, id: Uuid) {
    id in s.rows && (s.rows[id].reservation == Reserved || s.rows[id].reservation == Reconciled)
  }

  lemma ReconcileKeepsInv(s: Ledger, id: Uuid, actual: Cost, success: bool, backend: string)
    requires Inv(s) && Settleable(s, id)
    ensures Inv(Reconcile(s, id, actual, success, backend).db)
  {
    hide Inv;
    var t := Reconcile(s, id, actual, success, backend);
    var r := s.rows[id];
    RowFacts(s, id);
    if t.db != s {
      var r' := ReconciledRow(r, actual, success, backend);
      var g := r.admission.group;
      MoveKeepsInv(s, t.db, id, r', t.db.windows[r.admission.window], s.guards[g]);
    }
  }

  lemma ExpireAdmissionKeepsInv(s: Ledger, id: Uuid)
    requires Inv(s)
    ensures Inv(ExpireAdmission(s, id))
  {
    hide Inv;
    var s' := ExpireAdmission(s, id);
    if s' != s {
      var r := s.rows[id];
      RowFacts(s, id);
      var g := r.admission.group;
      MoveKeepsInv(s, s', id, ExpiredRow(r), s'.windows[r.admission.window], s.guards[g]);
    }
  }

  lemma MarkStaleKeepsInv(s: Ledger, id: Uuid, now: int)
    requires Inv(s)
    ensures Inv(MarkStale(s, id, now))
  {
    hide Inv;
    var s' := MarkStale(s, id, now);
    if id in s.rows && LeaseExpired(s.rows[id], now) {
      var r := s.rows[id];
      RowFacts(s, id);
      var g := r.admission.group;
      MoveKeepsInv(s, s', id, StaleRow(r, now), s'.windows[r.admission.window], s'.guards[g]);
    }
  }

  lemma ClaimKeepsInv(s: Ledger, id: Uuid, worker: string, now: int, lease: int)
    requires Inv(s)
    ensures Inv(ClaimRecovery(s, id, worker, now, lease))
  {
    hide Inv;
    var s' := ClaimRecovery(s, id, worker, now, lease);
    if id in s.rows && Claimable(s.rows[id], now) {
      var r := s.rows[id];
      RowFacts(s, id);
      QuietMove(s, s', id, s'.rows[id]);
    }
  }

  lemma OwnerSettleKeepsInv(s: Ledger, id: Uuid, e: OwnerEvidence)
    requires Inv(s) && id in s.rows && s.rows[id].state == Unknown && s.rows[id].admission.reserved.objects == 0
    requires e.outcome != OwnerUnknown
    ensures Inv(OwnerSettle(s, id, e))
  {
    hide Inv;
    var s', r := OwnerSettle(s, id, e), s.rows[id];
    RowFacts(s, id);
    MoveKeepsInv(s, s', id, OwnerSettledRow(r, e), s'.windows[r.admission.window], s'.guards[r.admission.group]);
  }

  lemma OwnerEvidenceKeepsInv(s: Ledger, id: Uuid, worker: string, e: OwnerEvidence)
    requires Inv(s)
    ensures Inv(ApplyOwnerEvidence(s, id, worker, e).db)
  {
    hide Inv, OwnerSettle;
    var t := ApplyOwnerEvidence(s, id, worker, e);
    if t.outcome.Done? && s.rows[id].state == Unknown {
      RowFacts(s, id);
      if e.outcome == OwnerUnknown {
        QuietMove(s, t.db, id, s.rows[id].(recovery := None));
      } else {
        OwnerSettleKeepsInv(s, id, e);
      }
    }
  }

  lemma ExpireUnknownKeepsInv(s: Ledger, id: Uuid)
    requires Inv(s)
    ensures Inv(ExpireUnknownOne(s, id))
  {
    hide Inv;
    var s' := ExpireUnknownOne(s, id);
    if id in s.rows && s.rows[id].state == Unknown && s.rows[id].reservation == InDoubt {
      var r := s.rows[id];
      RowFacts(s, id);
      var g := r.admission.group;
      MoveKeepsInv(s, s', id, UnresolvedRow(r), s'.windows[r.admission.window], s.guards[g]);
    }
  }

  // ---- Non-negative totals.

  lemma ShareNonNegative(r: Row)
    requires Legal(r)
    ensures NonNegative(Share(r))
  {
  }

  /** No window total or group total is negative, and each covers every one of its rows. */
  lemma TotalsCover(s: Ledger, w: WindowKey, g: GroupKey)
    requires Inv(s)
    ensures NonNegative(WindowTotal(s, w)) && NonNegative(GroupTotal(s, g))
    ensures forall id :: id in s.rows && s.rows[id].admission.window == w ==>
              NonNegative(WindowTotal(s, w).Minus(Share(s.rows[id])))
    ensures forall id :: id in s.rows && s.rows[id].admission.group == g ==>
              NonNegative(GroupTotal(s, g).Minus(Share(s.rows[id])))
  {
    hide Inv, NonNegative, Legal, Share;
    forall id | id in s.rows
      ensures NonNegative(WindowShare(w)(s.rows[id])) && NonNegative(GroupShare(g)(s.rows[id]))
    {
      RowFacts(s, id);
      ShareNonNegative(s.rows[id]);
      ZeroNonNegative();
    }
    SumNonNegative(s.rows, WindowShare(w));
    SumNonNegative(s.rows, GroupShare(g));
    forall id | id in s.rows && s.rows[id].admission.window == w
      ensures NonNegative(WindowTotal(s, w).Minus(Share(s.rows[id])))
    {
      SumCovers(s.rows, WindowShare(w), id);
    }
    forall id | id in s.rows && s.rows[id].admission.group == g
      ensures NonNegative(GroupTotal(s, g).Minus(Share(s.rows[id])))
    {
      SumCovers(s.rows, GroupShare(g), id);
    }
  }

  lemma ZeroNonNegative()
    ensures NonNegative(ZERO)
  {
  }

  // ---- Admission.

  lemma UnknownScopesAreEmpty(s: Ledger, w: WindowKey, g: GroupKey)
    requires Inv(s)
    ensures w !in s.windows ==> WindowTotal(s, w) == ZERO && AdjustedObjects(s, w) == 0
    ensures g !in s.guards ==> GroupTotal(s, g) == ZERO
  {
    hide BooksBalance, GuardsCount, InboxLinked, LegalCombination;
    if w !in s.windows {
      forall id | id in s.rows
        ensures WindowShare(w)(s.rows[id]) == ZERO
      {
        assert RowLinked(s, id);
      }
      SumZero(s.rows, WindowShare(w));
      SumZero(s.adjustments, AdjustmentShare(w));
    }
    if g !in s.guards {
      forall id | id in s.rows
        ensures GroupShare(g)(s.rows[id]) == ZERO
      {
        assert RowLinked(s, id);
      }
      SumZero(s.rows, GroupShare(g));
    }
  }

  lemma PlusZero(t: Tally)
    ensures t.Plus(ZERO) == t
  {
  }

  lemma AdmitTotals(s: Ledger, id: Uuid, r: Row, w: WindowKey, g: GroupKey)
    requires id !in s.rows
    ensures WindowTotal(Admit(s, id, r), w) ==
            if r.admission.window == w then WindowTotal(s, w).Plus(Share(r)) else WindowTotal(s, w)
    ensures GroupTotal(Admit(s, id, r), g) ==
            if r.admission.group == g then GroupTotal(s, g).Plus(Share(r)) else GroupTotal(s, g)
  {
    SumInsert(s.rows, WindowShare(w), id, r);
    SumInsert(s.rows, GroupShare(g), id, r);
    PlusZero(WindowTotal(s, w));
    PlusZero(GroupTotal(s, g));
  }

  lemma HoldMatches(w: Window, t: Tally, r: Row)
    requires Matches(w, t)
    requires r.reservation == Reserved && r.actual == NO_COST && r.debt == NoDebt
    ensures Matches(Hold(w, r.admission.reserved), t.Plus(Share(r)))
  {
  }

  lemma AdmitKeepsBooks(s: Ledger, id: Uuid, r: Row)
    requires BooksBalance(s) && id !in s.rows
    requires r.reservation == Reserved && r.actual == NO_COST && r.debt == NoDebt
    requires r.admission.window !in s.windows ==> WindowTotal(s, r.admission.window) == ZERO
    ensures BooksBalance(Admit(s, id, r))
  {
    var s', w0 := Admit(s, id, r), r.admission.window;
    forall w | w in s'.windows
      ensures Matches(s'.windows[w], WindowTotal(s', w))
    {
      AdmitTotals(s, id, r, w, r.admission.group);
      if w == w0 {
        HoldMatches(Lookup(s.windows, w, EMPTY_WINDOW), WindowTotal(s, w), r);
      } else {
        assert w in s.windows && s'.windows[w] == s.windows[w];
      }
    }
  }

  lemma AdmittedMarks(r: Row)
    requires r.state == Admitted
    ensures Share(r).open == 0 && Share(r).admitted == 1
  {
  }

  lemma AdmitKeepsGuards(s: Ledger, id: Uuid, r: Row)
    requires GuardsCount(s) && id !in s.rows && r.state == Admitted
    requires r.admission.group !in s.guards ==> GroupTotal(s, r.admission.group) == ZERO
    ensures GuardsCount(Admit(s, id, r))
  {
    hide Sum, Hold, Share;
    var s', g0 := Admit(s, id, r), r.admission.group;
    AdmittedMarks(r);
    forall g | g in s'.guards
      ensures GuardCounts(s', g)
    {
      AdmitTotals(s, id, r, r.admission.window, g);
      if g != g0 {
        assert g in s.guards && s'.guards[g] == s.guards[g] && GuardCounts(s, g);
      } else if g in s.guards {
        assert GuardCounts(s, g);
      }
    }
  }

  lemma AdmitKeepsRowLinks(s: Ledger, id: Uuid, r: Row)
    requires RowsLinked(s) && id !in s.rows && r.admission.claim !in s.claims && r.admission.claim.attempt !in s.keys
    requires r.backend == None
    ensures RowsLinked(Admit(s, id, r))
  {
    var s' := Admit(s, id, r);
    forall j | j in s'.rows
      ensures RowLinked(s', j)
    {
      if j != id {
        assert RowLinked(s, j);
      }
    }
  }

  lemma AdmitKeepsClaims(s: Ledger, id: Uuid, r: Row)
    requires ClaimsLinked(s) && id !in s.rows
    ensures ClaimsLinked(Admit(s, id, r))
  {
    var s' := Admit(s, id, r);
    forall k | k in s'.claims
      ensures s'.claims[k] in s'.rows && s'.rows[s'.claims[k]].admission.claim == k
    {
      if k != r.admission.claim {
        assert s'.claims[k] == s.claims[k];
      }
    }
    forall k | k in s'.keys
      ensures s'.keys[k] in s'.rows && s'.rows[s'.keys[k]].admission.claim.attempt == k
    {
      if k != r.admission.claim.attempt {
        assert s'.keys[k] == s.keys[k];
      }
    }
  }

  lemma AdmitKeepsLinks(s: Ledger, id: Uuid, r: Row)
    requires Linked(s) && id !in s.rows && r.admission.claim !in s.claims && r.admission.claim.attempt !in s.keys
    requires r.backend == None
    ensures Linked(Admit(s, id, r))
  {
    hide RowsLinked, ClaimsLinked;
    AdmitKeepsRowLinks(s, id, r);
    AdmitKeepsClaims(s, id, r);
  }

  lemma AdmitKeepsInbox(s: Ledger, id: Uuid, r: Row)
    requires InboxLinked(s) && id !in s.rows && r.debt == NoDebt
    ensures InboxLinked(Admit(s, id, r))
  {
    hide Hold, Lookup;
    var s' := Admit(s, id, r);
    forall ref | ref in s'.inbox
      ensures EvidenceLinked(s', ref)
    {
      assert EvidenceLinked(s, ref);
    }
    forall ref | ref in s'.adjustments
      ensures AdjustmentLinked(s', ref)
    {
      assert AdjustmentLinked(s, ref);
    }
  }

  lemma AdmitKeepsObjects(s: Ledger, id: Uuid, r: Row)
    requires ObjectsExact(s)
    requires r.admission.window !in s.windows ==> AdjustedObjects(s, r.admission.window) == 0
    ensures ObjectsExact(Admit(s, id, r))
  {
    var s' := Admit(s, id, r);
    forall w | w in s'.windows
      ensures AdjustedObjects(s', w) == |s'.windows[w].objects|
    {
      assert AdjustedObjects(s, w) == |Lookup(s.windows, w, EMPTY_WINDOW).objects|;
    }
  }

  lemma AdmitKeepsInv(s: Ledger, id: Uuid, r: Row)
    requires Inv(s) && id !in s.rows && r.admission.claim !in s.claims && r.admission.claim.attempt !in s.keys
    requires Legal(r) && r.state == Admitted
    ensures Inv(Admit(s, id, r))
  {
    hide BooksBalance, GuardsCount, Linked, InboxLinked, ObjectsExact;
    UnknownScopesAreEmpty(s, r.admission.window, r.admission.group);
    AdmitKeepsBooks(s, id, r);
    AdmitKeepsGuards(s, id, r);
    AdmitKeepsLinks(s, id, r);
    AdmitKeepsInbox(s, id, r);
    AdmitKeepsObjects(s, id, r);
  }

  lemma ReserveKeepsInv(s: Ledger, q: AdmissionRequest, now: int, spare: Uuid)
    requires Inv(s)
    ensures Inv(Reserve(s, q, now, spare).db)
  {
    hide Inv, Exceeds, WindowTotal, AdmissionWindowBudget;
    var t := Reserve(s, q, now, spare);
    if t.outcome.Done? && !t.outcome.value.replay {
      var id := t.outcome.value.attemptId;
      AdmitKeepsInv(s, id, t.db.rows[id]);
    }
  }

  // ---- Evidence.

  lemma InsertEvidenceKeepsInbox(s: Ledger, s': Ledger, ref: EvidenceRef)
    requires InboxLinked(s) && RequestsLinked(s) && ref !in s.inbox && ref.request in s.requests
    requires ref in s'.inbox && s' == s.(inbox := s.inbox[ref := s'.inbox[ref]])
    requires var e := s'.inbox[ref];
             e.state == Verified && WellFormedReport(e.report) && e.attempt == s.requests[ref.request] &&
             e.attempt in s.rows &&
             s.rows[e.attempt].admission.window == e.window && s.rows[e.attempt].admission.claim.owner == ref.owner
    ensures InboxLinked(s')
  {
    forall j | j in s'.inbox
      ensures EvidenceLinked(s', j)
    {
      if j != ref {
        assert EvidenceLinked(s, j);
      }
    }
    forall j | j in s'.adjustments
      ensures AdjustmentLinked(s', j)
    {
      assert AdjustmentLinked(s, j);
    }
  }

  lemma BooksSame(s: Ledger, s': Ledger)
    requires s'.rows == s.rows && s'.windows == s.windows && s'.guards == s.guards
    requires BooksBalance(s) && GuardsCount(s) && RowsLegal(s)
    ensures BooksBalance(s') && GuardsCount(s') && RowsLegal(s')
  {
    forall w | w in s'.windows ensures Matches(s'.windows[w], WindowTotal(s', w)) {
      assert Matches(s.windows[w], WindowTotal(s, w));
    }
    forall g | g in s'.guards ensures GuardCounts(s', g) {
      assert GuardCounts(s, g);
    }
  }

  lemma LinksSame(s: Ledger, s': Ledger)
    requires s' == s.(inbox := s'.inbox, incidents := s'.incidents, audit := s'.audit)
    requires Linked(s) && ObjectsExact(s)
    ensures Linked(s') && ObjectsExact(s')
  {
    forall id | id in s'.rows ensures RowLinked(s', id) {
      assert RowLinked(s, id);
    }
    forall w | w in s'.windows ensures AdjustedObjects(s', w) == |s'.windows[w].objects| {
      assert AdjustedObjects(s, w) == |s.windows[w].objects|;
    }
  }

  /** What does not mention inbox, incidents or audit is kept when only those change. */
  lemma FiledKeepsRest(s: Ledger, s': Ledger)
    requires Inv(s) && InboxLinked(s')
    requires s' == s.(inbox := s'.inbox, incidents := s'.incidents, audit := s'.audit)
    ensures Inv(s')
  {
    hide InboxLinked, RowsLegal, Linked, ObjectsExact, BooksBalance, GuardsCount;
    BooksSame(s, s');
    LinksSame(s, s');
  }

  lemma EvidenceInv(s: Ledger)
    requires Inv(s)
    ensures InboxLinked(s) && RequestsLinked(s)
  {
    hide InboxLinked, RowsLegal, RequestsLinked, ObjectsExact, BooksBalance, GuardsCount;
  }

  lemma InsertEvidenceKeepsInv(s: Ledger, ref: EvidenceRef, report: Report)
    requires Inv(s)
    ensures Inv(InsertVerifiedEvidence(s, ref, report).db)
  {
    hide Inv, InboxLinked, RequestsLinked;
    EvidenceInv(s);
    var s' := InsertVerifiedEvidence(s, ref, report).db;
    if s' != s {
      InsertEvidenceKeepsInbox(s, s', ref);
      FiledKeepsRest(s, s');
    }
  }

  // ---- Late compensation.

  /** An attempt has at most one filed report: owner and request id determine its reference. */
  lemma OneReportPerAttempt(s: Ledger, a: EvidenceRef, b: EvidenceRef)
    requires InboxLinked(s) && a in s.inbox && b in s.inbox && s.inbox[a].attempt == s.inbox[b].attempt
    ensures a == b
  {
    assert EvidenceLinked(s, a) && EvidenceLinked(s, b);
  }

  /** Closing an attempt with its own report, as violation or as accepted evidence, keeps the inbox consistent. */
  lemma ClosedKeepsEvidence(s: Ledger, s': Ledger, id: Uuid, ref: EvidenceRef, r': Row)
    requires InboxLinked(s) && id in s.rows && ref in s.inbox && s.inbox[ref].attempt == id
    requires s.inbox[ref].state == Verified && !s.rows[id].debt.Resolved?
    requires r'.admission == s.rows[id].admission && r'.backend == s.rows[id].backend && r'.revision == 1
    requires s'.rows == s.rows[id := r'] && ref in s'.inbox && s'.inbox == s.inbox[ref := s'.inbox[ref]]
    requires s'.inbox[ref] == s.inbox[ref].(state := s'.inbox[ref].state)
    requires (s'.inbox[ref].state == Quarantined && r'.state == Failed && r'.debt.Active?) ||
             (s'.inbox[ref].state == Consumed && r'.debt.Resolved? && r'.debt.evidence == ref)
    ensures forall j :: j in s'.inbox ==> EvidenceLinked(s', j)
  {
    forall j | j in s'.inbox
      ensures EvidenceLinked(s', j)
    {
      assert EvidenceLinked(s, j);
      if j != ref && s.inbox[j].attempt == id {
        OneReportPerAttempt(s, j, ref);
      }
    }
  }

  lemma ViolatedKeepsAdjustments(s: Ledger, s': Ledger, id: Uuid, ref: EvidenceRef, r': Row)
    requires InboxLinked(s) && id in s.rows && ref in s.inbox && s.inbox[ref].attempt == id
    requires s.inbox[ref].state == Verified && !r'.debt.Resolved? && !s.rows[id].debt.Resolved?
    requires r'.admission == s.rows[id].admission
    requires s'.rows == s.rows[id := r'] && ref in s'.inbox && s'.inbox == s.inbox[ref := s'.inbox[ref]]
    requires s'.adjustments == s.adjustments
    requires forall j :: j in s'.inbox ==> EvidenceLinked(s', j)
    ensures InboxLinked(s')
  {
    hide EvidenceLinked;
    forall j | j in s'.adjustments
      ensures AdjustmentLinked(s', j)
    {
      assert AdjustmentLinked(s, j) && j != ref;
    }
  }

  lemma ViolationKeepsInv(s: Ledger, id: Uuid, ref: EvidenceRef, why: Category)
    requires Inv(s) && id in s.rows && ref in s.inbox && s.inbox[ref].attempt == id && s.inbox[ref].state == Verified
    requires (s.rows[id].state == Unknown || s.rows[id].state == Unresolved) && s.rows[id].debt.Active?
    ensures Inv(Violate(s, id, ref, why))
  {
    hide Inv, InboxLinked, Linked, BooksBalance, GuardsCount, ObjectsExact, RowsLegal, EvidenceLinked;
    var s' := Violate(s, id, ref, why);
    var r, r' := s.rows[id], s'.rows[id];
    RowFacts(s, id);
    EvidenceInv(s);
    ClosedKeepsEvidence(s, s', id, ref, r');
    ViolatedKeepsAdjustments(s, s', id, ref, r');
    ClosedKeepsRest(s, s', id, r', s.windows[r.admission.window], s.guards[r.admission.group]);
    LinksSameObjects(s, s');
    InvHolds(s');
  }

  lemma LinksSameObjects(s: Ledger, s': Ledger)
    requires Inv(s) && s'.windows == s.windows && s'.adjustments == s.adjustments
    ensures ObjectsExact(s')
  {
    hide InboxLinked, Linked, BooksBalance, GuardsCount, RowsLegal;
    forall w | w in s'.windows ensures AdjustedObjects(s', w) == |s'.windows[w].objects| {
      assert AdjustedObjects(s, w) == |s.windows[w].objects|;
    }
  }

  lemma InvHolds(s: Ledger)
    requires RowsLegal(s) && Linked(s) && BooksBalance(s) && GuardsCount(s) && InboxLinked(s) && ObjectsExact(s)
    ensures Inv(s)
  {
  }

  /** Rows, books, guards and references after closing an attempt. */
  lemma ClosedKeepsRest(s: Ledger, s': Ledger, id: Uuid, r': Row, w': Window, g': Guard)
    requires Inv(s) && id in s.rows && Legal(r') && r'.admission == s.rows[id].admission
    requires r'.backend == s.rows[id].backend
    requires r'.admission.window in s.windows && r'.admission.group in s.guards
    requires Shifted(s.windows[r'.admission.window], w', Share(s.rows[id]), Share(r'))
    requires GuardShifted(s.guards[r'.admission.group], g', Share(s.rows[id]), Share(r'))
    requires RequestsAfter(s, id, r') == s.requests
    requires s'.rows == s.rows[id := r'] && s'.windows == s.windows[r'.admission.window := w']
    requires s'.guards == s.guards[r'.admission.group := g']
    requires s'.claims == s.claims && s'.keys == s.keys && s'.requests == s.requests
    ensures RowsLegal(s') && Linked(s') && BooksBalance(s') && GuardsCount(s')
  {
    hide Linked, BooksBalance, GuardsCount, InboxLinked, ObjectsExact;
    WindowsFollow(s, s', id, r', w');
    GuardsFollow(s, s', id, r', g');
    LinksFollow(s, s', id, r');
  }

  predicate Acceptable(s: Ledger, id: Uuid, ref: EvidenceRef) {
    && id in s.rows && ref in s.inbox && ref !in s.adjustments
    && s.inbox[ref].attempt == id && s.inbox[ref].state == Verified
    && s.rows[id].debt.Active?
    && (s.rows[id].state == Unresolved ||
        (s.rows[id].state == Unknown && s.inbox[ref].report.kind == OwnerProvesNoDispatch))
  }

  lemma UnionSize<T>(a: set<T>, b: set<T>)
    ensures |a + b| == |a| + |b - a|
  {
    assert a + b == a + (b - a);
    assert a !! (b - a);
  }

  lemma UncertainFacts(r: Row)
    requires Legal(r) && r.debt.Active? && (r.state == Unknown || r.state == Unresolved)
    ensures r.revision == 0 && r.backend.Some? && r.debt.amount == r.admission.reserved.objects
  {
  }

  lemma AcceptedRowLegal(r: Row, ref: EvidenceRef, e: Report, w: Window)
    requires Legal(r) && WellFormedReport(e) && r.debt.Active?
    requires r.state == Unresolved || (r.state == Unknown && e.kind == OwnerProvesNoDispatch)
    ensures Legal(CompensatedRow(r, ref, e))
    ensures Shifted(w, CompensatedWindow(w, r, e), Share(r), Share(CompensatedRow(r, ref, e)))
  {
    UnionSize(w.objects, set h | h in e.hashes);
  }

  lemma AcceptedKeepsAdjustments(s: Ledger, s': Ledger, id: Uuid, ref: EvidenceRef)
    requires InboxLinked(s) && id in s.rows && s.rows[id].debt.Active? && id in s'.rows
    requires s.rows[id].admission == s'.rows[id].admission &&
             s.rows[id].debt.amount == s.rows[id].admission.reserved.objects
    requires ref in s.inbox && ref !in s.adjustments && s.inbox[ref].attempt == id
    requires s'.rows == s.rows[id := s'.rows[id]] && s'.rows[id].debt.Resolved? && s'.rows[id].debt.evidence == ref
    requires s'.inbox == s.inbox[ref := s.inbox[ref].(state := Consumed)]
    requires ref in s'.adjustments && s'.adjustments == s.adjustments[ref := s'.adjustments[ref]]
    requires s'.adjustments[ref] ==
             Adjustment(s.inbox[ref].window, id, 0, s'.adjustments[ref].delta, -s.rows[id].debt.amount)
    requires s'.adjustments[ref].delta >= 0
    requires forall j :: j in s'.inbox ==> EvidenceLinked(s', j)
    ensures InboxLinked(s')
  {
    hide EvidenceLinked;
    forall j | j in s'.adjustments
      ensures AdjustmentLinked(s', j)
    {
      if j != ref {
        assert AdjustmentLinked(s, j);
      }
    }
    forall k | k in s'.rows && s'.rows[k].debt.Resolved?
      ensures s'.rows[k].debt.evidence in s'.adjustments && s'.adjustments[s'.rows[k].debt.evidence].attempt == k
    {
      if k != id {
        assert s'.rows[k] == s.rows[k];
      }
    }
  }

  lemma AcceptedKeepsObjects(s: Ledger, s': Ledger, w0: WindowKey, w': Window, ref: EvidenceRef, added: set<string>)
    requires ObjectsExact(s) && w0 in s.windows && ref !in s.adjustments && ref in s'.adjustments
    requires s'.windows == s.windows[w0 := w'] && w'.objects == s.windows[w0].objects + added
    requires s'.adjustments == s.adjustments[ref := s'.adjustments[ref]]
    requires s'.adjustments[ref].window == w0 && s'.adjustments[ref].delta == |added - s.windows[w0].objects|
    ensures ObjectsExact(s')
  {
    hide Sum;
    forall w | w in s'.windows
      ensures AdjustedObjects(s', w) == |s'.windows[w].objects|
    {
      SumInsert(s.adjustments, AdjustmentShare(w), ref, s'.adjustments[ref]);
      UnionSize(s.windows[w0].objects, added);
      assert AdjustedObjects(s, w) == |s.windows[w].objects|;
      if w != w0 {
        assert s'.windows[w] == s.windows[w];
      }
    }
  }

  lemma EvidenceWindow(s: Ledger, ref: EvidenceRef)
    requires ref in s.inbox && EvidenceLinked(s, ref)
    ensures s.inbox[ref].attempt in s.rows && s.inbox[ref].window == s.rows[s.inbox[ref].attempt].admission.window
  {
  }

  lemma AcceptKeepsInbox(s: Ledger, id: Uuid, ref: EvidenceRef)
    requires Inv(s) && Acceptable(s, id, ref)
    ensures InboxLinked(Compensate(s, id, ref))
  {
    hide Inv, InboxLinked, Legal, CompensatedWindow, Block, Share, EvidenceLinked, RequestsLinked, ObjectsExact;
    var s' := Compensate(s, id, ref);
    RowFacts(s, id);
    EvidenceInv(s);
    EvidenceFacts(s, ref);
    assert s.inbox[ref].window == s.rows[id].admission.window by { EvidenceWindow(s, ref); }
    UncertainFacts(s.rows[id]);
    ClosedKeepsEvidence(s, s', id, ref, s'.rows[id]);
    AcceptedKeepsAdjustments(s, s', id, ref);
  }

  lemma AcceptKeepsRest(s: Ledger, id: Uuid, ref: EvidenceRef)
    requires Inv(s) && Acceptable(s, id, ref)
    ensures var s' := Compensate(s, id, ref);
            RowsLegal(s') && Linked(s') && BooksBalance(s') && GuardsCount(s') && ObjectsExact(s')
  {
    hide Inv, InboxLinked, Linked, BooksBalance, GuardsCount, ObjectsExact, RowsLegal, Shifted, Legal;
    var s' := Compensate(s, id, ref);
    var r, r', e := s.rows[id], s'.rows[id], s.inbox[ref];
    var w0, w' := r.admission.window, s'.windows[r.admission.window];
    RowFacts(s, id);
    EvidenceFacts(s, ref);
    AcceptedRowLegal(r, ref, e.report, s.windows[w0]);
    ClosedKeepsRest(s, s', id, r', w', s'.guards[r.admission.group]);
    AcceptedKeepsObjects(s, s', w0, w', ref, set h | h in e.report.hashes);
  }

  lemma AcceptKeepsInv(s: Ledger, id: Uuid, ref: EvidenceRef)
    requires Inv(s) && Acceptable(s, id, ref)
    ensures Inv(Compensate(s, id, ref))
  {
    hide Inv, InboxLinked, Linked, BooksBalance, GuardsCount, ObjectsExact, RowsLegal, Compensate;
    AcceptKeepsInbox(s, id, ref);
    AcceptKeepsRest(s, id, ref);
    InvHolds(Compensate(s, id, ref));
  }

  lemma EvidenceFacts(s: Ledger, ref: EvidenceRef)
    requires Inv(s) && ref in s.inbox
    ensures EvidenceLinked(s, ref) && ObjectsExact(s)
  {
    hide Linked, BooksBalance, GuardsCount, ObjectsExact, RowsLegal;
  }

  lemma AdjudicationKeepsInv(s: Ledger, id: Uuid, ref: EvidenceRef)
    requires Inv(s) && id in s.rows && ref in s.inbox && s.rows[id].debt.Active? && s.rows[id].backend.Some?
    requires (s.rows[id].state == Unknown || s.rows[id].state == Unresolved) && s.inbox[ref].state == Verified
    ensures Inv(Adjudicate(s, id, ref).db)
    ensures Adjudicate(s, id, ref).outcome != Done(RejectedBinding)
  {
    hide Inv, InboxLinked, RequestsLinked, Violation, Violate, Compensate, ObjectsExact;
    var t := Adjudicate(s, id, ref);
    EvidenceInv(s);
    EvidenceFacts(s, ref);
    if t.outcome == Done(RejectedScope) {
      ScopeKeepsInbox(s, t.db);
      FiledKeepsRest(s, t.db);
    } else if t.outcome == Done(CommittedDomainViolation) {
      ViolationKeepsInv(s, id, ref, CryptoViolation);
      ViolationKeepsInv(s, id, ref, ContractViolation);
    } else if t.outcome == Done(Compensated) {
      AcceptKeepsInv(s, id, ref);
    }
  }

  /** Compensation keeps the invariant; the binding a report was filed under still holds, so that rejection is never
      taken. */
  lemma LateCompensateKeepsInv(s: Ledger, id: Uuid, ref: EvidenceRef, expected: int)
    requires Inv(s)
    ensures Inv(LateCompensate(s, id, ref, expected).db)
    ensures LateCompensate(s, id, ref, expected).outcome != Done(RejectedBinding)
  {
    hide Inv, Adjudicate;
    if ref in s.inbox && id in s.rows && s.rows[id].debt.Active? && s.rows[id].backend.Some? &&
       (s.rows[id].state == Unknown || s.rows[id].state == Unresolved) && s.inbox[ref].state == Verified {
      AdjudicationKeepsInv(s, id, ref);
    }
  }

  lemma ScopeKeepsInbox(s: Ledger, s': Ledger)
    requires InboxLinked(s) && s' == s.(incidents := s'.incidents)
    ensures InboxLinked(s')
  {
    forall j | j in s'.inbox ensures EvidenceLinked(s', j) {
      assert EvidenceLinked(s, j);
    }
    forall j | j in s'.adjustments ensures AdjustmentLinked(s', j) {
      assert AdjustmentLinked(s, j);
    }
  }

  /** In a reachable ledger every debt cache is already exact, so repair changes nothing. */
  lemma RepairIsIdle(s: Ledger, w: WindowKey)
    requires Inv(s)
    ensures RepairDebtCache(s, w) == s
  {
    hide InboxLinked, Linked, GuardsCount, ObjectsExact, RowsLegal;
  }
}
