/** The inductive invariant of the ledger, and its preservation by every transaction. */
module LedgerInvariant {
  import opened Options
  import opened Tallies
  import opened Ledger

  // ---- Rows.

  /** Exactly one ACTIVE debt of the reserved objects, or none when no object was reserved. */
  predicate OwesReservation(r: Row) {
    r.debt == if r.admission.reserved.objects > 0 then Active(r.admission.reserved.objects) else NoDebt
  }

  /** The table of legal attempt, dispatch, reservation, claim, debt and revision combinations. */
  predicate LegalCombination(r: Row) {
    match r.state
    case Admitted =>
      r.dispatch == NotDispatched && r.reservation == Reserved && r.claimState == Bound && r.debt == NoDebt &&
      r.revision == 0 && r.lock == 0 && r.backend == None
    case Running =>
      r.dispatch == Dispatched && r.reservation == Reserved && r.claimState == Bound && r.debt == NoDebt &&
      r.revision == 0 && r.backend.Some?
    case Unknown =>
      r.dispatch == DispatchUnknown && r.reservation == InDoubt && r.claimState == ClaimUnknown && OwesReservation(r) &&
      r.revision == 0 && r.backend.Some?
    case Unresolved =>
      r.dispatch == DispatchUnknown && r.reservation == Reconciled && r.claimState == Completed && OwesReservation(r) &&
      r.revision == 0 && r.backend.Some? && r.actual == r.admission.reserved.(objects := 0)
    case Succeeded =>
      r.reservation == Reconciled && r.dispatch == Acknowledged &&
      match r.debt {
        case NoDebt => r.revision == 0 && r.claimState != ClaimUnknown
        case Resolved(n, _) => r.revision == 1 && r.claimState == Completed && n == r.admission.reserved.objects > 0
        case Active(_) => false
      }
    case Failed =>
      match r.debt {
        case NoDebt =>
          r.revision == 0 &&
          ((r.reservation == Reconciled && r.dispatch == Acknowledged && r.claimState != ClaimUnknown) ||
           (r.reservation == Released && r.dispatch == NotDispatched && r.claimState == Completed))
        case Active(n) =>
          r.revision == 1 && r.dispatch == Acknowledged && n == r.admission.reserved.objects > 0 &&
          ((r.reservation == InDoubt && r.claimState == ClaimUnknown) ||
           (r.reservation == Reconciled && r.claimState == Completed))
        case Resolved(n, _) =>
          r.revision == 1 && r.claimState == Completed && n == r.admission.reserved.objects > 0 &&
          ((r.reservation == Released && r.dispatch == NotDispatched) ||
           (r.reservation == Reconciled && (r.dispatch == Acknowledged || r.dispatch == NotDispatched)))
      }
  }

  predicate Legal(r: Row) {
    && LegalCombination(r)
    && (r.state == Running <==> r.lease.Some?)
    && r.admission.group.window == r.admission.window
    && r.admission.reserved.calls >= 1 && r.admission.reserved.objects >= 0
    && 0 <= r.actual.objects <= r.admission.reserved.objects
    && (r.reservation != Reconciled ==> r.actual == NO_COST)
    && (r.debt != NoDebt ==> r.actual.objects == 0)
  }

  predicate RowsLegal(s: Ledger) {
    forall id :: id in s.rows ==> Legal(s.rows[id])
  }

  // ---- References between tables.

  predicate RowLinked(s: Ledger, id: Uuid)
    requires id in s.rows
  {
    var r := s.rows[id];
    && r.admission.window in s.windows && r.admission.group in s.guards
    && r.admission.claim in s.claims && s.claims[r.admission.claim] == id
    && r.admission.claim.attempt in s.keys && s.keys[r.admission.claim.attempt] == id
    && (r.backend.Some? ==> r.backend.value in s.requests && s.requests[r.backend.value] == id)
  }

  predicate RowsLinked(s: Ledger) {
    forall id :: id in s.rows ==> RowLinked(s, id)
  }

  predicate ClaimsLinked(s: Ledger) {
    && (forall k :: k in s.claims ==> s.claims[k] in s.rows && s.rows[s.claims[k]].admission.claim == k)
    && (forall k :: k in s.keys ==> s.keys[k] in s.rows && s.rows[s.keys[k]].admission.claim.attempt == k)
  }

  predicate RequestsLinked(s: Ledger) {
    forall b :: b in s.requests ==> s.requests[b] in s.rows && s.rows[s.requests[b]].backend == Some(b)
  }

  predicate Linked(s: Ledger) {
    RowsLinked(s) && ClaimsLinked(s) && RequestsLinked(s)
  }

  // ---- Conservation.

  /** A window's counters say what its rows add up to; compensated objects are those in its hash set. */
  predicate Matches(w: Window, t: Tally) {
    && w.heldCalls == t.heldCalls && w.heldBytes == t.heldBytes && w.heldObjects == t.heldObjects
    && w.usedCalls == t.usedCalls && w.usedBytes == t.usedBytes && w.usedObjects == t.usedObjects + |w.objects|
    && w.debtCache == t.debt
  }

  ghost predicate BooksBalance(s: Ledger) {
    forall w :: w in s.windows ==> Matches(s.windows[w], WindowTotal(s, w))
  }

  /** The guard counts open uncertainty and committed admissions; the blocked flag is never committed. */
  ghost predicate GuardCounts(s: Ledger, g: GroupKey)
    requires g in s.guards
  {
    && s.guards[g].blocking == GroupTotal(s, g).open
    && s.guards[g].equivalent == GroupTotal(s, g).admitted
    && !s.guards[g].blocked
  }

  ghost predicate GuardsCount(s: Ledger) {
    forall g :: g in s.guards ==> GuardCounts(s, g)
  }

  // ---- Evidence.

  /** Filed evidence names its own attempt, and its state says how that attempt was closed. */
  predicate EvidenceLinked(s: Ledger, ref: EvidenceRef)
    requires ref in s.inbox
  {
    var e := s.inbox[ref];
    && WellFormedReport(e.report)
    && e.attempt in s.rows
    && var r := s.rows[e.attempt];
       && r.backend == Some(ref.request) && r.admission.claim.owner == ref.owner && r.admission.window == e.window
       && (e.state == Consumed ==> r.revision == 1 && r.debt.Resolved? && r.debt.evidence == ref)
       && (e.state == Quarantined ==> r.revision == 1 && r.state == Failed && r.debt.Active?)
  }

  predicate AdjustmentLinked(s: Ledger, ref: EvidenceRef)
    requires ref in s.adjustments
  {
    var a := s.adjustments[ref];
    && ref in s.inbox && s.inbox[ref].state == Consumed && s.inbox[ref].attempt == a.attempt &&
       s.inbox[ref].window == a.window
    && a.prior == 0 && a.delta >= 0
    && a.attempt in s.rows && a.debtDelta == -s.rows[a.attempt].admission.reserved.objects
  }

  predicate InboxLinked(s: Ledger) {
    && (forall ref :: ref in s.inbox ==> EvidenceLinked(s, ref))
    && (forall ref :: ref in s.adjustments ==> AdjustmentLinked(s, ref))
    && (forall id :: id in s.rows && s.rows[id].debt.Resolved? ==>
          s.rows[id].debt.evidence in s.adjustments && s.adjustments[s.rows[id].debt.evidence].attempt == id)
  }

  /** Adjustment deltas of a window add up to the size of its exact hash set. */
  ghost predicate ObjectsExact(s: Ledger) {
    && (forall w :: w in s.windows ==> AdjustedObjects(s, w) == |s.windows[w].objects|)
    && (forall ref :: ref in s.adjustments ==> s.adjustments[ref].window in s.windows)
  }

  ghost predicate Inv(s: Ledger) {
    RowsLegal(s) && Linked(s) && BooksBalance(s) && GuardsCount(s) && InboxLinked(s) && ObjectsExact(s)
  }

  // ---- One row changes.

  predicate Shifted(w: Window, w': Window, a: Tally, b: Tally) {
    && w'.heldCalls == w.heldCalls - a.heldCalls + b.heldCalls
    && w'.heldBytes == w.heldBytes - a.heldBytes + b.heldBytes
    && w'.heldObjects == w.heldObjects - a.heldObjects + b.heldObjects
    && w'.usedCalls == w.usedCalls - a.usedCalls + b.usedCalls
    && w'.usedBytes == w.usedBytes - a.usedBytes + b.usedBytes
    && w'.usedObjects - |w'.objects| == w.usedObjects - |w.objects| - a.usedObjects + b.usedObjects
    && w'.debtCache == w.debtCache - a.debt + b.debt
  }

  predicate GuardShifted(g: Guard, g': Guard, a: Tally, b: Tally) {
    g'.blocking == g.blocking - a.open + b.open && g'.equivalent == g.equivalent && g'.blocked == g.blocked
  }

  lemma MinusPlusZero(t: Tally)
    ensures t.Minus(ZERO).Plus(ZERO) == t
  {
  }

  lemma WindowTotalMoves(rows: map<Uuid, Row>, id: Uuid, r': Row, w: WindowKey)
    requires id in rows && r'.admission == rows[id].admission
    ensures Sum(rows[id := r'], WindowShare(w)) ==
            if r'.admission.window == w then Sum(rows, WindowShare(w)).Minus(Share(rows[id])).Plus(Share(r'))
            else Sum(rows, WindowShare(w))
  {
    SumReplace(rows, WindowShare(w), id, r');
    MinusPlusZero(Sum(rows, WindowShare(w)));
  }

  lemma GroupTotalMoves(rows: map<Uuid, Row>, id: Uuid, r': Row, g: GroupKey)
    requires id in rows && r'.admission == rows[id].admission
    ensures Sum(rows[id := r'], GroupShare(g)) ==
            if r'.admission.group == g then Sum(rows, GroupShare(g)).Minus(Share(rows[id])).Plus(Share(r'))
            else Sum(rows, GroupShare(g))
  {
    SumReplace(rows, GroupShare(g), id, r');
    MinusPlusZero(Sum(rows, GroupShare(g)));
  }

  lemma ShiftMatches(w: Window, w': Window, t: Tally, a: Tally, b: Tally)
    requires Matches(w, t) && Shifted(w, w', a, b)
    ensures Matches(w', t.Minus(a).Plus(b))
  {
  }

  /** Window books that follow one row stay balanced. */
  lemma WindowsFollow(s: Ledger, s': Ledger, id: Uuid, r': Row, w': Window)
    requires BooksBalance(s) && id in s.rows && r'.admission == s.rows[id].admission
    requires r'.admission.window in s.windows
    requires s'.rows == s.rows[id := r'] && s'.windows == s.windows[r'.admission.window := w']
    requires Shifted(s.windows[r'.admission.window], w', Share(s.rows[id]), Share(r'))
    ensures BooksBalance(s')
  {
    forall w | w in s'.windows
      ensures Matches(s'.windows[w], WindowTotal(s', w))
    {
      WindowTotalMoves(s.rows, id, r', w);
      if w == r'.admission.window {
        ShiftMatches(s.windows[w], w', WindowTotal(s, w), Share(s.rows[id]), Share(r'));
      } else {
        assert w in s.windows && s'.windows[w] == s.windows[w];
      }
    }
  }

  /** Guards that follow one row stay exact. */
  lemma GuardsFollow(s: Ledger, s': Ledger, id: Uuid, r': Row, g': Guard)
    requires GuardsCount(s) && id in s.rows && r'.admission == s.rows[id].admission
    requires r'.admission.group in s.guards
    requires s'.rows == s.rows[id := r'] && s'.guards == s.guards[r'.admission.group := g']
    requires GuardShifted(s.guards[r'.admission.group], g', Share(s.rows[id]), Share(r'))
    ensures GuardsCount(s')
  {
    hide Sum;
    forall g | g in s'.guards
      ensures GuardCounts(s', g)
    {
      GroupTotalMoves(s.rows, id, r', g);
      assert g in s.guards && GuardCounts(s, g);
      if g != r'.admission.group {
        assert s'.guards[g] == s.guards[g];
      } else {
        assert s'.guards[g] == g';
      }
    }
  }

  /** A row keeps the request id it was dispatched under; a first one must be unused. */
  predicate BackendKept(s: Ledger, r: Row, r': Row) {
    if r.backend.Some? then r'.backend == r.backend else r'.backend.Some? ==> r'.backend.value !in s.requests
  }

  function RequestsAfter(s: Ledger, id: Uuid, r': Row): map<string, Uuid> {
    if r'.backend.Some? then s.requests[r'.backend.value := id] else s.requests
  }

  predicate LinksMove(s: Ledger, s': Ledger, id: Uuid, r': Row) {
    && id in s.rows && r'.admission == s.rows[id].admission && BackendKept(s, s.rows[id], r')
    && s'.rows == s.rows[id := r'] && s'.claims == s.claims && s'.keys == s.keys
    && s'.requests == RequestsAfter(s, id, r')
    && s.windows.Keys <= s'.windows.Keys && s.guards.Keys <= s'.guards.Keys
  }

  lemma RowsLinkedFollow(s: Ledger, s': Ledger, id: Uuid, r': Row)
    requires RowsLinked(s) && RequestsLinked(s) && LinksMove(s, s', id, r')
    ensures RowsLinked(s')
  {
    forall j | j in s'.rows
      ensures RowLinked(s', j)
    {
      assert RowLinked(s, j);
    }
  }

  lemma RequestsLinkedFollow(s: Ledger, s': Ledger, id: Uuid, r': Row)
    requires RequestsLinked(s) && LinksMove(s, s', id, r')
    ensures RequestsLinked(s')
  {
    forall b | b in s'.requests
      ensures s'.requests[b] in s'.rows && s'.rows[s'.requests[b]].backend == Some(b)
    {
      if r'.backend != Some(b) {
        assert b in s.requests && s'.requests[b] == s.requests[b];
      }
    }
  }

  lemma ClaimsLinkedFollow(s: Ledger, s': Ledger, id: Uuid, r': Row)
    requires ClaimsLinked(s) && LinksMove(s, s', id, r')
    ensures ClaimsLinked(s')
  {
  }

  lemma LinksFollow(s: Ledger, s': Ledger, id: Uuid, r': Row)
    requires Linked(s) && LinksMove(s, s', id, r')
    ensures Linked(s')
  {
    hide RowsLinked, ClaimsLinked, RequestsLinked, LinksMove;
    RowsLinkedFollow(s, s', id, r');
    RequestsLinkedFollow(s, s', id, r');
    ClaimsLinkedFollow(s, s', id, r');
  }

  /** While an attempt is not yet revised, its filed evidence is still VERIFIED and stays so. */
  lemma InboxFollows(s: Ledger, s': Ledger, id: Uuid, r': Row)
    requires InboxLinked(s) && id in s.rows && r'.admission == s.rows[id].admission && BackendKept(s, s.rows[id], r')
    requires s.rows[id].revision == 0 && !r'.debt.Resolved? && !s.rows[id].debt.Resolved?
    requires s'.rows == s.rows[id := r'] && s'.inbox == s.inbox && s'.adjustments == s.adjustments
    ensures InboxLinked(s')
  {
    forall ref | ref in s'.inbox
      ensures EvidenceLinked(s', ref)
    {
      assert EvidenceLinked(s, ref);
    }
    forall ref | ref in s'.adjustments
      ensures AdjustmentLinked(s', ref)
    {
      assert AdjustmentLinked(s, ref);
    }
  }

  lemma ObjectsFollow(s: Ledger, s': Ledger, w0: WindowKey, w': Window)
    requires ObjectsExact(s) && w0 in s.windows && w'.objects == s.windows[w0].objects
    requires s'.windows == s.windows[w0 := w'] && s'.adjustments == s.adjustments
    ensures ObjectsExact(s')
  {
    forall w | w in s'.windows
      ensures AdjustedObjects(s', w) == |s'.windows[w].objects|
    {
      assert AdjustedObjects(s, w) == |s.windows[w].objects|;
    }
  }

  /** A legal row change whose books follow it keeps the whole invariant. */
  lemma MoveKeepsInv(s: Ledger, s': Ledger, id: Uuid, r': Row, w': Window, g': Guard)
    requires Inv(s) && id in s.rows && Legal(r') && r'.admission == s.rows[id].admission
    requires BackendKept(s, s.rows[id], r')
    requires s.rows[id].revision == 0 && !r'.debt.Resolved? && !s.rows[id].debt.Resolved?
    requires r'.admission.window in s.windows && r'.admission.group in s.guards
    requires Shifted(s.windows[r'.admission.window], w', Share(s.rows[id]), Share(r'))
    requires w'.objects == s.windows[r'.admission.window].objects
    requires GuardShifted(s.guards[r'.admission.group], g', Share(s.rows[id]), Share(r'))
    requires s' == s.(rows := s.rows[id := r'], windows := s.windows[r'.admission.window := w'],
                      guards := s.guards[r'.admission.group := g'],
                      requests := RequestsAfter(s, id, r'), audit := s'.audit)
    ensures Inv(s')
  {
    hide Linked, BooksBalance, GuardsCount, InboxLinked, ObjectsExact;
    WindowsFollow(s, s', id, r', w');
    GuardsFollow(s, s', id, r', g');
    LinksFollow(s, s', id, r');
    InboxFollows(s, s', id, r');
    ObjectsFollow(s, s', r'.admission.window, w');
  }
}
