/** The part of the books that every run keeps, whether or not its settlements are on time. */
module LedgerTracks {
  import opened Options
  import opened Tallies
  import opened Ledger
  import opened LedgerInvariant
  import opened LedgerSteps
  import opened LedgerIndex

  /** How far an attempt has come. */
  function Rank(s: AttemptState): nat {
    match s
    case Admitted => 0
    case Running => 1
    case Unknown => 2
    case Unresolved => 3
    case Succeeded => 4
    case Failed => 4
  }

  predicate Closed(r: Row) { r.state == Succeeded || r.state == Failed }

  /** What no transaction breaks in a row: an unsettled reservation has cost nothing yet, a live attempt still holds its
      reservation, an uncertain one owes its objects, debt is owed in the reserved amount, and only closed attempts are
      revised or have their debt resolved. */
  predicate Plain(r: Row) {
    && r.admission.reserved.objects >= 0 && r.revision <= 1 && (r.revision == 1 || r.debt.Resolved? ==> Closed(r))
    && (r.reservation != Reconciled ==> r.actual == NO_COST)
    && (r.state == Admitted ==> r.backend == None)
    && (r.state == Admitted || r.state == Running <==> r.reservation == Reserved)
    && (r.reservation == Reserved ==> r.debt == NoDebt)
    && (r.state == Unknown ==> r.reservation == InDoubt) && (r.reservation == Released ==> Closed(r))
    && (r.state == Unknown || r.state == Unresolved ==> OwesReservation(r))
    && (r.debt != NoDebt ==> r.debt.amount == r.admission.reserved.objects > 0)
    && (r.debt.Active? && r.reservation != Reconciled ==> Open(r))
  }

  /** A later version of the same attempt: its rank and revision never fall, debt only resolves and stays resolved, a
      settled cost is final, a closed attempt keeps its debt, and once it was settled too it never changes again. */
  predicate Endures(r: Row, r': Row) {
    && r'.admission == r.admission && Rank(r.state) <= Rank(r'.state) && r.revision <= r'.revision
    && (r.backend.Some? ==> r'.backend == r.backend)
    && (r.debt.Active? ==> r'.debt == r.debt || (r'.debt.Resolved? && r'.debt.amount == r.debt.amount))
    && (r.debt.Resolved? ==> r'.debt == r.debt)
    && (r.reservation == Reconciled ==> r'.reservation == Reconciled && r'.actual == r.actual)
    && (Closed(r) ==> r'.debt == r.debt && (r.reservation == Reconciled ==> r' == r))
  }

  /** Resolved debt is backed by consumed evidence of the attempt and an adjustment of the whole reservation. */
  predicate Backed(s: Ledger, id: Uuid)
    requires id in s.rows
  {
    s.rows[id].debt.Resolved? ==>
      var ref := s.rows[id].debt.evidence;
      && ref in s.inbox && s.inbox[ref].state == Consumed && s.inbox[ref].attempt == id
      && ref in s.adjustments && s.adjustments[ref].attempt == id
      && s.adjustments[ref].debtDelta == -s.rows[id].admission.reserved.objects
  }

  /** Judged evidence and adjustments are final. */
  predicate EvidenceStays(s: Ledger, s': Ledger) {
    && (forall ref :: ref in s.inbox && s.inbox[ref].state != Verified ==>
          ref in s'.inbox && s'.inbox[ref] == s.inbox[ref])
    && (forall ref :: ref in s.adjustments ==> ref in s'.adjustments && s'.adjustments[ref] == s.adjustments[ref])
  }

  predicate PlainRows(s: Ledger) { forall id :: id in s.rows ==> Plain(s.rows[id]) }

  function BooksOf(s: Ledger, w: WindowKey): Window { Lookup(s.windows, w, EMPTY_WINDOW) }

  function GuardFor(s: Ledger, g: GroupKey): Guard { Lookup(s.guards, g, NEW_GUARD) }

  /** What was spent, what compensation inserted and what is owed. */
  predicate Spent(b: Window, t: Tally, adjusted: int) {
    && b.usedCalls == t.usedCalls && b.usedBytes == t.usedBytes && b.usedObjects == t.usedObjects + |b.objects|
    && adjusted == |b.objects| && b.debtCache == t.debt
  }

  /** A late settlement closes an attempt without releasing its blocker, so the count may exceed the open attempts. */
  predicate Guarded(g: Guard, t: Tally) {
    g.blocking >= t.open && g.equivalent == t.admitted && !g.blocked
  }

  ghost predicate Tracked(s: Ledger) {
    && PlainRows(s) && (forall id :: id in s.rows ==> Backed(s, id))
    && (forall w: WindowKey :: Spent(BooksOf(s, w), WindowTotal(s, w), AdjustedObjects(s, w)))
    && (forall g: GroupKey :: Guarded(GuardFor(s, g), GroupTotal(s, g)))
  }

  // ---- One row changes.

  predicate WindowTracks(b: Window, b': Window, r: Row, r': Row) {
    && b'.usedCalls - b.usedCalls == r'.actual.calls - r.actual.calls
    && b'.usedBytes - b.usedBytes == r'.actual.bytes - r.actual.bytes
    && (b'.usedObjects - |b'.objects|) - (b.usedObjects - |b.objects|) == r'.actual.objects - r.actual.objects
    && b'.debtCache - b.debtCache == Share(r').debt - Share(r).debt
  }

  /** The calls a settlement takes back although their reservation was released before. */
  function TakenTwice(r: Row, r': Row): int {
    if r.reservation == Released && r'.reservation == Reconciled then r.admission.reserved.calls else 0
  }

  /** Held calls follow the reservation, except that settling a released one takes them back a second time. */
  predicate HoldTracks(b: Window, b': Window, r: Row, r': Row) {
    b'.heldCalls - b.heldCalls == Share(r').heldCalls - Share(r).heldCalls - TakenTwice(r, r')
  }

  predicate GuardTracks(g: Guard, g': Guard, r: Row, r': Row) {
    && g'.equivalent == g.equivalent && g'.blocked == g.blocked
    && g'.blocking - g.blocking >= Share(r').open - Share(r).open
  }

  /** Where a control call costs what it may, the change draws on no budget, counting an overrun byte as forgiven. */
  predicate Frugal(b: Window, b': Window, r: Row, r': Row) {
    ControlCost(r.admission.reserved) && Thrifty(r') ==>
      && b'.heldCalls + b'.usedCalls <= b.heldCalls + b.usedCalls
      && b'.heldObjects + b'.usedObjects + Share(r').debt <= b.heldObjects + b.usedObjects + Share(r).debt
      && b'.heldBytes + b'.usedBytes - Share(r').overruns <= b.heldBytes + b.usedBytes - Share(r).overruns
  }

  /** A change other than a settlement keeps a control call within its cost, and leaves closed attempts alone. */
  predicate Modest(r: Row, r': Row) {
    (ControlCost(r.admission.reserved) && Thrifty(r) ==> Thrifty(r')) && (Closed(r) ==> r' == r)
  }

  /** Only the row and counters of attempt `id` change, and debt is resolved only by evidence. */
  ghost predicate Touches(s: Ledger, s': Ledger, id: Uuid) {
    && id in s.rows && id in s'.rows && s'.rows == s.rows[id := s'.rows[id]]
    && s'.rows[id].admission == s.rows[id].admission && s'.manifests == s.manifests
    && EvidenceStays(s, s') && (s'.rows[id].debt != s.rows[id].debt ==> Backed(s', id))
    && (forall w: WindowKey :: w != s.rows[id].admission.window ==> BooksOf(s', w) == BooksOf(s, w))
    && (forall g: GroupKey :: g != s.rows[id].admission.group ==> GuardFor(s', g) == GuardFor(s, g))
    && (forall w: WindowKey ::
          AdjustedObjects(s', w) - AdjustedObjects(s, w) == |BooksOf(s', w).objects| - |BooksOf(s, w).objects|)
  }

  /** A row change that its window and guard follow. */
  predicate RowMoves(r: Row, r': Row, b: Window, b': Window, g: Guard, g': Guard) {
    && Plain(r') && Endures(r, r') && WindowTracks(b, b', r, r') && HoldTracks(b, b', r, r') && Frugal(b, b', r, r')
    && GuardTracks(g, g', r, r')
  }

  ghost predicate Moves(s: Ledger, s': Ledger, id: Uuid) {
    && Touches(s, s', id)
    && var w, g := s.rows[id].admission.window, s.rows[id].admission.group;
       RowMoves(s.rows[id], s'.rows[id], BooksOf(s, w), BooksOf(s', w), GuardFor(s, g), GuardFor(s', g))
  }

  /** Nothing that is counted changes. */
  predicate Idle(s: Ledger, s': Ledger) {
    && s'.rows == s.rows && s'.windows == s.windows && s'.guards == s.guards && s'.adjustments == s.adjustments
    && s'.manifests == s.manifests && EvidenceStays(s, s')
  }

  /** At most the attempt `id` moves, and it stays within its cost. */
  ghost predicate Steps(s: Ledger, s': Ledger, id: Uuid) {
    Idle(s, s') || (Moves(s, s', id) && Modest(s.rows[id], s'.rows[id]))
  }

  lemma SpentMoves(s: Ledger, s': Ledger, id: Uuid, w: WindowKey)
    requires Moves(s, s', id) && Spent(BooksOf(s, w), WindowTotal(s, w), AdjustedObjects(s, w))
    ensures Spent(BooksOf(s', w), WindowTotal(s', w), AdjustedObjects(s', w))
  {
    hide Plain, Endures, Backed, EvidenceStays, HoldTracks, GuardTracks, Frugal, BooksOf, Sum, AdjustedObjects,
      GuardFor, Open;
    WindowTotalMoves(s.rows, id, s'.rows[id], w);
  }

  /** How far the held calls of a window have fallen below what its reservations hold. */
  ghost function Gap(s: Ledger, w: WindowKey): int { WindowTotal(s, w).heldCalls - BooksOf(s, w).heldCalls }

  lemma GapMoves(s: Ledger, s': Ledger, id: Uuid, w: WindowKey)
    requires Moves(s, s', id)
    ensures Gap(s', w) ==
            Gap(s, w) + if s.rows[id].admission.window == w then TakenTwice(s.rows[id], s'.rows[id]) else 0
  {
    hide Plain, Endures, Backed, EvidenceStays, WindowTracks, GuardTracks, Frugal, BooksOf, Sum, AdjustedObjects,
      GuardFor, Open, TakenTwice;
    WindowTotalMoves(s.rows, id, s'.rows[id], w);
  }

  lemma GuardMoves(s: Ledger, s': Ledger, id: Uuid, g: GroupKey)
    requires Moves(s, s', id) && Guarded(GuardFor(s, g), GroupTotal(s, g))
    ensures Guarded(GuardFor(s', g), GroupTotal(s', g))
  {
    hide Plain, Endures, Backed, EvidenceStays, HoldTracks, WindowTracks, Frugal, BooksOf, Sum, AdjustedObjects,
      GuardFor, Open;
    GroupTotalMoves(s.rows, id, s'.rows[id], g);
  }

  lemma BackedMoves(s: Ledger, s': Ledger, id: Uuid)
    requires Touches(s, s', id) && forall k :: k in s.rows ==> Backed(s, k)
    ensures forall k :: k in s'.rows ==> Backed(s', k)
  {
    hide BooksOf, GuardFor, AdjustedObjects;
    forall k | k in s'.rows ensures Backed(s', k) {
      assert Backed(s, k);
    }
  }

  lemma MovesKeepTracked(s: Ledger, s': Ledger, id: Uuid)
    requires Tracked(s) && Moves(s, s', id)
    ensures Tracked(s')
  {
    hide Plain, Endures, Backed, EvidenceStays, Spent, Guarded, WindowTracks, HoldTracks, GuardTracks, Frugal, BooksOf,
      GuardFor, WindowTotal, GroupTotal, AdjustedObjects;
    BackedMoves(s, s', id);
    forall w: WindowKey ensures Spent(BooksOf(s', w), WindowTotal(s', w), AdjustedObjects(s', w)) {
      SpentMoves(s, s', id, w);
    }
    forall g: GroupKey ensures Guarded(GuardFor(s', g), GroupTotal(s', g)) {
      GuardMoves(s, s', id, g);
    }
  }

  lemma IdleTotals(s: Ledger, s': Ledger, w: WindowKey, g: GroupKey)
    requires Idle(s, s')
    ensures BooksOf(s', w) == BooksOf(s, w) && GuardFor(s', g) == GuardFor(s, g)
    ensures WindowTotal(s', w) == WindowTotal(s, w) && GroupTotal(s', g) == GroupTotal(s, g)
    ensures AdjustedObjects(s', w) == AdjustedObjects(s, w)
  {
  }

  lemma IdleKeepsTracked(s: Ledger, s': Ledger)
    requires Tracked(s) && Idle(s, s')
    ensures Tracked(s')
  {
    hide Plain, Spent, Guarded, BooksOf, GuardFor, WindowTotal, GroupTotal, AdjustedObjects;
    forall k | k in s'.rows ensures Backed(s', k) {
      assert Backed(s, k);
    }
    forall w: WindowKey ensures Spent(BooksOf(s', w), WindowTotal(s', w), AdjustedObjects(s', w)) {
      IdleTotals(s, s', w, GroupKey(w, "", "", ""));
    }
    forall g: GroupKey ensures Guarded(GuardFor(s', g), GroupTotal(s', g)) {
      IdleTotals(s, s', g.window, g);
    }
  }

  lemma IdleSteps(s: Ledger, id: Uuid)
    ensures Steps(s, s, id)
  {
    hide Moves;
  }

  lemma EnduresTransitive(a: Row, b: Row, c: Row)
    requires Endures(a, b) && Endures(b, c)
    ensures Endures(a, c)
  {
  }

  lemma MovedRow(s: Ledger, s': Ledger, id: Uuid)
    requires Moves(s, s', id)
    ensures id in s.rows && id in s'.rows && s'.rows == s.rows[id := s'.rows[id]] && Endures(s.rows[id], s'.rows[id])
  {
    hide Endures, Plain, WindowTracks, HoldTracks, GuardTracks, Frugal;
  }

  lemma PlainRow(s: Ledger, id: Uuid)
    requires Tracked(s) && id in s.rows
    ensures Plain(s.rows[id])
  {
    hide Plain, Spent, Guarded;
  }

  // ---- The row changes of the transactions.

  function Blocked(g: Guard, change: int): Guard { g.(blocking := g.blocking + change) }

  lemma SettlementMoves(r: Row, b: Window, g: Guard, actual: Cost, success: bool, backend: string)
    requires Plain(r) && r.reservation != Reconciled && actual.objects <= r.admission.reserved.objects
    ensures RowMoves(r, ReconciledRow(r, actual, success, backend), b, Settle(b, r.admission.reserved, actual), g, g)
  {
  }

  lemma ExpiryMoves(r: Row, b: Window, g: Guard)
    requires Plain(r) && r.state == Admitted
    ensures RowMoves(r, ExpiredRow(r), b, Settle(b, r.admission.reserved, NO_COST), g, g)
  {
  }

  lemma StalenessMoves(r: Row, b: Window, g: Guard, now: int)
    requires Plain(r) && r.state == Running
    ensures RowMoves(r, StaleRow(r, now), b, Indebt(b, r.admission.reserved.objects), g, Blocked(g, 1))
  {
  }

  lemma AnswerMoves(r: Row, b: Window, g: Guard, e: OwnerEvidence)
    requires Plain(r) && r.state == Unknown && r.admission.reserved.objects <= 0
    ensures var r' := OwnerSettledRow(r, e);
            RowMoves(r, r', b, Settle(b, r.admission.reserved.(objects := 0), r'.actual), g, Blocked(g, -1))
  {
  }

  lemma HoldExpiryMoves(r: Row, b: Window, g: Guard)
    requires Plain(r) && r.state == Unknown
    ensures var charge := r.admission.reserved.(objects := 0);
            RowMoves(r, UnresolvedRow(r), b, Settle(b, charge, charge), g, g)
  {
  }

  lemma ViolationMoves(r: Row, b: Window, g: Guard, why: Category)
    requires Plain(r) && (r.state == Unknown || r.state == Unresolved) && r.debt.Active?
    ensures RowMoves(r, ViolatedRow(r, why), b, b, g, g)
  {
  }

  lemma InsertedObjects(b: Window, r: Row, e: Report)
    requires r.debt.Active?
    ensures |CompensatedWindow(b, r, e).objects| - |b.objects| == |(set h | h in e.hashes) - b.objects|
    ensures |(set h | h in e.hashes) - b.objects| <= |set h | h in e.hashes|
  {
    var unique := set h | h in e.hashes;
    assert b.objects + unique == b.objects + (unique - b.objects);
    assert unique == (unique - b.objects) + (unique * b.objects);
  }

  lemma CompensationMoves(r: Row, b: Window, g: Guard, ref: EvidenceRef, e: Report)
    requires Plain(r) && (r.state == Unknown || r.state == Unresolved) && r.debt.Active?
    requires WellFormedReport(e) && |set h | h in e.hashes| <= r.debt.amount
    ensures RowMoves(r, CompensatedRow(r, ref, e), b, CompensatedWindow(b, r, e), g, Blocked(g, -1))
  {
    InsertedObjects(b, r, e);
  }

  // ---- Each transaction moves one row or none.

  lemma SameAdjustments(s: Ledger, s': Ledger)
    requires s'.adjustments == s.adjustments
    ensures forall w: WindowKey :: AdjustedObjects(s', w) == AdjustedObjects(s, w)
  {
  }

  lemma SameEvidence(s: Ledger, s': Ledger)
    requires s'.inbox == s.inbox && s'.adjustments == s.adjustments
    ensures EvidenceStays(s, s')
  {
  }

  /** A row and its own window and guard are replaced, and no object is inserted. */
  lemma PutTouches(s: Ledger, s': Ledger, id: Uuid, b': Window, change: int)
    requires id in s.rows && id in s'.rows && s'.rows == s.rows[id := s'.rows[id]]
    requires s'.rows[id].admission == s.rows[id].admission
    requires var w := s.rows[id].admission.window;
             && b'.objects == BooksOf(s, w).objects
             && (s'.windows == s.windows[w := b'] || (s'.windows == s.windows && b' == BooksOf(s, w)))
    requires s'.guards == if change == 0 then s.guards else Block(s, s.rows[id].admission.group, change)
    requires s'.adjustments == s.adjustments && s'.manifests == s.manifests && EvidenceStays(s, s')
    requires s'.rows[id].debt == s.rows[id].debt || !s'.rows[id].debt.Resolved?
    ensures Touches(s, s', id) && BooksOf(s', s.rows[id].admission.window) == b'
    ensures GuardFor(s', s.rows[id].admission.group) == Blocked(GuardFor(s, s.rows[id].admission.group), change)
  {
    hide AdjustedObjects, EvidenceStays;
    SameAdjustments(s, s');
  }

  /** Replacing columns that nothing counts. */
  lemma UncountedMoves(s: Ledger, s': Ledger, id: Uuid)
    requires Tracked(s) && id in s.rows && id in s'.rows && s'.rows == s.rows[id := s'.rows[id]]
    requires s'.windows == s.windows && s'.guards == s.guards && s'.adjustments == s.adjustments
    requires s'.manifests == s.manifests && s'.inbox == s.inbox
    requires Share(s'.rows[id]) == Share(s.rows[id]) && s'.rows[id].actual == s.rows[id].actual
    requires Plain(s'.rows[id]) && Endures(s.rows[id], s'.rows[id]) && !Closed(s.rows[id])
    requires s'.rows[id].debt == s.rows[id].debt
    ensures Steps(s, s', id)
  {
    hide Tracked, Touches, BooksOf, GuardFor;
    PlainRow(s, id);
    PutTouches(s, s', id, BooksOf(s, s.rows[id].admission.window), 0);
  }

  lemma DispatchSteps(s: Ledger, id: Uuid, backend: string, lease: int, expected: int, now: int)
    requires Tracked(s)
    ensures Steps(s, Dispatch(s, id, backend, lease, expected, now).db, id)
  {
    hide Tracked, Moves;
    var t := Dispatch(s, id, backend, lease, expected, now);
    if t.outcome.Done? {
      PlainRow(s, id);
      UncountedMoves(s, t.db, id);
    }
  }

  lemma ReconcileMoves(s: Ledger, id: Uuid, actual: Cost, success: bool, backend: string)
    requires Tracked(s)
    ensures var s' := Reconcile(s, id, actual, success, backend).db;
            Idle(s, s') || (Moves(s, s', id) && s'.rows[id] == ReconciledRow(s.rows[id], actual, success, backend))
  {
    hide Tracked, Touches, RowMoves, Plain, Settle, GuardFor, EvidenceStays, Backed;
    var t := Reconcile(s, id, actual, success, backend);
    SameEvidence(s, s);
    if t.outcome.Done? && s.rows[id].reservation != Reconciled {
      var r, b := s.rows[id], BooksOf(s, s.rows[id].admission.window);
      PlainRow(s, id);
      SettledObjects(b, r.admission.reserved, actual);
      SameEvidence(s, t.db);
      PutTouches(s, t.db, id, Settle(b, r.admission.reserved, actual), 0);
      SettlementMoves(r, b, GuardFor(s, r.admission.group), actual, success, backend);
    }
  }

  lemma SettledObjects(b: Window, reserved: Cost, actual: Cost)
    ensures Settle(b, reserved, actual).objects == b.objects
  {
  }

  lemma ExpireAdmissionSteps(s: Ledger, id: Uuid)
    requires Tracked(s)
    ensures Steps(s, ExpireAdmission(s, id), id)
  {
    hide Tracked, Touches, RowMoves, Plain, GuardFor;
    var s' := ExpireAdmission(s, id);
    if id in s.rows && s.rows[id].state == Admitted {
      var r, b := s.rows[id], BooksOf(s, s.rows[id].admission.window);
      PlainRow(s, id);
      PutTouches(s, s', id, Settle(b, r.admission.reserved, NO_COST), 0);
      ExpiryMoves(r, b, GuardFor(s, r.admission.group));
    }
  }

  lemma MarkStaleSteps(s: Ledger, id: Uuid, now: int)
    requires Tracked(s)
    ensures Steps(s, MarkStale(s, id, now), id)
  {
    hide Tracked, Touches, RowMoves, Plain, GuardFor, Block;
    var s' := MarkStale(s, id, now);
    if id in s.rows && LeaseExpired(s.rows[id], now) {
      var r, b := s.rows[id], BooksOf(s, s.rows[id].admission.window);
      PlainRow(s, id);
      PutTouches(s, s', id, Indebt(b, r.admission.reserved.objects), 1);
      StalenessMoves(r, b, GuardFor(s, r.admission.group), now);
    }
  }

  lemma ClaimSteps(s: Ledger, id: Uuid, worker: string, now: int, lease: int)
    requires Tracked(s)
    ensures Steps(s, ClaimRecovery(s, id, worker, now, lease), id)
  {
    hide Tracked, Moves;
    if id in s.rows && Claimable(s.rows[id], now) {
      PlainRow(s, id);
      UncountedMoves(s, ClaimRecovery(s, id, worker, now, lease), id);
    }
  }

  lemma OwnerSettleSteps(s: Ledger, id: Uuid, e: OwnerEvidence)
    requires Tracked(s) && id in s.rows && s.rows[id].state == Unknown && s.rows[id].admission.reserved.objects <= 0
    requires 0 <= e.calls <= s.rows[id].admission.reserved.calls && 0 <= e.bytes <= s.rows[id].admission.reserved.bytes
    ensures Steps(s, OwnerSettle(s, id, e), id)
  {
    hide Tracked, Touches, RowMoves, Plain, GuardFor, Block;
    var s', r, b := OwnerSettle(s, id, e), s.rows[id], BooksOf(s, s.rows[id].admission.window);
    PlainRow(s, id);
    PutTouches(s, s', id, Settle(b, r.admission.reserved.(objects := 0), s'.rows[id].actual), -1);
    AnswerMoves(r, b, GuardFor(s, r.admission.group), e);
  }

  lemma ReleaseSteps(s: Ledger, s': Ledger, id: Uuid)
    requires Tracked(s) && id in s.rows && s' == s.(rows := s.rows[id := s.rows[id].(recovery := None)])
    requires s.rows[id].state == Unknown
    ensures Steps(s, s', id)
  {
    hide Tracked, Moves;
    PlainRow(s, id);
    UncountedMoves(s, s', id);
  }

  lemma OwnerEvidenceSteps(s: Ledger, id: Uuid, worker: string, e: OwnerEvidence)
    requires Tracked(s)
    ensures Steps(s, ApplyOwnerEvidence(s, id, worker, e).db, id)
  {
    hide Tracked, Steps, OwnerSettle;
    IdleSteps(s, id);
    var t := ApplyOwnerEvidence(s, id, worker, e);
    if t.outcome.Done? && s.rows[id].state == Unknown {
      if e.outcome == OwnerUnknown {
        ReleaseSteps(s, t.db, id);
      } else {
        OwnerSettleSteps(s, id, e);
      }
    }
  }

  lemma ExpireUnknownSteps(s: Ledger, id: Uuid)
    requires Tracked(s)
    ensures Steps(s, ExpireUnknownOne(s, id), id)
  {
    hide Tracked, Touches, RowMoves, Plain, GuardFor;
    var s' := ExpireUnknownOne(s, id);
    if id in s.rows && s.rows[id].state == Unknown && s.rows[id].reservation == InDoubt {
      var r, b := s.rows[id], BooksOf(s, s.rows[id].admission.window);
      var charge := r.admission.reserved.(objects := 0);
      PlainRow(s, id);
      PutTouches(s, s', id, Settle(b, charge, charge), 0);
      HoldExpiryMoves(r, b, GuardFor(s, r.admission.group));
    }
  }

  lemma ViolateSteps(s: Ledger, id: Uuid, ref: EvidenceRef, why: Category)
    requires Tracked(s) && id in s.rows && ref in s.inbox && s.rows[id].debt.Active? && s.inbox[ref].state == Verified
    requires s.rows[id].state == Unknown || s.rows[id].state == Unresolved
    ensures Steps(s, Violate(s, id, ref, why), id)
  {
    hide Tracked, Touches, RowMoves, Plain, GuardFor, BooksOf;
    var r, b := s.rows[id], BooksOf(s, s.rows[id].admission.window);
    PlainRow(s, id);
    PutTouches(s, Violate(s, id, ref, why), id, b, 0);
    ViolationMoves(r, b, GuardFor(s, r.admission.group), why);
  }

  lemma AdjustmentInserted(m: map<EvidenceRef, Adjustment>, ref: EvidenceRef, a: Adjustment, w: WindowKey)
    requires ref !in m
    ensures Sum(m[ref := a], AdjustmentShare(w)).usedObjects ==
              Sum(m, AdjustmentShare(w)).usedObjects + if a.window == w then a.delta else 0
  {
    SumInsert(m, AdjustmentShare(w), ref, a);
  }

  lemma CompensatedAdmission(r: Row, ref: EvidenceRef, e: Report)
    requires r.debt.Active?
    ensures CompensatedRow(r, ref, e).admission == r.admission
    ensures Plain(r) ==> CompensatedRow(r, ref, e).actual == r.actual
    ensures CompensatedRow(r, ref, e).debt == Debt.Resolved(r.debt.amount, ref)
  {
  }

  lemma CompensateBacks(s: Ledger, id: Uuid, ref: EvidenceRef)
    requires id in s.rows && ref in s.inbox && ref !in s.adjustments && s.rows[id].debt.Active?
    requires Plain(s.rows[id]) && s.inbox[ref].state == Verified && s.inbox[ref].attempt == id
    ensures var s' := Compensate(s, id, ref); EvidenceStays(s, s') && id in s'.rows && Backed(s', id)
  {
    hide CompensatedWindow, CompensatedRow, Lookup;
    CompensatedAdmission(s.rows[id], ref, s.inbox[ref].report);
  }

  /** The adjustment of accepted evidence counts exactly the objects it inserts. */
  lemma CompensateCounts(s: Ledger, id: Uuid, ref: EvidenceRef, w: WindowKey)
    requires id in s.rows && ref in s.inbox && ref !in s.adjustments && s.rows[id].debt.Active?
    ensures var s' := Compensate(s, id, ref);
            AdjustedObjects(s', w) - AdjustedObjects(s, w) == |BooksOf(s', w).objects| - |BooksOf(s, w).objects|
  {
    hide CompensatedRow, CompensatedWindow, Sum;
    var s', w0 := Compensate(s, id, ref), s.rows[id].admission.window;
    InsertedObjects(BooksOf(s, w0), s.rows[id], s.inbox[ref].report);
    CompensatedAdmission(s.rows[id], ref, s.inbox[ref].report);
    AdjustmentInserted(s.adjustments, ref, s'.adjustments[ref], w);
  }

  /** Accepted evidence records exactly the objects it inserts and backs the debt it resolves. */
  lemma CompensateTouches(s: Ledger, id: Uuid, ref: EvidenceRef)
    requires id in s.rows && ref in s.inbox && ref !in s.adjustments && s.rows[id].debt.Active?
    requires Plain(s.rows[id]) && s.inbox[ref].state == Verified && s.inbox[ref].attempt == id
    ensures var s', r := Compensate(s, id, ref), s.rows[id];
            && Touches(s, s', id)
            && BooksOf(s', r.admission.window) ==
               CompensatedWindow(BooksOf(s, r.admission.window), r, s.inbox[ref].report)
            && GuardFor(s', r.admission.group) == Blocked(GuardFor(s, r.admission.group), -1)
  {
    hide CompensatedRow, CompensatedWindow, AdjustedObjects, EvidenceStays, Backed, Plain;
    var s' := Compensate(s, id, ref);
    CompensatedAdmission(s.rows[id], ref, s.inbox[ref].report);
    CompensateBacks(s, id, ref);
    forall w: WindowKey
      ensures AdjustedObjects(s', w) - AdjustedObjects(s, w) == |BooksOf(s', w).objects| - |BooksOf(s, w).objects|
    {
      CompensateCounts(s, id, ref, w);
    }
  }

  lemma CompensateSteps(s: Ledger, id: Uuid, ref: EvidenceRef)
    requires Tracked(s) && Indexed(s)
    requires id in s.rows && ref in s.inbox && ref !in s.adjustments && s.rows[id].debt.Active?
    requires s.inbox[ref].state == Verified && s.inbox[ref].attempt == id
    requires s.rows[id].state == Unknown || s.rows[id].state == Unresolved
    requires |set h | h in s.inbox[ref].report.hashes| <= s.rows[id].debt.amount
    ensures Steps(s, Compensate(s, id, ref), id)
  {
    hide Tracked, Touches, Indexed, BooksOf, GuardFor, CompensatedWindow, CompensatedRow, RowMoves, Plain,
      WellFormedReport;
    var r, e := s.rows[id], s.inbox[ref].report;
    PlainRow(s, id);
    ReportSound(s, ref);
    CompensateTouches(s, id, ref);
    CompensatedAdmission(r, ref, e);
    CompensationMoves(r, BooksOf(s, r.admission.window), GuardFor(s, r.admission.group), ref, e);
  }

  lemma AcceptedWithinDebt(s: Ledger, id: Uuid, ref: EvidenceRef)
    requires id in s.rows && ref in s.inbox && s.rows[id].debt.Active? && s.rows[id].backend.Some?
    requires Adjudicate(s, id, ref).outcome == Done(Compensated)
    ensures ref !in s.adjustments && s.inbox[ref].attempt == id
    ensures |set h | h in s.inbox[ref].report.hashes| <= s.rows[id].debt.amount
    ensures Adjudicate(s, id, ref).db == Compensate(s, id, ref)
  {
    hide Compensate, Violate;
  }

  lemma QuarantineSteps(s: Ledger, id: Uuid, ref: EvidenceRef, why: Category)
    requires ref in s.inbox && s.inbox[ref].state == Verified
    ensures Steps(s, Quarantine(s, ref, why), id)
  {
    hide Moves;
  }

  lemma RecordSteps(s: Ledger, id: Uuid, ref: EvidenceRef, why: Category)
    ensures Steps(s, s.(incidents := s.incidents + {(ref, why)}), id)
  {
    hide Moves;
  }

  lemma AdjudicateSteps(s: Ledger, id: Uuid, ref: EvidenceRef)
    requires Tracked(s) && Indexed(s)
    requires id in s.rows && ref in s.inbox && s.rows[id].debt.Active? && s.rows[id].backend.Some?
    requires (s.rows[id].state == Unknown || s.rows[id].state == Unresolved) && s.inbox[ref].state == Verified
    ensures Steps(s, Adjudicate(s, id, ref).db, id)
  {
    hide Tracked, Steps, Indexed, Violation, Violate, Compensate, Lookup, Quarantine;
    var t := Adjudicate(s, id, ref);
    IdleSteps(s, id);
    QuarantineSteps(s, id, ref, BindingViolation);
    RecordSteps(s, id, ref, ScopeViolation);
    if t.outcome == Done(Compensated) {
      AcceptedWithinDebt(s, id, ref);
      CompensateSteps(s, id, ref);
    } else if t.outcome == Done(CommittedDomainViolation) {
      ViolateSteps(s, id, ref, CryptoViolation);
      ViolateSteps(s, id, ref, ContractViolation);
    }
  }

  lemma LateCompensateSteps(s: Ledger, id: Uuid, ref: EvidenceRef, expected: int)
    requires Tracked(s) && Indexed(s)
    ensures Steps(s, LateCompensate(s, id, ref, expected).db, id)
  {
    hide Tracked, Moves, Modest, Indexed, Adjudicate;
    if ref in s.inbox && id in s.rows && s.rows[id].debt.Active? && s.rows[id].backend.Some? &&
       (s.rows[id].state == Unknown || s.rows[id].state == Unresolved) && s.inbox[ref].state == Verified {
      AdjudicateSteps(s, id, ref);
    }
  }

  lemma IngestSteps(s: Ledger, ref: EvidenceRef, report: Report)
    ensures Steps(s, InsertVerifiedEvidence(s, ref, report).db, NIL)
  {
    hide Moves, WellFormedReport;
  }

  /** The debt cache never drifts, so repair finds nothing to do. */
  lemma {:induction false} RepairIdle(s: Ledger, ws: seq<WindowKey>)
    requires Tracked(s)
    ensures RepairDebtCaches(s, ws) == s
  {
    hide Plain, Guarded, PlainRows;
    if ws != [] {
      RepairIdle(s, ws[..|ws| - 1]);
      assert Spent(BooksOf(s, ws[|ws| - 1]), WindowTotal(s, ws[|ws| - 1]), AdjustedObjects(s, ws[|ws| - 1]));
    }
  }

  // ---- Admission.

  lemma NewRowTracks(r: Row, b: Window, t: Tally, adjusted: int, g: Guard, u: Tally)
    requires Spent(b, t, adjusted) && Guarded(g, u) && r.state == Admitted
    requires r.reservation == Reserved && r.actual == NO_COST && r.debt == NoDebt
    ensures Spent(Hold(b, r.admission.reserved), t.Plus(Share(r)), adjusted)
    ensures Guarded(g.(equivalent := g.equivalent + 1), u.Plus(Share(r)))
  {
  }

  lemma AdmitKeepsTracked(s: Ledger, id: Uuid, r: Row)
    requires Tracked(s) && id !in s.rows && Plain(r) && r.state == Admitted
    requires r.reservation == Reserved && r.actual == NO_COST && r.debt == NoDebt
    ensures Tracked(Admit(s, id, r))
  {
    hide Plain, Spent, Guarded, WindowTotal, GroupTotal, AdjustedObjects, Share, Hold;
    var s', w0, g0 := Admit(s, id, r), r.admission.window, r.admission.group;
    assert Spent(BooksOf(s, w0), WindowTotal(s, w0), AdjustedObjects(s, w0));
    assert Guarded(GuardFor(s, g0), GroupTotal(s, g0));
    NewRowTracks(r, BooksOf(s, w0), WindowTotal(s, w0), AdjustedObjects(s, w0), GuardFor(s, g0), GroupTotal(s, g0));
    SameAdjustments(s, s');
    forall w: WindowKey ensures Spent(BooksOf(s', w), WindowTotal(s', w), AdjustedObjects(s', w)) {
      AdmitTotals(s, id, r, w, g0);
      assert Spent(BooksOf(s, w), WindowTotal(s, w), AdjustedObjects(s, w));
    }
    forall g: GroupKey ensures Guarded(GuardFor(s', g), GroupTotal(s', g)) {
      AdmitTotals(s, id, r, w0, g);
      assert Guarded(GuardFor(s, g), GroupTotal(s, g));
    }
  }

  lemma FreshTracked(manifests: set<string>)
    ensures Tracked(Fresh(manifests))
  {
  }
}
