/** What each transaction writes, column by column and in plain times and amounts. */
module LedgerEffects {
  import opened Options
  import opened Ledger

  /** Only the row of `id` changes among the attempts. */
  predicate OnlyRow(s: Ledger, s': Ledger, id: Uuid) {
    && s'.rows.Keys == s.rows.Keys
    && forall j :: j in s.rows && j != id ==> s'.rows[j] == s.rows[j]
  }

  // ---- Admission.

  const CONTROL := "ouf.operational-control-budget.v1"

  /** A request without a profile, or one of the six operational reads in the shape its profile prescribes: a minute's
      window, a threshold of three, one call, up to 512 KiB and up to a hundred objects. */
  predicate Supported(q: AdmissionRequest) {
    q.profile == "" ||
    (&& q.profile == CONTROL && q.operation == "READ"
     && q.capability in {"ouf.operations.summary", "ouf.operations.incidents",
                         "ouf.ingestion.operations.summary", "ouf.ingestion.operations.incidents",
                         "ouf.gateway.operations.summary", "ouf.gateway.operations.incidents"}
     && q.window == 60_000_000_000 && q.threshold == 3
     && q.maximum.calls == 1 && 1 <= q.maximum.bytes <= 524_288 && 0 <= q.maximum.objects <= 100)
  }

  /** The window of the request that starts at `start`; control reads have windows of their own. */
  function WindowAt(q: AdmissionRequest, start: int): WindowKey {
    WindowKey(q.who, if q.profile == "" then q.manifest else q.manifest + ":" + CONTROL, start)
  }

  function GroupAt(q: AdmissionRequest, start: int): GroupKey {
    GroupKey(WindowAt(q, start), q.capability, q.version, q.fingerprint)
  }

  /** What the window may take: the request's maximum as often as its threshold, or the fixed control budget. */
  function Ceiling(q: AdmissionRequest): Cost {
    if q.profile == "" then
      Cost(q.threshold * q.maximum.calls, q.threshold * q.maximum.bytes, q.threshold * q.maximum.objects)
    else Cost(24, 12_582_912, 2400)
  }

  /** With the request on top, what is held, used and owed stays under the ceiling. */
  predicate Fits(b: Window, debt: int, q: AdmissionRequest) {
    && b.heldCalls + b.usedCalls + q.maximum.calls <= Ceiling(q).calls
    && b.heldBytes + b.usedBytes + q.maximum.bytes <= Ceiling(q).bytes
    && (q.maximum.objects > 0 ==>
          b.heldObjects + b.usedObjects + debt + q.maximum.objects <= Ceiling(q).objects)
  }

  predicate HexDigit(c: char) { c in "0123456789abcdef" }

  /** What the tables accept: a new attempt under a registered manifest, with a digest of 64 hex digits. */
  predicate Insertable(s: Ledger, q: AdmissionRequest, id: Uuid) {
    && id !in s.rows && AttemptKey(q.who, q.capability, q.operation, q.idempotency) !in s.keys
    && q.manifest in s.manifests && q.maximum.objects >= 0
    && |q.hash| == 64 && forall c :: c in q.hash ==> HexDigit(c)
  }

  function ClaimOf(q: AdmissionRequest): ClaimKey {
    ClaimKey(AttemptKey(q.who, q.capability, q.operation, q.idempotency), q.owner)
  }

  /** The new attempt: admitted now, not dispatched, with its whole maximum reserved. */
  predicate Entered(r: Row, q: AdmissionRequest, start: int, now: int) {
    && r.admission == Admission(ClaimOf(q), q.hash, WindowAt(q, start), GroupAt(q, start), q.maximum, now)
    && r.state == Admitted && r.dispatch == NotDispatched && r.reservation == Reserved && r.claimState == Bound
    && r.actual == Cost(0, 0, 0) && r.debt == NoDebt && r.backend == None && r.lease == None && r.unknownSince == None
    && r.recovery == None && r.code == "" && r.lock == 0 && r.revision == 0
  }

  /** A window with nothing in it, and the group's guard before its first attempt. */
  predicate Untouched(s: Ledger, w: WindowKey, b: Window) {
    if w in s.windows then b == s.windows[w] else b == Window(0, 0, 0, 0, 0, 0, 0, {"v1"}, {})
  }

  predicate Unguarded(s: Ledger, g: GroupKey, guard: Guard) {
    if g in s.guards then guard == s.guards[g] else guard == Guard(0, false, 0)
  }

  /** The admission holds the maximum in its window, counts itself in its group, and is found by claim and key. */
  predicate Booked(s: Ledger, s': Ledger, q: AdmissionRequest, start: int, id: Uuid, b: Window, guard: Guard) {
    var w, g := WindowAt(q, start), GroupAt(q, start);
    && s'.rows.Keys == s.rows.Keys + {id} && (forall j :: j in s.rows ==> s'.rows[j] == s.rows[j])
    && s'.windows == s.windows[w := b.(heldCalls := b.heldCalls + q.maximum.calls,
                                       heldBytes := b.heldBytes + q.maximum.bytes,
                                       heldObjects := b.heldObjects + q.maximum.objects)]
    && s'.guards == s.guards[g := Guard(guard.equivalent + 1, guard.blocked, guard.blocking)]
    && s'.claims == s.claims[ClaimOf(q) := id] && s'.keys == s.keys[ClaimOf(q).attempt := id]
    && s'.requests == s.requests && s'.inbox == s.inbox && s'.adjustments == s.adjustments
    && s'.incidents == s.incidents && s'.audit == s.audit && s'.manifests == s.manifests
  }

  /** Everything a new attempt needs. */
  predicate Welcome(s: Ledger, q: AdmissionRequest, id: Uuid, b: Window, debt: int, guard: Guard) {
    && q.window > 0 && q.threshold >= 1 && q.maximum.calls >= 1 && Supported(q)
    && Fits(b, debt, q) && guard.blocking <= 0 && !guard.blocked && guard.equivalent + 1 < q.threshold
    && Insertable(s, q, id)
  }

  /** The refusal names its reason. */
  predicate RefusedFor(q: AdmissionRequest, b: Window, debt: int, guard: Guard, why: Error) {
    match why
    case InvalidPolicy => q.window <= 0 || q.threshold < 1 || q.maximum.calls < 1
    case UnsupportedBudget => !Supported(q)
    case BudgetExhausted => !Fits(b, debt, q)
    case GroupLocked => Fits(b, debt, q) && guard.blocking > 0
    case SelectionStall => Fits(b, debt, q) && (guard.blocked || guard.equivalent + 1 >= q.threshold)
    case _ => true
  }

  lemma BudgetMeans(q: AdmissionRequest)
    ensures AdmissionWindowBudget(q).Some? <==> Supported(q)
    ensures Supported(q) ==>
              && AdmissionWindowBudget(q).value.cap == Ceiling(q)
              && AdmissionWindowBudget(q).value.policy == WindowAt(q, 0).policy
  {
  }

  lemma ScopeMeans(q: AdmissionRequest, now: int, start: int)
    requires q.window > 0 && Supported(q) && AdmissionWindowBudget(q).Some?
    requires start % q.window == 0 && start <= now < start + q.window
    ensures WindowOf(q, now) == WindowAt(q, start) && GroupOf(q, now) == GroupAt(q, start)
  {
    hide AdmissionWindowBudget;
    BudgetMeans(q);
    OneStart(now, q.window, start);
  }

  /** The start of the window that contains a time is the only multiple of the window's length within reach. */
  lemma OneStart(now: int, window: int, start: int)
    requires window > 0 && start % window == 0 && start <= now < start + window
    ensures start == now - now % window
  {
    assert start == window * (start / window);
    assert now == window * (now / window) + now % window;
    var d := start / window - now / window;
    assert start - (now - now % window) == window * d by {
      assert window * d == window * (start / window) - window * (now / window);
    }
    MultiplesApart(window, d);
  }

  lemma MultiplesApart(window: int, d: int)
    requires window > 0
    ensures d >= 1 ==> window * d >= window
    ensures d <= -1 ==> window * d <= -window
  {
  }

  lemma InsertMeans(s: Ledger, q: AdmissionRequest, id: Uuid)
    ensures InsertAccepted(s, q, id) <==> Insertable(s, q, id)
  {
    hide HexDigit;
    HexMeans(q.hash);
  }

  lemma HexMeans(h: string)
    ensures |h| == 64 ==>
              ((forall i :: 0 <= i < 64 ==> '0' <= h[i] <= '9' || 'a' <= h[i] <= 'f') <==>
               forall c :: c in h ==> HexDigit(c))
  {
    assert forall i :: 0 <= i < |h| ==> h[i] in h;
  }

  lemma ExceedsMeans(b: Window, debt: int, q: AdmissionRequest)
    ensures Exceeds(b, debt, q.maximum, Ceiling(q)) <==> !Fits(b, debt, q)
  {
  }

  lemma AdmitWrites(s: Ledger, q: AdmissionRequest, start: int, now: int, id: Uuid, b: Window, guard: Guard)
    requires Untouched(s, WindowAt(q, start), b) && Unguarded(s, GroupAt(q, start), guard)
    ensures var r := NewRow(q, WindowAt(q, start), GroupAt(q, start), now);
            var s' := Admit(s, id, r);
            && (id !in s.rows ==> Booked(s, s', q, start, id, b, guard))
            && id in s'.rows && Entered(s'.rows[id], q, start, now)
  {
    hide WindowAt;
  }

  lemma Insertion(s: Ledger, q: AdmissionRequest, id: Uuid)
    requires Insertable(s, q, id)
    ensures id !in s.rows
  {
  }

  /** An admission of a claim that is not taken yet, in the window that starts at `start` and contains `now`: it commits
      exactly when the request is welcome there, and then books precisely what it asked for. */
  lemma AdmissionExactly(s: Ledger, q: AdmissionRequest, now: int, spare: Uuid, start: int, b: Window, guard: Guard)
    requires ClaimOf(q) !in s.claims
    requires q.window > 0 ==> start % q.window == 0 && start <= now < start + q.window
    requires Untouched(s, WindowAt(q, start), b) && Unguarded(s, GroupAt(q, start), guard)
    ensures var t, id := Reserve(s, q, now, spare), if q.attemptId == 0 then spare else q.attemptId;
            var debt := WindowTotal(s, WindowAt(q, start)).debt;
            && (t.outcome.Done? <==> Welcome(s, q, id, b, debt, guard))
            && (t.outcome.Done? ==>
                  && t.outcome.value == Decision(id, false) && Booked(s, t.db, q, start, id, b, guard)
                  && id in t.db.rows && Entered(t.db.rows[id], q, start, now))
            && (t.outcome.Refused? ==> t.db == s && RefusedFor(q, b, debt, guard, t.outcome.error))
  {
    hide AdmissionWindowBudget, Supported, Exceeds, Fits, InsertAccepted, Insertable, WindowTotal, Ceiling, WindowAt,
      Booked, Entered, Admit, NewRow;
    BudgetMeans(q);
    if q.window > 0 && Supported(q) {
      ScopeMeans(q, now, start);
      var id := if q.attemptId == 0 then spare else q.attemptId;
      AdmitWrites(s, q, start, now, id, b, guard);
      ExceedsMeans(b, WindowTotal(s, WindowAt(q, start)).debt, q);
      InsertMeans(s, q, id);
      if Insertable(s, q, id) {
        Insertion(s, q, id);
      }
    }
  }

  /** The attempt is entered in the window of its length that contains `now`. */
  predicate EntersWindow(s: Ledger, id: Uuid, q: AdmissionRequest, now: int) {
    && id in s.rows && q.window > 0
    && var start := s.rows[id].admission.window.start;
       start % q.window == 0 && start <= now < start + q.window && Entered(s.rows[id], q, start, now)
  }

  lemma AdmissionEnters(s: Ledger, q: AdmissionRequest, now: int, spare: Uuid)
    ensures var t := Reserve(s, q, now, spare);
            t.outcome.Done? && !t.outcome.value.replay ==> EntersWindow(t.db, t.outcome.value.attemptId, q, now)
  {
    hide Reserve, Supported, Fits, Insertable, WindowTotal, Booked;
    var t := Reserve(s, q, now, spare);
    if t.outcome.Done? && !t.outcome.value.replay {
      NewIsPositive(s, q, now, spare);
      var start := Truncate(now, q.window);
      StartsBelow(now, q.window);
      AdmissionExactly(s, q, now, spare, start, Lookup(s.windows, WindowAt(q, start), EMPTY_WINDOW),
                       Lookup(s.guards, GroupAt(q, start), NEW_GUARD));
    }
  }

  lemma NewIsPositive(s: Ledger, q: AdmissionRequest, now: int, spare: Uuid)
    requires var t := Reserve(s, q, now, spare); t.outcome.Done? && !t.outcome.value.replay
    ensures q.window > 0 && ClaimOf(q) !in s.claims
  {
    hide ReserveNew, AdmissionWindowBudget;
  }

  lemma StartsBelow(now: int, window: int)
    requires window > 0
    ensures Truncate(now, window) % window == 0 && Truncate(now, window) <= now < Truncate(now, window) + window
  {
    var k := now / window;
    assert Truncate(now, window) == window * k;
    assert (window * k) % window == 0 by { MultipleOf(window, k); }
  }

  lemma MultipleOf(window: int, k: int)
    requires window > 0
    ensures (window * k) % window == 0
  {
    var q, r := (window * k) / window, (window * k) % window;
    assert window * k == window * q + r;
    assert r == window * (k - q) by { assert window * (k - q) == window * k - window * q; }
    MultiplesApart(window, k - q);
  }

  /** A claim that is taken answers its attempt again, unless the request changed or its outcome is unknown. */
  lemma ReplayExactly(s: Ledger, q: AdmissionRequest, now: int, spare: Uuid)
    requires ClaimOf(q) in s.claims && s.claims[ClaimOf(q)] in s.rows
    requires q.window > 0 && q.threshold >= 1 && q.maximum.calls >= 1 && Supported(q)
    ensures var t, id := Reserve(s, q, now, spare), s.claims[ClaimOf(q)];
            && t.db == s
            && (t.outcome == Refused(IdempotencyConflict) <==> s.rows[id].admission.hash != q.hash)
            && (t.outcome == Refused(OutcomeUnknown) <==>
                  s.rows[id].admission.hash == q.hash && s.rows[id].state in {Unknown, Unresolved})
            && (t.outcome == Done(Decision(id, true)) <==>
                  s.rows[id].admission.hash == q.hash && s.rows[id].state !in {Unknown, Unresolved})
  {
    hide AdmissionWindowBudget, Supported, ReserveNew;
    BudgetMeans(q);
  }

  // ---- Dispatch.

  /** The attempt is running under its request id until its lease ends. */
  predicate Dispatches(r: Row, r': Row, backend: string, until: int) {
    && r.state == Admitted && r.dispatch == NotDispatched
    && r'.state == Running && r'.dispatch == Dispatched && r'.backend == Some(backend) && r'.lease == Some(until)
    && r'.lock == r.lock + 1
    && r' == r.(state := r'.state, dispatch := r'.dispatch, backend := r'.backend, lease := r'.lease, lock := r'.lock)
  }

  /** A dispatch commits exactly for an attempt that is still admitted at the expected version, under a new request
      id. */
  lemma DispatchExactly(s: Ledger, id: Uuid, backend: string, lease: int, expected: int, now: int)
    ensures var t := Dispatch(s, id, backend, lease, expected, now);
            && (t.outcome.Done? <==>
                  && id in s.rows && s.rows[id].state == Admitted && s.rows[id].dispatch == NotDispatched
                  && s.rows[id].lock == expected && backend !in s.requests)
            && (t.outcome.Refused? ==> t.db == s)
            && (t.outcome.Done? ==>
                  && OnlyRow(s, t.db, id) && Dispatches(s.rows[id], t.db.rows[id], backend, now + lease)
                  && t.db == s.(rows := t.db.rows, requests := s.requests[backend := id]))
  {
  }

  // ---- Settlement.

  /** The attempt is closed as its call ended, at the reported cost. */
  predicate Settles(r: Row, r': Row, actual: Cost, success: bool, backend: string) {
    && (r'.state == Succeeded <==> success) && (r'.state == Failed <==> !success)
    && r'.dispatch == Acknowledged && r'.reservation == Reconciled && r'.actual == actual && r'.lease == None
    && r'.backend == (if r.backend == None then Some(backend) else r.backend) && r'.lock == r.lock + 1
    && r' == r.(state := r'.state, dispatch := r'.dispatch, reservation := r'.reservation, actual := r'.actual,
                lease := r'.lease, backend := r'.backend, lock := r'.lock)
  }

  /** A settlement that commits on an attempt not settled before writes the outcome and the cost it was given. */
  lemma SettlementExactly(s: Ledger, id: Uuid, actual: Cost, success: bool, backend: string)
    requires id in s.rows
    ensures var t, r := Reconcile(s, id, actual, success, backend), s.rows[id];
            && (r.reservation == Reconciled ==> t.outcome.Done? && t.db == s)
            && (t.outcome.Done? && r.reservation != Reconciled ==>
                  && 0 <= actual.objects <= r.admission.reserved.objects
                  && OnlyRow(s, t.db, id) && Settles(r, t.db.rows[id], actual, success, backend)
                  && t.db.guards == s.guards && t.db.inbox == s.inbox && t.db.adjustments == s.adjustments
                  && t.db.claims == s.claims && t.db.keys == s.keys && t.db.audit == s.audit)
            && (t.outcome.Refused? ==> t.db == s)
  {
    hide Settle, Lookup;
  }

  // ---- Recovery.

  /** The attempt failed without having been dispatched; its reservation is given back whole. */
  predicate Abandons(r: Row, r': Row) {
    && r.state == Admitted && r'.state == Failed && r'.code == "DISPATCH_NOT_STARTED" && r'.reservation == Released
    && r'.actual == Cost(0, 0, 0) && r'.claimState == Completed && r'.lock == r.lock + 1
    && r' == r.(state := r'.state, code := r'.code, reservation := r'.reservation, actual := r'.actual,
                claimState := r'.claimState, lock := r'.lock)
  }

  /** The attempt's lease ran out before `now`: its outcome is unknown from now on, and it owes its objects. */
  predicate Doubts(r: Row, r': Row, now: int) {
    && r.state == Running && r.lease.Some? && r.lease.value < now
    && r'.state == Unknown && r'.dispatch == DispatchUnknown && r'.unknownSince == Some(now) && r'.lease == None
    && r'.reservation == InDoubt && r'.claimState == ClaimUnknown && r'.lock == r.lock + 1
    && (r.admission.reserved.objects > 0 ==> r'.debt == Active(r.admission.reserved.objects))
    && (r.admission.reserved.objects <= 0 ==> r'.debt == NoDebt)
    && r' == r.(state := r'.state, dispatch := r'.dispatch, unknownSince := r'.unknownSince, lease := r'.lease,
                reservation := r'.reservation, claimState := r'.claimState, lock := r'.lock, debt := r'.debt)
  }

  /** Nobody holds the attempt for recovery at `now`. */
  predicate Unheld(r: Row, now: int) {
    r.recovery.None? || r.recovery.value.until < now
  }

  /** The UNKNOWN attempt is handed to `worker` until its lease ends. */
  predicate Hands(r: Row, r': Row, worker: string, now: int, lease: int) {
    && r.state == Unknown && Unheld(r, now)
    && r' == r.(recovery := Some(RecoveryLease(worker, now + lease)))
  }

  lemma {:induction false} ExpiryWrites(s: Ledger, ids: seq<Uuid>)
    ensures var s' := ExpireAdmissions(s, ids);
            && s'.rows.Keys == s.rows.Keys
            && forall id :: id in s.rows ==>
                 if id in ids && s.rows[id].state == Admitted then Abandons(s.rows[id], s'.rows[id])
                 else s'.rows[id] == s.rows[id]
  {
    hide Abandons, Settle, Lookup;
    if ids != [] {
      var before, last := ids[..|ids| - 1], ids[|ids| - 1];
      ExpiryWrites(s, before);
      var mid := ExpireAdmissions(s, before);
      assert ids == before + [last];
      forall id | id in s.rows
        ensures if id in ids && s.rows[id].state == Admitted
                then Abandons(s.rows[id], ExpireAdmission(mid, last).rows[id])
                else ExpireAdmission(mid, last).rows[id] == s.rows[id]
      {
        if id in before && s.rows[id].state == Admitted {
          AbandonedIsClosed(s.rows[id], mid.rows[id]);
        } else if id == last && s.rows[id].state == Admitted {
          ExpiredMeans(s.rows[id]);
        }
      }
    }
  }

  lemma AbandonedIsClosed(r: Row, r': Row)
    requires Abandons(r, r')
    ensures r'.state == Failed
  {
  }

  lemma ExpiredMeans(r: Row)
    requires r.state == Admitted
    ensures Abandons(r, ExpiredRow(r))
  {
  }

  lemma {:induction false} StalenessWrites(s: Ledger, ids: seq<Uuid>, now: int)
    ensures var s' := MarkAllStale(s, ids, now);
            && s'.rows.Keys == s.rows.Keys
            && forall id :: id in s.rows ==>
                 var r := s.rows[id];
                 if id in ids && r.state == Running && r.lease.Some? && r.lease.value < now
                 then Doubts(r, s'.rows[id], now)
                 else s'.rows[id] == r
  {
    hide Doubts, Indebt, Lookup, Block;
    if ids != [] {
      var before, last := ids[..|ids| - 1], ids[|ids| - 1];
      StalenessWrites(s, before, now);
      var mid := MarkAllStale(s, before, now);
      assert ids == before + [last];
      forall id | id in s.rows
        ensures var r := s.rows[id];
                if id in ids && r.state == Running && r.lease.Some? && r.lease.value < now then
                  Doubts(r, MarkStale(mid, last, now).rows[id], now)
                else MarkStale(mid, last, now).rows[id] == r
      {
        var r := s.rows[id];
        if r.state == Running && r.lease.Some? && r.lease.value < now {
          if id in before {
            DoubtedIsUnknown(r, mid.rows[id], now);
          } else if id == last {
            StaleMeans(r, now);
          }
        }
      }
    }
  }

  lemma DoubtedIsUnknown(r: Row, r': Row, now: int)
    requires Doubts(r, r', now)
    ensures r'.state == Unknown
  {
  }

  lemma StaleMeans(r: Row, now: int)
    requires r.state == Running && r.lease.Some? && r.lease.value < now
    ensures Doubts(r, StaleRow(r, now), now)
  {
  }

  lemma {:induction false} ClaimingWrites(s: Ledger, ids: seq<Uuid>, worker: string, now: int, lease: int)
    ensures var s' := ClaimAll(s, ids, worker, now, lease);
            && s'.rows.Keys == s.rows.Keys
            && forall id :: id in s.rows ==>
                 if id in ids && s.rows[id].state == Unknown && Unheld(s.rows[id], now) then
                   Hands(s.rows[id], s'.rows[id], worker, now, lease)
                 else s'.rows[id] == s.rows[id]
  {
    if ids != [] {
      var before, last := ids[..|ids| - 1], ids[|ids| - 1];
      ClaimingWrites(s, before, worker, now, lease);
      assert ids == before + [last];
    }
  }

  /** What one recovery pass may do to an attempt: fail an admission made before `before`, doubt a dispatch whose lease
      ended before `now`, and hand out an UNKNOWN attempt that nobody holds. A dispatch whose lease still runs, a later
      admission, a held attempt and every closed one stay as they are. */
  predicate Recovers(r: Row, r': Row, now: int, before: int, worker: string, lease: int) {
    match r.state
    case Admitted => r' == r || (r.admission.at < before && Abandons(r, r'))
    case Running =>
      || r' == r
      || (&& Doubts(r, r'.(recovery := r.recovery), now)
          && (r'.recovery == r.recovery ||
              (Unheld(r, now) && r'.recovery == Some(RecoveryLease(worker, now + lease)))))
    case Unknown => r' == r || Hands(r, r', worker, now, lease)
    case _ => r' == r
  }

  // ---- Giving up.

  /** An UNKNOWN attempt is given up: its calls and bytes are charged in full, its debt stays. */
  predicate GivesUp(r: Row, r': Row) {
    && r.state == Unknown && r'.state == Unresolved && r'.code == "MAX_UNKNOWN_HOLD" && r'.recovery == None
    && r'.reservation == Reconciled
    && r'.actual == Cost(r.admission.reserved.calls, r.admission.reserved.bytes, 0)
    && r'.claimState == Completed && r'.lock == r.lock + 1
    && r' == r.(state := r'.state, code := r'.code, recovery := r'.recovery, reservation := r'.reservation,
                actual := r'.actual, claimState := r'.claimState, lock := r'.lock)
  }

  lemma {:induction false} GivingUpWrites(s: Ledger, ids: seq<Uuid>)
    ensures var s' := ExpireUnknowns(s, ids);
            && s'.rows.Keys == s.rows.Keys
            && forall id :: id in s.rows ==>
                 if id in ids && s.rows[id].state == Unknown && s.rows[id].reservation == InDoubt then
                   GivesUp(s.rows[id], s'.rows[id])
                 else s'.rows[id] == s.rows[id]
  {
    hide GivesUp, Settle, Lookup;
    if ids != [] {
      var before, last := ids[..|ids| - 1], ids[|ids| - 1];
      GivingUpWrites(s, before);
      var mid := ExpireUnknowns(s, before);
      assert ids == before + [last];
      forall id | id in s.rows
        ensures if id in ids && s.rows[id].state == Unknown && s.rows[id].reservation == InDoubt then
                  GivesUp(s.rows[id], ExpireUnknownOne(mid, last).rows[id])
                else ExpireUnknownOne(mid, last).rows[id] == s.rows[id]
      {
        var r := s.rows[id];
        if r.state == Unknown && r.reservation == InDoubt {
          if id in before {
            GivenUpIsUnresolved(r, mid.rows[id]);
          } else if id == last {
            UnresolvedMeans(r);
          }
        }
      }
    }
  }

  lemma GivenUpIsUnresolved(r: Row, r': Row)
    requires GivesUp(r, r')
    ensures r'.state == Unresolved
  {
  }

  lemma UnresolvedMeans(r: Row)
    requires r.state == Unknown
    ensures GivesUp(r, UnresolvedRow(r))
  {
  }

  // ---- The owner's answer.

  /** The answer closes the attempt: succeeded or failed at the owner's cost, or never dispatched and released for
      free. */
  predicate Answers(r: Row, r': Row, e: OwnerEvidence) {
    && (r'.state == Succeeded <==> e.outcome == OwnerSucceeded) && (r'.state == Failed <==> e.outcome != OwnerSucceeded)
    && (e.outcome == OwnerNotDispatched ==>
          r'.dispatch == NotDispatched && r'.reservation == Released && r'.actual == Cost(0, 0, 0))
    && (e.outcome != OwnerNotDispatched ==>
          r'.dispatch == Acknowledged && r'.reservation == Reconciled && r'.actual == Cost(e.calls, e.bytes, 0))
    && r'.code == e.code && r'.recovery == None && r'.claimState == Completed && r'.lock == r.lock + 1
    && r' == r.(state := r'.state, dispatch := r'.dispatch, reservation := r'.reservation, actual := r'.actual,
                code := r'.code, recovery := r'.recovery, claimState := r'.claimState, lock := r'.lock)
  }

  /** The answer comes from the worker the attempt is handed to, and for the request it was sent under. */
  predicate Heard(r: Row, worker: string, e: OwnerEvidence) {
    && r.backend == Some(e.request) && r.recovery.Some? && r.recovery.value.owner == worker
  }

  /** An answer closes an UNKNOWN attempt exactly when it is heard, not itself unknown, within the reservation, and the
      attempt reserved no objects; an unknown answer only gives the attempt back. */
  lemma AnswerExactly(s: Ledger, id: Uuid, worker: string, e: OwnerEvidence)
    requires id in s.rows && s.rows[id].state == Unknown && s.rows[id].reservation == InDoubt
    ensures var t, r := ApplyOwnerEvidence(s, id, worker, e), s.rows[id];
            && (t.outcome.Done? <==>
                  && Heard(r, worker, e)
                  && (e.outcome != OwnerUnknown ==>
                        && 0 <= e.calls <= r.admission.reserved.calls && 0 <= e.bytes <= r.admission.reserved.bytes
                        && r.admission.reserved.objects <= 0))
            && (t.outcome.Refused? ==> t.db == s)
            && (t.outcome.Done? ==> OnlyRow(s, t.db, id))
            && (t.outcome.Done? && e.outcome == OwnerUnknown ==> t.db.rows[id] == r.(recovery := None))
            && (t.outcome.Done? && e.outcome != OwnerUnknown ==> Answers(r, t.db.rows[id], e))
  {
    hide OwnerSettle, Answers;
    OwnerSettleWrites(s, id, e);
  }

  lemma OwnerSettleWrites(s: Ledger, id: Uuid, e: OwnerEvidence)
    requires id in s.rows
    ensures OnlyRow(s, OwnerSettle(s, id, e), id)
    ensures e.outcome != OwnerUnknown ==> Answers(s.rows[id], OwnerSettle(s, id, e).rows[id], e)
  {
    hide Settle, Lookup, Block;
  }

  // ---- Evidence.

  /** A filed report is well formed: it names a final state, and proof that nothing was dispatched reports nothing
      else. */
  predicate Presentable(e: Report) {
    && e.terminal in {Succeeded, Failed} && e.actual >= 0
    && (e.kind == OwnerProvesNoDispatch ==>
          e.terminal == Failed && e.code == "DISPATCH_NOT_STARTED" && e.actual == 0 && |e.hashes| == 0 &&
          e.resultRef == "")
    && (e.kind == OwnerResult ==> e.resultRef != "")
  }

  /** A report is filed once, for an attempt its owner was sent; another report for the same request is a conflict. */
  lemma FilingExactly(s: Ledger, ref: EvidenceRef, report: Report)
    ensures var t := InsertVerifiedEvidence(s, ref, report);
            && (ref in s.inbox ==>
                  t.db == s && (if s.inbox[ref].report == report then t.outcome == Done(true)
                                else t.outcome == Refused(IngressConflict)))
            && (ref !in s.inbox ==>
                  (t.outcome.Done? <==>
                     && ref.request in s.requests && s.requests[ref.request] in s.rows
                     && s.rows[s.requests[ref.request]].admission.claim.owner == ref.owner && Presentable(report)))
            && (ref !in s.inbox && t.outcome.Done? ==>
                  && t.outcome.value == false
                  && var id := s.requests[ref.request];
                     t.db == s.(inbox := s.inbox[ref := Evidence(id, s.rows[id].admission.window, report, Verified)]))
            && (t.outcome.Refused? ==> t.db == s)
  {
  }

  predicate UrlSafe(c: char) {
    'a' <= c <= 'z' || 'A' <= c <= 'Z' || '0' <= c <= '9' || c == '-' || c == '_'
  }

  /** An object hash of the first key version: an algorithm and a token of 32 to 512 url-safe characters. */
  predicate ObjectHash(h: string) {
    && |h| >= 15 && (h[..15] == "v1:hmac-sha256:" || h[..15] == "v1:hmac-sha384:")
    && 32 <= |h| - 15 <= 512 && forall i :: 15 <= i < |h| ==> UrlSafe(h[i])
  }

  lemma {:induction false} UpToMeans(h: string, c: char)
    ensures var v := UpTo(h, c);
            && |v| <= |h| && v == h[..|v|] && (forall i :: 0 <= i < |v| ==> h[i] != c) && (|v| < |h| ==> h[|v|] == c)
  {
    if h != "" && h[0] != c {
      UpToMeans(h[1..], c);
      assert h == [h[0]] + h[1..];
    }
  }

  lemma HashMeans(h: string)
    ensures SoundHash(h, {"v1"}) <==> ObjectHash(h)
  {
    UpToMeans(h, ':');
    var v := UpTo(h, ':');
    if |h| >= 15 {
      assert h[..15] == h[..2] + h[2..15];
      if ObjectHash(h) {
        assert h[0] == h[..15][0] == 'v' && h[1] == h[..15][1] == '1' && h[2] == h[..15][2] == ':';
        assert |v| == 2;
        assert v == "v1";
        assert h[2..15] == h[..15][2..];
        assert "v1:hmac-sha256:"[2..] == ":hmac-sha256:" && "v1:hmac-sha384:"[2..] == ":hmac-sha384:";
      }
      if v == "v1" {
        assert "v1:hmac-sha256:" == "v1" + ":hmac-sha256:" && "v1:hmac-sha384:" == "v1" + ":hmac-sha384:";
      }
    }
  }

  /** Evidence an uncertain attempt is closed with: every hash sound, as many different ones as reported, no more than
      owed, and none at all where nothing was dispatched. */
  predicate Trusted(e: Report, owed: int) {
    && (forall h :: h in e.hashes ==> ObjectHash(h))
    && e.actual == |set h | h in e.hashes| && e.actual <= owed
    && (e.kind == OwnerProvesNoDispatch ==> e.hashes == [])
  }

  lemma TrustMeans(e: Report, owed: int)
    ensures Violation(e, {"v1"}, owed).None? <==> Trusted(e, owed)
    ensures Violation(e, {"v1"}, owed) == Some(CryptoViolation) <==> exists h :: h in e.hashes && !ObjectHash(h)
  {
    hide SoundHash, ObjectHash;
    forall h | h in e.hashes ensures SoundHash(h, {"v1"}) <==> ObjectHash(h) {
      HashMeans(h);
    }
    assert forall i :: 0 <= i < |e.hashes| ==> e.hashes[i] in e.hashes;
    if e.hashes == [] {
      assert (set h | h in e.hashes) == {};
    }
  }

  /** The report closes the attempt as it says; a reservation still held is released. */
  predicate Compensates(r: Row, r': Row, ref: EvidenceRef, e: Report) {
    && r.debt.Active? && r'.debt == Debt.Resolved(r.debt.amount, ref)
    && r'.state == e.terminal && r'.code == e.code && r'.revision == r.revision + 1 && r'.lock == r.lock + 1
    && (r'.dispatch == if e.kind == OwnerProvesNoDispatch then NotDispatched else Acknowledged)
    && (r.state == Unknown ==>
          r'.reservation == Released && r'.actual == Cost(0, 0, 0) && r'.claimState == Completed)
    && (r.state != Unknown ==>
          r'.reservation == r.reservation && r'.actual == r.actual && r'.claimState == r.claimState)
    && r' == r.(debt := r'.debt, state := r'.state, code := r'.code, revision := r'.revision, lock := r'.lock,
                dispatch := r'.dispatch, reservation := r'.reservation, actual := r'.actual,
                claimState := r'.claimState)
  }

  /** Rejected evidence fails the attempt and leaves everything it owes. */
  predicate Condemns(r: Row, r': Row, crypto: bool) {
    && r'.state == Failed && r'.dispatch == Acknowledged && r'.revision == r.revision + 1 && r'.lock == r.lock + 1
    && (r'.code == if crypto then "CRYPTO_VIOLATION" else "CONTRACT_VIOLATION")
    && r' == r.(state := r'.state, dispatch := r'.dispatch, code := r'.code, revision := r'.revision, lock := r'.lock)
  }

  /** The objects the report adds to the window, and the record of it. */
  predicate Inserts(s: Ledger, s': Ledger, id: Uuid, ref: EvidenceRef, b: Window, r: Row)
    requires ref in s.inbox && r.debt.Active?
  {
    var hashes := set h | h in s.inbox[ref].report.hashes;
    && r.admission.window in s'.windows && s'.windows[r.admission.window].objects == b.objects + hashes
    && s'.adjustments == s.adjustments[ref := Adjustment(r.admission.window, id, r.revision, |hashes - b.objects|,
                                                         -r.debt.amount)]
    && s'.inbox == s.inbox[ref := s.inbox[ref].(state := Consumed)]
  }

  /** The evidence names this attempt, which is uncertain at the expected revision and owes its objects. */
  predicate Pending(s: Ledger, id: Uuid, ref: EvidenceRef, expected: int) {
    && id in s.rows && ref in s.inbox && s.inbox[ref].attempt == id && s.inbox[ref].state == Verified
    && s.inbox[ref].window == s.rows[id].admission.window && s.rows[id].backend == Some(ref.request)
    && s.rows[id].admission.claim.owner == ref.owner && s.rows[id].revision == expected
    && s.rows[id].state in {Unknown, Unresolved} && s.rows[id].debt.Active?
  }

  /** A verdict on pending evidence under the first key version: trusted evidence compensates, once, an attempt given up
      on, or one still UNKNOWN that it proves was never dispatched; evidence that is not trusted fails the attempt. */
  lemma CompensationExactly(s: Ledger, id: Uuid, ref: EvidenceRef, expected: int, b: Window)
    requires Pending(s, id, ref, expected) && Untouched(s, s.rows[id].admission.window, b) && b.versions == {"v1"}
    ensures var t, r, e := LateCompensate(s, id, ref, expected), s.rows[id], s.inbox[ref].report;
            && (t.outcome == Done(CommittedDomainViolation) <==> !Trusted(e, r.debt.amount))
            && (t.outcome == Done(Compensated) <==>
                  && Trusted(e, r.debt.amount) && ref !in s.adjustments
                  && (r.state == Unknown ==> e.kind == OwnerProvesNoDispatch && r.reservation == InDoubt))
            && (t.outcome == Done(Compensated) ==>
                  && OnlyRow(s, t.db, id) && Compensates(r, t.db.rows[id], ref, e) && Inserts(s, t.db, id, ref, b, r))
            && (t.outcome == Done(CommittedDomainViolation) ==>
                  && OnlyRow(s, t.db, id)
                  && Condemns(r, t.db.rows[id], exists h :: h in e.hashes && !ObjectHash(h))
                  && t.db.inbox == s.inbox[ref := s.inbox[ref].(state := Quarantined)])
            && (t.outcome.Refused? ==> t.db == s)
  {
    hide Violation, Trusted, ObjectHash, Compensate, Violate;
    TrustMeans(s.inbox[ref].report, s.rows[id].debt.amount);
    CompensateWrites(s, id, ref, b);
    ViolateWrites(s, id, ref, CryptoViolation);
    ViolateWrites(s, id, ref, ContractViolation);
  }

  lemma CompensateWrites(s: Ledger, id: Uuid, ref: EvidenceRef, b: Window)
    requires id in s.rows && ref in s.inbox && s.rows[id].debt.Active? && Untouched(s, s.rows[id].admission.window, b)
    ensures var s', r := Compensate(s, id, ref), s.rows[id];
            OnlyRow(s, s', id) && Compensates(r, s'.rows[id], ref, s.inbox[ref].report) && Inserts(s, s', id, ref, b, r)
  {
    hide Compensate, Compensates, Inserts, Untouched;
    CompensateRow(s, id, ref);
    CompensateInserts(s, id, ref, b);
  }

  lemma CompensateRow(s: Ledger, id: Uuid, ref: EvidenceRef)
    requires id in s.rows && ref in s.inbox && s.rows[id].debt.Active?
    ensures var s' := Compensate(s, id, ref);
            OnlyRow(s, s', id) && id in s'.rows && Compensates(s.rows[id], s'.rows[id], ref, s.inbox[ref].report)
  {
    hide Block, CompensatedWindow, Lookup;
  }

  lemma CompensateInserts(s: Ledger, id: Uuid, ref: EvidenceRef, b: Window)
    requires id in s.rows && ref in s.inbox && s.rows[id].debt.Active? && Untouched(s, s.rows[id].admission.window, b)
    ensures Inserts(s, Compensate(s, id, ref), id, ref, b, s.rows[id])
  {
    hide Block;
  }

  lemma ViolateWrites(s: Ledger, id: Uuid, ref: EvidenceRef, why: Category)
    requires id in s.rows && ref in s.inbox && why in {CryptoViolation, ContractViolation}
    ensures var s' := Violate(s, id, ref, why);
            && OnlyRow(s, s', id) && Condemns(s.rows[id], s'.rows[id], why == CryptoViolation)
            && s'.inbox == s.inbox[ref := s.inbox[ref].(state := Quarantined)]
  {
  }
}
