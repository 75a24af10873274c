/** The store's transactions, statement by statement, against the ledger's specification. */
module LedgerStore {
  import opened Options
  import opened Tallies
  import opened Ledger
  import opened LedgerInvariant
  import opened LedgerSteps
  import opened LedgerRuns
  import opened LedgerClaims
  import opened LedgerEffects
  import opened RecoveryQueries

  // ---- Queries.

  method Earliest(times: map<Uuid, Option<int>>, among: set<Uuid>) returns (first: Uuid)
    requires among != {} && among <= times.Keys
    ensures first in among
    ensures forall id :: id in among && id != first ==> Before(times, first, id)
  {
    first :| first in among;
    var rest := among - {first};
    while rest != {}
      invariant rest < among && first in among && first !in rest
      invariant forall id :: id in among && id !in rest && id != first ==> Before(times, first, id)
      decreases |rest|
    {
      var id :| id in rest;
      if Before(times, id, first) {
        first := id;
      }
      rest := rest - {id};
    }
  }

  method SelectFirst(times: map<Uuid, Option<int>>, limit: nat) returns (ids: seq<Uuid>)
    ensures FirstInOrder(ids, times, limit)
  {
    ids := [];
    var rest := times.Keys;
    while |ids| < limit && rest != {}
      invariant |ids| <= limit && rest <= times.Keys
      invariant forall id :: id in times ==> (id in ids <==> id !in rest)
      invariant forall i :: 0 <= i < |ids| ==> ids[i] in times
      invariant forall i, j :: 0 <= i < j < |ids| ==> Before(times, ids[i], ids[j])
      invariant forall i, id :: 0 <= i < |ids| && id in rest ==> Before(times, ids[i], id)
      decreases |rest|
    {
      var first := Earliest(times, rest);
      ids := ids + [first];
      rest := rest - {first};
    }
  }

  /** `select coalesce(sum(debt_amount),0)` over the ACTIVE debts of a window. */
  method ActiveDebt(rows: map<Uuid, Row>, w: WindowKey) returns (total: int)
    ensures total == Sum(rows, WindowShare(w)).debt
  {
    hide Sum;
    total := 0;
    var rest := rows;
    SumEmpty<Uuid, Row>(map[], WindowShare(w));
    while rest != map[]
      invariant total + Sum(rest, WindowShare(w)).debt == Sum(rows, WindowShare(w)).debt
      decreases |rest|
    {
      var id :| id in rest;
      SumTakeOut(rest, WindowShare(w), id);
      if rest[id].admission.window == w && rest[id].debt.Active? {
        total := total + rest[id].debt.amount;
      }
      rest := rest - {id};
    }
  }

  // ---- What the invariant says about the rows a transaction reads.

  /** The columns each state implies, and the totals that cover an attempt's share. */
  predicate Consistent(s: Ledger, id: Uuid)
    requires id in s.rows
  {
    var r := s.rows[id];
    var w, g := Lookup(s.windows, r.admission.window, EMPTY_WINDOW), Lookup(s.guards, r.admission.group, NEW_GUARD);
    && r.admission.window in s.windows && r.admission.group in s.guards && r.admission.reserved.objects >= 0
    && (r.state == Admitted ==> r.dispatch == NotDispatched && r.reservation == Reserved && r.claimState == Bound)
    && (r.state == Running ==>
          r.dispatch == Dispatched && r.reservation == Reserved && r.claimState == Bound && r.debt == NoDebt)
    && (r.state == Unknown ==> r.reservation == InDoubt && r.claimState == ClaimUnknown && r.backend.Some?)
    && (r.reservation == Reserved ==> w.heldObjects >= r.admission.reserved.objects)
    && (r.debt.Active? ==> w.debtCache >= r.debt.amount)
    && (r.state == Unknown || r.state == Unresolved ==> g.blocking > 0)
  }

  lemma AttemptFacts(s: Ledger, id: Uuid)
    requires Inv(s) && id in s.rows
    ensures Consistent(s, id)
  {
    hide Inv, NonNegative, Share, Matches, GuardCounts, WindowTotal, GroupTotal;
    var r := s.rows[id];
    RowFacts(s, id);
    TotalsCover(s, r.admission.window, r.admission.group);
    BooksFacts(s, id);
    ShareCovered(r, WindowTotal(s, r.admission.window), s.windows[r.admission.window],
                 GroupTotal(s, r.admission.group), s.guards[r.admission.group]);
  }

  lemma BooksFacts(s: Ledger, id: Uuid)
    requires Inv(s) && id in s.rows && RowLinked(s, id)
    ensures Matches(s.windows[s.rows[id].admission.window], WindowTotal(s, s.rows[id].admission.window))
    ensures s.guards[s.rows[id].admission.group].blocking == GroupTotal(s, s.rows[id].admission.group).open
  {
    hide RowsLegal, Linked, InboxLinked, ObjectsExact, Matches, WindowTotal;
  }

  lemma RequestKept(s: Ledger, id: Uuid)
    requires Inv(s) && id in s.rows
    ensures s.rows[id].backend.Some? ==> s.requests[s.rows[id].backend.value := id] == s.requests
  {
    hide Inv, Legal;
    RowFacts(s, id);
  }

  lemma ShareCovered(r: Row, t: Tally, w: Window, t': Tally, g: Guard)
    requires NonNegative(t.Minus(Share(r))) && Matches(w, t) && NonNegative(t'.Minus(Share(r))) && g.blocking == t'.open
    ensures r.reservation == Reserved ==> w.heldObjects >= r.admission.reserved.objects
    ensures r.debt.Active? ==> w.debtCache >= r.debt.amount
    ensures Open(r) ==> g.blocking > 0
  {
  }

  // ---- Row steps. Each returns the workspace after its statements, or the error that rolls the transaction back.

  method ExpireOne(tx: Ledger, id: Uuid) returns (out: Outcome<Ledger>)
    ensures Inv(tx) && id in tx.rows ==> out == Done(ExpireAdmission(tx, id))
  {
    hide Inv;
    if id !in tx.rows {
      return Refused(NoRows);
    }
    if Inv(tx) {
      AttemptFacts(tx, id);
    }
    var row, w := tx.rows[id], tx.rows[id].admission.window;
    if row.state != Admitted {
      return Done(tx);
    }
    var window := Lookup(tx.windows, w, EMPTY_WINDOW);
    var held := row.admission.reserved;
    window := window.(heldCalls := window.heldCalls - held.calls, heldBytes := window.heldBytes - held.bytes,
                      heldObjects := window.heldObjects - held.objects);
    if window.heldObjects < 0 {
      return Refused(ConstraintViolation);
    }
    if row.dispatch != NotDispatched {
      return Refused(CasFailed);
    }
    row := row.(state := Failed, code := "DISPATCH_NOT_STARTED", lock := row.lock + 1);
    if row.reservation != Reserved {
      return Refused(CasFailed);
    }
    row := row.(reservation := Released, actual := NO_COST);
    if row.claimState != Bound {
      return Refused(CasFailed);
    }
    row := row.(claimState := Completed);
    return Done(tx.(rows := tx.rows[id := row], windows := tx.windows[w := window],
                    audit := tx.audit + [DispatchNotStarted(id)]));
  }

  method MarkOneStale(tx: Ledger, id: Uuid, now: int) returns (out: Outcome<Ledger>)
    ensures Inv(tx) && id in tx.rows ==> out == Done(MarkStale(tx, id, now))
    ensures Inv(tx) && id in tx.rows ==>
              && OnlyRow(tx, out.value, id)
              && if tx.rows[id].state == Running && tx.rows[id].lease.Some? && tx.rows[id].lease.value < now then
                   Doubts(tx.rows[id], out.value.rows[id], now)
                 else out.value == tx
  {
    hide Inv, Doubts;
    if id in tx.rows && tx.rows[id].state == Running && tx.rows[id].lease.Some? && tx.rows[id].lease.value < now {
      StaleMeans(tx.rows[id], now);
    }
    if id !in tx.rows {
      return Refused(NoRows);
    }
    if Inv(tx) {
      AttemptFacts(tx, id);
    }
    var row, w, g := tx.rows[id], tx.rows[id].admission.window, tx.rows[id].admission.group;
    var objects := row.admission.reserved.objects;
    if row.state != Running || row.lease.None? || row.lease.value >= now {
      return Done(tx);
    }
    row := row.(state := Unknown, dispatch := DispatchUnknown, unknownSince := Some(now), lease := None,
                lock := row.lock + 1);
    if g !in tx.guards {
      return Refused(CasFailed);
    }
    var guard := tx.guards[g];
    guard := guard.(blocking := guard.blocking + 1);
    var window := Lookup(tx.windows, w, EMPTY_WINDOW);
    window := window.(heldObjects := window.heldObjects - objects, debtCache := window.debtCache + objects);
    if window.heldObjects < 0 {
      return Refused(ConstraintViolation);
    }
    if objects > 0 {
      if row.debt != NoDebt {
        return Refused(ConstraintViolation);
      }
      row := row.(debt := Active(objects));
    }
    if row.reservation != Reserved {
      return Refused(CasFailed);
    }
    row := row.(reservation := InDoubt);
    if row.claimState != Bound {
      return Refused(CasFailed);
    }
    row := row.(claimState := ClaimUnknown);
    return Done(tx.(rows := tx.rows[id := row], windows := tx.windows[w := window], guards := tx.guards[g := guard]));
  }

  method SettleCall(tx: Ledger, id: Uuid, actual: Cost, success: bool, backend: string) returns (t: Txn<()>)
    ensures Inv(tx) ==> t == Reconcile(tx, id, actual, success, backend)
    ensures t.outcome.Refused? ==> t.db == tx
  {
    hide Inv, Lookup;
    if id !in tx.rows {
      return Txn(tx, Refused(NoRows));
    }
    if Inv(tx) {
      RequestKept(tx, id);
    }
    var row, w := tx.rows[id], tx.rows[id].admission.window;
    var reserved := row.admission.reserved;
    if row.reservation == Reconciled {
      return Txn(tx, Done(()));
    }
    var final := if success then Succeeded else Failed;
    if actual.objects < 0 || actual.objects > reserved.objects {
      return Txn(tx, Refused(ObjectsExceedReservation));
    }
    var window := Lookup(tx.windows, w, EMPTY_WINDOW);
    window := window.(heldCalls := window.heldCalls - reserved.calls, heldBytes := window.heldBytes - reserved.bytes,
                      heldObjects := window.heldObjects - reserved.objects,
                      usedCalls := window.usedCalls + actual.calls,
                      usedBytes := window.usedBytes + actual.bytes, usedObjects := window.usedObjects + actual.objects);
    assert window == Settle(Lookup(tx.windows, w, EMPTY_WINDOW), reserved, actual);
    if window.heldObjects < 0 || window.usedObjects < 0 {
      return Txn(tx, Refused(ConstraintViolation));
    }
    row := row.(reservation := Reconciled, actual := actual);
    var requests := tx.requests;
    if row.backend.None? {
      if backend in requests {
        return Txn(tx, Refused(ConstraintViolation));
      }
      row := row.(backend := Some(backend));
      requests := requests[backend := id];
    }
    row := row.(state := final, dispatch := Acknowledged, lease := None, lock := row.lock + 1);
    assert row == ReconciledRow(tx.rows[id], actual, success, backend);
    assert Inv(tx) ==> requests == tx.requests[row.backend.value := id];
    return Txn(Put(tx, id, row, window).(requests := requests), Done(()));
  }

  method ExpireOneUnknown(tx: Ledger, id: Uuid) returns (out: Outcome<Ledger>)
    ensures Inv(tx) && id in tx.rows && tx.rows[id].state == Unknown ==> out == Done(ExpireUnknownOne(tx, id))
  {
    hide Inv;
    if id !in tx.rows || tx.rows[id].state != Unknown {
      return Refused(NoRows);
    }
    if Inv(tx) {
      AttemptFacts(tx, id);
    }
    var row, w := tx.rows[id], tx.rows[id].admission.window;
    var calls, bytes := row.admission.reserved.calls, row.admission.reserved.bytes;
    if row.reservation != InDoubt {
      return Refused(ReservationMismatch);
    }
    var window := Lookup(tx.windows, w, EMPTY_WINDOW);
    window := window.(heldCalls := window.heldCalls - calls, heldBytes := window.heldBytes - bytes,
                      usedCalls := window.usedCalls + calls, usedBytes := window.usedBytes + bytes);
    row := row.(reservation := Reconciled, actual := Cost(calls, bytes, 0));
    if row.claimState != ClaimUnknown {
      return Refused(CasFailed);
    }
    row := row.(claimState := Completed);
    row := row.(state := Unresolved, code := "MAX_UNKNOWN_HOLD", recovery := None, lock := row.lock + 1);
    return Done(tx.(rows := tx.rows[id := row], windows := tx.windows[w := window]));
  }

  /** The owner's verdict on an UNKNOWN attempt without objects. */
  method SettleOne(tx: Ledger, id: Uuid, worker: string, e: OwnerEvidence) returns (out: Outcome<Ledger>)
    requires id in tx.rows && e.outcome != OwnerUnknown
    ensures Inv(tx) && tx.rows[id].state == Unknown && tx.rows[id].recovery.Some? &&
            tx.rows[id].recovery.value.owner == worker ==>
              out == Done(OwnerSettle(tx, id, e))
    ensures tx.rows[id].recovery.None? && Inv(tx) && tx.rows[id].state == Unknown ==> out == Refused(CasFailed)
  {
    hide Inv;
    if Inv(tx) {
      AttemptFacts(tx, id);
    }
    var row, w, g := tx.rows[id], tx.rows[id].admission.window, tx.rows[id].admission.group;
    var final, dispatch, reservation, calls, bytes := Failed, Acknowledged, Reconciled, e.calls, e.bytes;
    if e.outcome == OwnerSucceeded {
      final := Succeeded;
    }
    if e.outcome == OwnerNotDispatched {
      dispatch, reservation, calls, bytes := NotDispatched, Released, 0, 0;
    }
    var window := Lookup(tx.windows, w, EMPTY_WINDOW);
    window := window.(heldCalls := window.heldCalls - row.admission.reserved.calls,
                      heldBytes := window.heldBytes - row.admission.reserved.bytes,
                      usedCalls := window.usedCalls + calls, usedBytes := window.usedBytes + bytes);
    if g !in tx.guards || tx.guards[g].blocking <= 0 {
      return Refused(CasFailed);
    }
    var guard := tx.guards[g];
    guard := guard.(blocking := guard.blocking - 1);
    if row.state != Unknown || row.recovery.None? || row.recovery.value.owner != worker {
      return Refused(CasFailed);
    }
    row := row.(state := final, dispatch := dispatch, code := e.code, recovery := None, lock := row.lock + 1);
    if row.reservation != InDoubt {
      return Refused(CasFailed);
    }
    row := row.(reservation := reservation, actual := Cost(calls, bytes, 0));
    if row.claimState != ClaimUnknown {
      return Refused(CasFailed);
    }
    row := row.(claimState := Completed);
    return Done(tx.(rows := tx.rows[id := row], windows := tx.windows[w := window], guards := tx.guards[g := guard]));
  }

  /** Collect the distinct hashes and notice any unsound one. */
  method InspectHashes(hashes: seq<string>, versions: set<string>) returns (unique: set<string>, unsound: bool)
    ensures unique == set h | h in hashes
    ensures unsound <==> exists i :: 0 <= i < |hashes| && !SoundHash(hashes[i], versions)
  {
    unique, unsound := {}, false;
    for i := 0 to |hashes|
      invariant unique == set h | h in hashes[..i]
      invariant unsound <==> exists j :: 0 <= j < i && !SoundHash(hashes[j], versions)
    {
      assert hashes[..i + 1] == hashes[..i] + [hashes[i]];
      unique := unique + {hashes[i]};
      if !SoundHash(hashes[i], versions) {
        unsound := true;
      }
    }
    assert hashes[..|hashes|] == hashes;
  }

  /** Moving one hash from the pending to the inserted side. */
  lemma OneMore(unique: set<string>, rest: set<string>, hash: string, objects: set<string>)
    requires rest <= unique && hash in rest
    ensures objects + (unique - rest) + {hash} == objects + (unique - (rest - {hash})) && hash !in unique - rest
    ensures |unique - (rest - {hash}) - objects| == |unique - rest - objects| + (if hash in objects then 0 else 1)
  {
    assert unique - (rest - {hash}) == (unique - rest) + {hash};
    if hash in objects {
      assert unique - (rest - {hash}) - objects == unique - rest - objects;
    } else {
      assert unique - (rest - {hash}) - objects == (unique - rest - objects) + {hash};
    }
  }

  /** Insert each hash, `on conflict do nothing`, and count the rows inserted. */
  method InsertObjects(objects: set<string>, unique: set<string>) returns (stored: set<string>, inserted: nat)
    ensures stored == objects + unique && inserted == |unique - objects|
  {
    stored, inserted := objects, 0;
    var rest := unique;
    assert unique - rest == {};
    while rest != {}
      invariant rest <= unique && stored == objects + (unique - rest) && inserted == |unique - rest - objects|
      decreases |rest|
    {
      var hash :| hash in rest;
      OneMore(unique, rest, hash, objects);
      if hash !in stored {
        inserted := inserted + 1;
      }
      stored := stored + {hash};
      rest := rest - {hash};
    }
    assert unique - rest == unique;
  }

  lemma LookupStored(s: Ledger, id: Uuid)
    requires id in s.rows && Consistent(s, id)
    ensures Lookup(s.guards, s.rows[id].admission.group, NEW_GUARD) == s.guards[s.rows[id].admission.group]
  {
  }

  /** An uncertain attempt at the expected revision, and evidence no verdict has used. */
  predicate Adjudicable(s: Ledger, id: Uuid, ref: EvidenceRef, expected: int)
    requires id in s.rows && ref in s.inbox
  {
    && s.rows[id].revision == expected && (s.rows[id].state == Unknown || s.rows[id].state == Unresolved)
    && s.inbox[ref].state == Verified
  }

  method ViolateOne(tx: Ledger, id: Uuid, ref: EvidenceRef, why: Category, expected: int) returns (out: Outcome<Ledger>)
    requires id in tx.rows && ref in tx.inbox
    ensures Adjudicable(tx, id, ref, expected) ==> out == Done(Violate(tx, id, ref, why))
  {
    var row, e := tx.rows[id], tx.inbox[ref];
    if row.revision != expected || (row.state != Unknown && row.state != Unresolved) {
      return Refused(CasFailed);
    }
    row := row.(state := Failed, dispatch := Acknowledged,
                code := if why == CryptoViolation then "CRYPTO_VIOLATION" else "CONTRACT_VIOLATION",
                revision := row.revision + 1, lock := row.lock + 1);
    if e.state != Verified {
      return Refused(CasFailed);
    }
    return Done(tx.(rows := tx.rows[id := row], inbox := tx.inbox[ref := e.(state := Quarantined)],
                    incidents := tx.incidents + {(ref, why)}));
  }

  /** Accept evidence whose distinct hashes are `unique`. */
  method CompensateOne(tx: Ledger, id: Uuid, ref: EvidenceRef, unique: set<string>, expected: int)
    returns (out: Outcome<Ledger>)
    requires id in tx.rows && ref in tx.inbox && tx.rows[id].debt.Active? &&
             unique == (set h | h in tx.inbox[ref].report.hashes)
    ensures Inv(tx) && Adjudicable(tx, id, ref, expected) ==>
              out == if tx.rows[id].state == Unknown &&
                        (tx.inbox[ref].report.kind != OwnerProvesNoDispatch || tx.rows[id].reservation != InDoubt)
                     then Refused(NeedsNoDispatchProof)
                     else if ref in tx.adjustments then Refused(ConstraintViolation)
                     else Done(Compensate(tx, id, ref))
  {
    hide Inv, Lookup;
    if Inv(tx) {
      AttemptFacts(tx, id);
      LookupStored(tx, id);
    }
    var row, e := tx.rows[id], tx.inbox[ref];
    var w, g, debt := row.admission.window, row.admission.group, row.debt.amount;
    var window := Lookup(tx.windows, w, EMPTY_WINDOW);
    var stored, inserted := InsertObjects(window.objects, unique);
    window := window.(objects := stored);
    row := row.(debt := Debt.Resolved(debt, ref));
    if window.debtCache < debt {
      return Refused(CasFailed);
    }
    window := window.(usedObjects := window.usedObjects + inserted, debtCache := window.debtCache - debt);
    if g !in tx.guards || tx.guards[g].blocking <= 0 {
      return Refused(CasFailed);
    }
    var guard := tx.guards[g];
    guard := guard.(blocking := guard.blocking - 1);
    var state := row.state;
    if state == Unknown {
      if e.report.kind != OwnerProvesNoDispatch || row.reservation != InDoubt {
        return Refused(NeedsNoDispatchProof);
      }
      window := window.(heldCalls := window.heldCalls - row.admission.reserved.calls,
                        heldBytes := window.heldBytes - row.admission.reserved.bytes);
      row := row.(reservation := Released, actual := NO_COST);
      if row.claimState != ClaimUnknown {
        return Refused(CasFailed);
      }
      row := row.(claimState := Completed);
    }
    if ref in tx.adjustments {
      return Refused(ConstraintViolation);
    }
    var adjustment := Adjustment(w, id, expected, inserted, -debt);
    var dispatch := Acknowledged;
    if e.report.kind == OwnerProvesNoDispatch {
      dispatch := NotDispatched;
    }
    if row.revision != expected || (state != Unknown && state != Unresolved) {
      return Refused(CasFailed);
    }
    row := row.(state := e.report.terminal, dispatch := dispatch, code := e.report.code, revision := row.revision + 1,
                lock := row.lock + 1);
    if e.state != Verified {
      return Refused(CasFailed);
    }
    return Done(tx.(rows := tx.rows[id := row], windows := tx.windows[w := window], guards := tx.guards[g := guard],
                    inbox := tx.inbox[ref := e.(state := Consumed)], adjustments := tx.adjustments[ref := adjustment]));
  }

  // ---- The store.

  datatype Candidate = Candidate(id: Uuid, backend: string, owner: string, capability: string)

  method ExpireOverdue(tx0: Ledger, before: int, limit: nat) returns (out: Outcome<Ledger>, ids: seq<Uuid>)
    ensures FirstInOrder(ids, OverdueAdmissions(tx0, before), limit)
    ensures Inv(tx0) ==> out == Done(ExpireAdmissions(tx0, ids)) && Inv(out.value)
  {
    hide Inv, ExpireAdmission, OverdueAdmissions, FirstInOrder;
    ids := SelectFirst(OverdueAdmissions(tx0, before), limit);
    SelectedOverdue(tx0, before, ids, limit);
    var tx := tx0;
    for i := 0 to |ids|
      invariant Inv(tx0) ==> Inv(tx) && tx == ExpireAdmissions(tx0, ids[..i]) && tx.rows.Keys == tx0.rows.Keys
    {
      assert ids[..i + 1][..i] == ids[..i];
      var step := ExpireOne(tx, ids[i]);
      if step.Refused? {
        return step, ids;
      }
      if Inv(tx0) {
        ExpireAdmissionKeepsInv(tx, ids[i]);
        ExpireKeepsKeys(tx, ids[i]);
      }
      tx := step.value;
    }
    assert ids[..|ids|] == ids;
    return Done(tx), ids;
  }

  lemma SelectedOverdue(s: Ledger, before: int, ids: seq<Uuid>, limit: nat)
    requires FirstInOrder(ids, OverdueAdmissions(s, before), limit)
    ensures forall i :: 0 <= i < |ids| ==> ids[i] in s.rows
  {
  }

  lemma ExpireKeepsKeys(s: Ledger, id: Uuid)
    ensures ExpireAdmission(s, id).rows.Keys == s.rows.Keys
  {
  }

  method MarkOverdue(tx0: Ledger, now: int, limit: nat) returns (out: Outcome<Ledger>, ids: seq<Uuid>)
    ensures FirstInOrder(ids, StaleDispatches(tx0, now), limit)
    ensures Inv(tx0) ==> out == Done(MarkAllStale(tx0, ids, now)) && Inv(out.value)
  {
    hide Inv, MarkStale, StaleDispatches, FirstInOrder;
    ids := SelectFirst(StaleDispatches(tx0, now), limit);
    SelectedStale(tx0, now, ids, limit);
    var tx := tx0;
    for i := 0 to |ids|
      invariant Inv(tx0) ==> Inv(tx) && tx == MarkAllStale(tx0, ids[..i], now) && tx.rows.Keys == tx0.rows.Keys
    {
      assert ids[..i + 1][..i] == ids[..i];
      var step := MarkOneStale(tx, ids[i], now);
      if step.Refused? {
        return step, ids;
      }
      if Inv(tx0) {
        MarkStaleKeepsInv(tx, ids[i], now);
        MarkKeepsKeys(tx, ids[i], now);
      }
      tx := step.value;
    }
    assert ids[..|ids|] == ids;
    return Done(tx), ids;
  }

  lemma SelectedStale(s: Ledger, now: int, ids: seq<Uuid>, limit: nat)
    requires FirstInOrder(ids, StaleDispatches(s, now), limit)
    ensures forall i :: 0 <= i < |ids| ==> ids[i] in s.rows
  {
  }

  lemma MarkKeepsKeys(s: Ledger, id: Uuid, now: int)
    ensures MarkStale(s, id, now).rows.Keys == s.rows.Keys
  {
  }

  /** The candidates describe the claimed attempts, in order. */
  predicate Described(s: Ledger, ids: seq<Uuid>, candidates: seq<Candidate>) {
    |candidates| == |ids| &&
    forall i :: 0 <= i < |ids| ==>
      && ids[i] in s.rows && s.rows[ids[i]].backend.Some?
      && candidates[i] == Candidate(ids[i], s.rows[ids[i]].backend.value, s.rows[ids[i]].admission.claim.owner,
                                    s.rows[ids[i]].admission.claim.attempt.capability)
  }

  /** Scan the selected rows; a row without a backend request cannot be scanned. */
  method Describe(tx: Ledger, ids: seq<Uuid>) returns (out: Outcome<seq<Candidate>>)
    requires forall i :: 0 <= i < |ids| ==> ids[i] in tx.rows
    ensures out.Done? <==> forall i :: 0 <= i < |ids| ==> tx.rows[ids[i]].backend.Some?
    ensures out.Done? ==> Described(tx, ids, out.value)
  {
    var candidates := [];
    for i := 0 to |ids|
      invariant Described(tx, ids[..i], candidates)
    {
      var row := tx.rows[ids[i]];
      if row.backend.None? {
        return Refused(NoRows);
      }
      candidates := candidates + [Candidate(ids[i], row.backend.value, row.admission.claim.owner,
                                            row.admission.claim.attempt.capability)];
    }
    assert ids[..|ids|] == ids;
    return Done(candidates);
  }

  method ClaimSome(tx0: Ledger, worker: string, now: int, lease: int, limit: nat)
    returns (out: Outcome<Ledger>, ids: seq<Uuid>, candidates: seq<Candidate>)
    ensures FirstInOrder(ids, ClaimableAttempts(tx0, now), limit)
    ensures Inv(tx0) ==>
              out == Done(ClaimAll(tx0, ids, worker, now, lease)) && Inv(out.value) && Described(tx0, ids, candidates)
  {
    hide Inv, ClaimableAttempts, FirstInOrder, Described, Claimable;
    ids := SelectFirst(ClaimableAttempts(tx0, now), limit);
    SelectedClaimable(tx0, now, ids, limit);
    if Inv(tx0) {
      forall i | 0 <= i < |ids| ensures tx0.rows[ids[i]].backend.Some? { AttemptFacts(tx0, ids[i]); }
      ClaimAllKeepsInv(tx0, ids, worker, now, lease);
    }
    var described := Describe(tx0, ids);
    if described.Refused? {
      return Refused(described.error), ids, [];
    }
    candidates := described.value;
    var tx := tx0;
    for i := 0 to |ids|
      invariant tx == ClaimAll(tx0, ids[..i], worker, now, lease)
      invariant forall j :: i <= j < |ids| ==> ids[j] in tx.rows && tx.rows[ids[j]] == tx0.rows[ids[j]]
    {
      assert ids[..i + 1][..i] == ids[..i];
      var row := tx.rows[ids[i]];
      tx := tx.(rows := tx.rows[ids[i] := row.(recovery := Some(RecoveryLease(worker, now + lease)))]);
    }
    assert ids[..|ids|] == ids;
    return Done(tx), ids, candidates;
  }

  lemma SelectedClaimable(s: Ledger, now: int, ids: seq<Uuid>, limit: nat)
    requires FirstInOrder(ids, ClaimableAttempts(s, now), limit)
    ensures forall i :: 0 <= i < |ids| ==>
              ids[i] in s.rows && Claimable(s.rows[ids[i]], now) && s.rows[ids[i]].state == Unknown
    ensures forall i, j :: 0 <= i < j < |ids| ==> ids[i] != ids[j]
  {
  }

  /** Give up on UNKNOWN attempts held too long. */
  method ExpireSome(tx0: Ledger, now: int, before: int, limit: nat)
    returns (out: Outcome<Ledger>, ids: seq<Uuid>, count: nat)
    ensures FirstInOrder(ids, OverdueUnknowns(tx0, now, before), limit)
    ensures Inv(tx0) ==> out == Done(ExpireUnknowns(tx0, ids)) && Inv(out.value) && count == |ids|
  {
    hide Inv, OverdueUnknowns, FirstInOrder, Claimable;
    ids := SelectFirst(OverdueUnknowns(tx0, now, before), limit);
    count := 0;
    SelectedUnknown(tx0, now, before, ids, limit);
    if Inv(tx0) {
      ExpireAllKeepsInv(tx0, ids);
    }
    var tx := tx0;
    for i := 0 to |ids|
      invariant Inv(tx0) ==> Inv(tx) && tx == ExpireUnknowns(tx0, ids[..i]) && count == i
      invariant Inv(tx0) ==> forall j :: i <= j < |ids| ==> ids[j] in tx.rows && tx.rows[ids[j]] == tx0.rows[ids[j]]
    {
      assert ids[..i + 1][..i] == ids[..i];
      if ids[i] in tx.rows && tx.rows[ids[i]].state == Unknown {
        var step := ExpireOneUnknown(tx, ids[i]);
        if step.Refused? {
          return step, ids, 0;
        }
        if Inv(tx0) {
          ExpireUnknownKeepsInv(tx, ids[i]);
        }
        tx := step.value;
        count := count + 1;
      }
    }
    assert ids[..|ids|] == ids;
    return Done(tx), ids, count;
  }

  lemma SelectedUnknown(s: Ledger, now: int, before: int, ids: seq<Uuid>, limit: nat)
    requires FirstInOrder(ids, OverdueUnknowns(s, now, before), limit)
    ensures forall i :: 0 <= i < |ids| ==> ids[i] in s.rows && s.rows[ids[i]].state == Unknown
    ensures forall i, j :: 0 <= i < j < |ids| ==> ids[i] != ids[j]
  {
  }

  /** What the caller is told about the attempt. */
  datatype CompensationResult = CompensationResult(disposition: Disposition, state: AttemptState, code: string,
                                                   revision: int)

  predicate Reports(result: CompensationResult, d: Disposition, row: Row) {
    result == CompensationResult(d, row.state, row.code, row.revision)
  }

  lemma ViolatedReport(s: Ledger, id: Uuid, ref: EvidenceRef, why: Category)
    requires id in s.rows && ref in s.inbox
    ensures id in Violate(s, id, ref, why).rows
    ensures var row := Violate(s, id, ref, why).rows[id];
            && row.state == Failed && row.revision == s.rows[id].revision + 1
            && row.code == if why == CryptoViolation then "CRYPTO_VIOLATION" else "CONTRACT_VIOLATION"
  {
  }

  lemma CompensatedReport(s: Ledger, id: Uuid, ref: EvidenceRef)
    requires id in s.rows && ref in s.inbox && s.rows[id].debt.Active?
    ensures id in Compensate(s, id, ref).rows
    ensures var row, report := Compensate(s, id, ref).rows[id], s.inbox[ref].report;
            row.state == report.terminal && row.code == report.code && row.revision == s.rows[id].revision + 1
  {
    hide Block, CompensatedWindow, Lookup;
  }

  function Verdict(out: Outcome<CompensationResult>): Outcome<Disposition> {
    if out.Done? then Done(out.value.disposition) else Refused(out.error)
  }

  /** The hash and contract checks of a report. */
  method InspectReport(e: Report, versions: set<string>, debt: int)
    returns (violation: Option<Category>, unique: set<string>)
    ensures violation == Violation(e, versions, debt) && unique == set h | h in e.hashes
  {
    hide SoundHash;
    var unsound;
    unique, unsound := InspectHashes(e.hashes, versions);
    violation := if unsound then Some(CryptoViolation) else None;
    if violation.None? && (|unique| != e.actual || e.actual > debt ||
                           (e.kind == OwnerProvesNoDispatch && (e.actual != 0 || |e.hashes| != 0))) {
      violation := Some(ContractViolation);
    }
  }

  /** The verdict on evidence for an attempt at the expected revision. */
  method Judge(tx: Ledger, id: Uuid, ref: EvidenceRef, expected: int)
    returns (t: Txn<Disposition>, result: CompensationResult)
    requires id in tx.rows && ref in tx.inbox && tx.rows[id].debt.Active? && tx.rows[id].backend.Some?
    ensures Inv(tx) && Adjudicable(tx, id, ref, expected) ==> t == Adjudicate(tx, id, ref)
    ensures t.outcome.Refused? ==> t.db == tx
    ensures Inv(tx) && Adjudicable(tx, id, ref, expected) && t.outcome.Done? ==>
              id in t.db.rows && Reports(result, t.outcome.value, t.db.rows[id])
  {
    hide Inv, Violation, Violate, Compensate;
    var row, e := tx.rows[id], tx.inbox[ref];
    result := CompensationResult(RejectedScope, row.state, row.code, row.revision);
    if e.attempt != id {
      return Txn(tx.(incidents := tx.incidents + {(ref, ScopeViolation)}), Done(RejectedScope)), result;
    }
    if e.window != row.admission.window || ref.owner != row.admission.claim.owner || ref.request != row.backend.value {
      if e.state != Verified {
        return Txn(tx, Refused(CasFailed)), result;
      }
      var tx' := tx.(inbox := tx.inbox[ref := e.(state := Quarantined)],
                     incidents := tx.incidents + {(ref, BindingViolation)});
      return Txn(tx', Done(RejectedBinding)), result.(disposition := RejectedBinding);
    }
    t, result := JudgeBound(tx, id, ref, expected);
  }

  /** The verdict on evidence bound to its attempt. */
  method JudgeBound(tx: Ledger, id: Uuid, ref: EvidenceRef, expected: int)
    returns (t: Txn<Disposition>, result: CompensationResult)
    requires id in tx.rows && ref in tx.inbox && tx.rows[id].debt.Active? && tx.rows[id].backend == Some(ref.request)
    requires tx.inbox[ref].attempt == id && tx.inbox[ref].window == tx.rows[id].admission.window
    requires ref.owner == tx.rows[id].admission.claim.owner
    ensures Inv(tx) && Adjudicable(tx, id, ref, expected) ==> t == Adjudicate(tx, id, ref)
    ensures t.outcome.Refused? ==> t.db == tx
    ensures Inv(tx) && Adjudicable(tx, id, ref, expected) && t.outcome.Done? ==>
              id in t.db.rows && Reports(result, t.outcome.value, t.db.rows[id])
  {
    hide Inv, Violation, Violate, Compensate, Lookup, Quarantine;
    var row, e := tx.rows[id], tx.inbox[ref];
    var versions := Lookup(tx.windows, row.admission.window, EMPTY_WINDOW).versions;
    var violation, unique := InspectReport(e.report, versions, row.debt.amount);
    var step;
    if violation.Some? {
      step := ViolateOne(tx, id, ref, violation.value, expected);
      var code := if violation.value == CryptoViolation then "CRYPTO_VIOLATION" else "CONTRACT_VIOLATION";
      result := CompensationResult(CommittedDomainViolation, Failed, code, expected + 1);
      ViolatedReport(tx, id, ref, violation.value);
    } else {
      step := CompensateOne(tx, id, ref, unique, expected);
      result := CompensationResult(Compensated, e.report.terminal, e.report.code, expected + 1);
      CompensatedReport(tx, id, ref);
    }
    if step.Refused? {
      return Txn(tx, Refused(step.error)), result;
    }
    return Txn(step.value, Done(result.disposition)), result;
  }

  datatype DebtCacheResult = DebtCacheResult(checked: nat, repaired: nat, delta: int)

  ghost predicate Drifted(s: Ledger, w: WindowKey) {
    w in s.windows && s.windows[w].debtCache != WindowTotal(s, w).debt
  }

  /** Windows in query order: by start, then by the row id the window was given. */
  predicate NoLater(v: WindowKey, w: WindowKey, rowId: WindowKey -> Uuid) {
    v.start < w.start || (v.start == w.start && rowId(v) <= rowId(w))
  }

  /** `ids` are the first `limit` windows with a wrong debt cache, in query order. */
  ghost predicate DriftedFirst(ids: seq<WindowKey>, s: Ledger, limit: int, rowId: WindowKey -> Uuid) {
    && (forall i :: 0 <= i < |ids| ==> Drifted(s, ids[i]))
    && (forall i, j :: 0 <= i < j < |ids| ==> ids[i] != ids[j] && NoLater(ids[i], ids[j], rowId))
    && (forall i, w :: 0 <= i < |ids| && Drifted(s, w) && w !in ids ==> NoLater(ids[i], w, rowId))
    && |ids| <= limit && (|ids| < limit ==> forall w :: Drifted(s, w) ==> w in ids)
  }

  lemma ChosenDrift(ids: seq<WindowKey>, s: Ledger, limit: int, rowId: WindowKey -> Uuid)
    requires DriftedFirst(ids, s, limit, rowId)
    ensures forall i :: 0 <= i < |ids| ==> Drifted(s, ids[i])
    ensures forall i, j :: 0 <= i < j < |ids| ==> ids[i] != ids[j]
  {
    hide Drifted, NoLater;
  }

  ghost function TotalDrift(s: Ledger, ids: seq<WindowKey>): int
    requires forall i :: 0 <= i < |ids| ==> ids[i] in s.windows
  {
    if ids == [] then 0
    else
      var w := ids[|ids| - 1];
      TotalDrift(s, ids[..|ids| - 1]) + WindowTotal(s, w).debt - s.windows[w].debtCache
  }

  method FindDrifted(s: Ledger) returns (found: set<WindowKey>)
    ensures forall w :: w in found <==> Drifted(s, w)
  {
    found := {};
    var rest := s.windows.Keys;
    while rest != {}
      invariant rest <= s.windows.Keys
      invariant forall w :: w in found <==> Drifted(s, w) && w !in rest
      decreases |rest|
    {
      var w :| w in rest;
      var debt := ActiveDebt(s.rows, w);
      if s.windows[w].debtCache != debt {
        found := found + {w};
      }
      rest := rest - {w};
    }
  }

  method EarliestWindow(among: set<WindowKey>, rowId: WindowKey -> Uuid) returns (first: WindowKey)
    requires among != {}
    ensures first in among && forall w :: w in among ==> NoLater(first, w, rowId)
  {
    first :| first in among;
    var rest := among - {first};
    while rest != {}
      invariant rest <= among && first in among
      invariant forall w :: w in among && w !in rest ==> NoLater(first, w, rowId)
      decreases |rest|
    {
      var w :| w in rest;
      if !NoLater(first, w, rowId) {
        first := w;
      }
      rest := rest - {w};
    }
  }

  method SelectDrifted(s: Ledger, limit: nat, rowId: WindowKey -> Uuid) returns (ids: seq<WindowKey>)
    ensures DriftedFirst(ids, s, limit, rowId)
  {
    hide Drifted;
    var rest := FindDrifted(s);
    ids := [];
    while |ids| < limit && rest != {}
      invariant |ids| <= limit
      invariant forall w :: w in rest <==> Drifted(s, w) && w !in ids
      invariant forall i :: 0 <= i < |ids| ==> Drifted(s, ids[i])
      invariant forall i, j :: 0 <= i < j < |ids| ==> ids[i] != ids[j] && NoLater(ids[i], ids[j], rowId)
      invariant forall i, w :: 0 <= i < |ids| && w in rest ==> NoLater(ids[i], w, rowId)
      decreases |rest|
    {
      var first := EarliestWindow(rest, rowId);
      ids := ids + [first];
      rest := rest - {first};
    }
  }

  /** One repair transaction: the window's new row and its delta, or an error that rolls it back. */
  method RepairOneCache(tx: Ledger, w: WindowKey) returns (out: Outcome<int>, tx': Ledger)
    ensures tx' == RepairDebtCache(tx, w)
    ensures out.Done? <==> w in tx.windows && tx.windows[w].debtCache >= 0 && WindowTotal(tx, w).debt >= 0
    ensures out.Done? ==> out.value == WindowTotal(tx, w).debt - tx.windows[w].debtCache
  {
    if w !in tx.windows {
      return Refused(NoRows), tx;
    }
    var cached := tx.windows[w].debtCache;
    var authoritative := ActiveDebt(tx.rows, w);
    if cached < 0 || authoritative < 0 {
      return Refused(NegativeDebt), tx;
    }
    var delta := authoritative - cached;
    if delta == 0 {
      return Done(0), tx;
    }
    tx' := tx.(windows := tx.windows[w := tx.windows[w].(debtCache := authoritative)],
               audit := tx.audit + [DebtCacheRepaired(w, cached, authoritative)]);
    return Done(delta), tx';
  }

  lemma SameRows(s: Ledger, s': Ledger, w: WindowKey)
    requires s.rows == s'.rows
    ensures WindowTotal(s, w) == WindowTotal(s', w)
  {
  }

  lemma RefusedRepair(s: Ledger, w: WindowKey)
    requires w in s.windows && !(s.windows[w].debtCache >= 0 && WindowTotal(s, w).debt >= 0)
    ensures RepairDebtCache(s, w) == s
  {
  }

  lemma RepairIsLocal(s: Ledger, w: WindowKey)
    ensures var s' := RepairDebtCache(s, w);
            s'.rows == s.rows && forall v :: v != w && v in s.windows ==>
              v in s'.windows && s'.windows[v] == s.windows[v]
  {
    hide WindowTotal;
    var s' := RepairDebtCache(s, w);
    assert s'.windows == s.windows || (w in s'.windows && s'.windows == s.windows[w := s'.windows[w]]);
  }

  lemma ReconcileNeedsRow(s: Ledger, id: Uuid, actual: Cost, success: bool, backend: string)
    requires id !in s.rows
    ensures Reconcile(s, id, actual, success, backend).outcome.Refused?
  {
  }

  lemma UnknownsInDoubt(s: Ledger)
    requires Inv(s)
    ensures forall id :: id in s.rows && s.rows[id].state == Unknown ==> s.rows[id].reservation == InDoubt
  {
    hide Inv, Legal;
    forall id | id in s.rows && s.rows[id].state == Unknown ensures s.rows[id].reservation == InDoubt {
      AttemptFacts(s, id);
    }
  }

  class Store {
    var db: Ledger

    constructor (manifests: set<string>)
      ensures db == Fresh(manifests) && Inv(db)
    {
      db := Fresh(manifests);
      new;
      FreshInv(manifests);
    }

    /** One serializable admission attempt. */
    method ReserveOnce(q: AdmissionRequest, now: int, spare: Uuid) returns (out: Outcome<Decision>)
      modifies this
      ensures Txn(db, out) == Reserve(old(db), q, now, spare)
      ensures Inv(old(db)) ==> Inv(db)
      ensures out.Done? && !out.value.replay ==> EntersWindow(db, out.value.attemptId, q, now)
    {
      hide Inv, Exceeds, InsertAccepted, AdmissionWindowBudget, EntersWindow;
      if Inv(db) {
        ReserveKeepsInv(db, q, now, spare);
      }
      AdmissionEnters(db, q, now, spare);
      if q.window <= 0 || q.threshold < 1 || q.maximum.calls < 1 {
        return Refused(InvalidPolicy);
      }
      var budget := AdmissionWindowBudget(q);
      if budget.None? {
        return Refused(UnsupportedBudget);
      }
      if q.Claim() in db.claims {
        var existing := db.claims[q.Claim()];
        if existing !in db.rows {
          return Refused(NoRows);
        }
        if db.rows[existing].admission.hash != q.hash {
          return Refused(IdempotencyConflict);
        }
        var state := db.rows[existing].state;
        if state == Unknown || state == Unresolved {
          return Refused(OutcomeUnknown);
        }
        return Done(Decision(existing, true));
      }
      var w := WindowKey(q.who, budget.value.policy, Truncate(now, q.window));
      var g := GroupKey(w, q.capability, q.version, q.fingerprint);
      var window := Lookup(db.windows, w, EMPTY_WINDOW);
      var debt := ActiveDebt(db.rows, w);
      if Exceeds(window, debt, q.maximum, budget.value.cap) {
        return Refused(BudgetExhausted);
      }
      var guard := Lookup(db.guards, g, NEW_GUARD);
      guard := guard.(equivalent := guard.equivalent + 1);
      if guard.blocking > 0 {
        return Refused(GroupLocked);
      }
      if guard.blocked || guard.equivalent >= q.threshold {
        return Refused(SelectionStall);
      }
      var id := if q.attemptId == NIL then spare else q.attemptId;
      if !InsertAccepted(db, q, id) {
        return Refused(ConstraintViolation);
      }
      window := Hold(window, q.maximum);
      db := db.(rows := db.rows[id := NewRow(q, w, g, now)], claims := db.claims[q.Claim() := id],
                keys := db.keys[q.Claim().attempt := id], windows := db.windows[w := window],
                guards := db.guards[g := guard]);
      return Done(Decision(id, false));
    }

    /** Settle a finished call; the invariant survives unless recovery already took the reservation. */
    method ReconcileCall(id: Uuid, actual: Cost, success: bool, backend: string) returns (out: Outcome<()>)
      modifies this
      ensures Inv(old(db)) ==> Txn(db, out) == Reconcile(old(db), id, actual, success, backend)
      ensures out.Refused? ==> db == old(db)
      ensures Inv(old(db)) ==>
                (Inv(db) <==> SettlementRejected(old(db), id, actual, backend) || Settleable(old(db), id))
      ensures Inv(old(db)) && out.Done? ==>
                && id in old(db).rows
                && (if old(db).rows[id].reservation == Reconciled then db == old(db)
                    else OnlyRow(old(db), db, id) && Settles(old(db).rows[id], db.rows[id], actual, success, backend))
    {
      hide Inv, Reconcile, SettlementRejected, Settleable, Settles;
      if Inv(db) {
        ReconcileExactly(db, id, actual, success, backend);
        if id in db.rows {
          SettlementExactly(db, id, actual, success, backend);
        } else {
          ReconcileNeedsRow(db, id, actual, success, backend);
        }
      }
      var t := SettleCall(db, id, actual, success, backend);
      db := t.db;
      return t.outcome;
    }

    method MarkRunning(id: Uuid, backend: string, lease: int, expected: int, now: int) returns (out: Outcome<()>)
      modifies this
      ensures Txn(db, out) == Dispatch(old(db), id, backend, lease, expected, now)
      ensures Inv(old(db)) ==> Inv(db)
      ensures out.Done? <==>
                && id in old(db).rows && old(db).rows[id].state == Admitted &&
                   old(db).rows[id].dispatch == NotDispatched
                && old(db).rows[id].lock == expected && backend !in old(db).requests
      ensures out.Done? ==>
                OnlyRow(old(db), db, id) && Dispatches(old(db).rows[id], db.rows[id], backend, now + lease)
    {
      hide Inv;
      DispatchExactly(db, id, backend, lease, expected, now);
      if Inv(db) {
        DispatchKeepsInv(db, id, backend, lease, expected, now);
      }
      if id !in db.rows || db.rows[id].state != Admitted || db.rows[id].dispatch != NotDispatched ||
         db.rows[id].lock != expected {
        return Refused(NoRows);
      }
      if backend in db.requests {
        return Refused(ConstraintViolation);
      }
      var row := db.rows[id];
      row := row.(state := Running, dispatch := Dispatched, backend := Some(backend), lease := Some(now + lease),
                  lock := row.lock + 1);
      db := db.(rows := db.rows[id := row], requests := db.requests[backend := id]);
      return Done(());
    }

    /** Fail overdue admissions, mark overdue dispatches UNKNOWN, and lease UNKNOWN attempts to `worker`. */
    method MarkStaleAndClaim(now: int, before: int, worker: string, lease: int, limit: nat)
      returns (out: Outcome<seq<Candidate>>, ghost expired: seq<Uuid>, ghost stale: seq<Uuid>, ghost claimed: seq<Uuid>)
      modifies this
      ensures out.Refused? ==> db == old(db)
      ensures Inv(old(db)) ==>
                var s1 := ExpireAdmissions(old(db), expired);
                var s2 := MarkAllStale(s1, stale, now);
                && out.Done? && Inv(db) && db == ClaimAll(s2, claimed, worker, now, lease)
                && FirstInOrder(expired, OverdueAdmissions(old(db), before), limit)
                && FirstInOrder(stale, StaleDispatches(s1, now), limit)
                && FirstInOrder(claimed, ClaimableAttempts(s2, now), limit)
                && Described(s2, claimed, out.value)
      ensures Inv(old(db)) ==>
                RecoveryPass(old(db), db, now, before, worker, lease, limit, expired, stale, claimed)
    {
      hide Inv, ExpireAdmissions, MarkAllStale, ClaimAll, FirstInOrder, Described, RecoveryPass, OverdueAdmissions,
        StaleDispatches, ClaimableAttempts;
      expired, stale, claimed, out := [], [], [], Done([]);
      var step, ids := ExpireOverdue(db, before, limit);
      expired := ids;
      if step.Refused? {
        return Refused(step.error), expired, stale, claimed;
      }
      step, ids := MarkOverdue(step.value, now, limit);
      stale := ids;
      if step.Refused? {
        return Refused(step.error), expired, stale, claimed;
      }
      var candidates;
      step, ids, candidates := ClaimSome(step.value, worker, now, lease, limit);
      claimed := ids;
      if step.Refused? {
        return Refused(step.error), expired, stale, claimed;
      }
      db := step.value;
      if Inv(old(db)) {
        PassIsRight(old(db), now, before, worker, lease, limit, expired, stale, claimed);
      }
      return Done(candidates), expired, stale, claimed;
    }

    /** Apply one owner answer to an UNKNOWN attempt; it rolls back on every error. */
    method ApplyEvidence(id: Uuid, worker: string, e: OwnerEvidence) returns (out: Outcome<()>)
      modifies this
      ensures out.Refused? ==> db == old(db)
      ensures Inv(old(db)) ==> Txn(db, out) == ApplyOwnerEvidence(old(db), id, worker, e) && Inv(db)
      ensures Inv(old(db)) && out.Done? ==>
                && id in old(db).rows
                && (if old(db).rows[id].state != Unknown then db == old(db)
                    else
                      && OnlyRow(old(db), db, id) && Heard(old(db).rows[id], worker, e)
                      && if e.outcome == OwnerUnknown then db.rows[id] == old(db).rows[id].(recovery := None)
                         else Answers(old(db).rows[id], db.rows[id], e))
    {
      hide Inv, OwnerSettle, Answers;
      if Inv(db) {
        OwnerEvidenceKeepsInv(db, id, worker, e);
        if id in db.rows && db.rows[id].state == Unknown {
          AttemptFacts(db, id);
          AnswerExactly(db, id, worker, e);
        }
      }
      if id !in db.rows || db.rows[id].backend.None? {
        return Refused(NoRows);
      }
      var row := db.rows[id];
      var owner := if row.recovery.Some? then row.recovery.value.owner else "";
      if row.state != Unknown {
        return Done(());
      }
      if owner != worker || row.backend.value != e.request {
        return Refused(InvalidOwnerEvidence);
      }
      if e.outcome == OwnerUnknown {
        if row.recovery.None? {
          return Refused(CasFailed);
        }
        db := db.(rows := db.rows[id := row.(recovery := None)]);
        return Done(());
      }
      if row.reservation != InDoubt {
        return Refused(ReservationMismatch);
      }
      var reserved := row.admission.reserved;
      if e.calls < 0 || e.bytes < 0 || e.calls > reserved.calls || e.bytes > reserved.bytes {
        return Refused(CostExceedsReservation);
      }
      if reserved.objects > 0 {
        return Refused(ObjectBearing);
      }
      var step := SettleOne(db, id, worker, e);
      if step.Refused? {
        return Refused(step.error);
      }
      db := step.value;
      return Done(());
    }

    method ExpireUnknown(now: int, before: int, limit: nat) returns (out: Outcome<nat>, ghost ids: seq<Uuid>)
      modifies this
      ensures out.Refused? ==> db == old(db)
      ensures Inv(old(db)) ==>
                && FirstInOrder(ids, OverdueUnknowns(old(db), now, before), limit)
                && db == ExpireUnknowns(old(db), ids) && Inv(db) && out == Done(|ids|)
                && GivingUpPass(old(db), db, now, before, limit, ids)
    {
      hide Inv, ExpireUnknowns, FirstInOrder, GivingUpPass, OverdueUnknowns;
      var step, chosen, count := ExpireSome(db, now, before, limit);
      ids := chosen;
      if step.Refused? {
        return Refused(step.error), ids;
      }
      db := step.value;
      if Inv(old(db)) {
        UnknownsInDoubt(old(db));
        GivingUpIsRight(old(db), now, before, limit, ids);
      }
      return Done(count), ids;
    }

    method InsertEvidence(ref: EvidenceRef, report: Report) returns (out: Outcome<bool>)
      modifies this
      ensures Txn(db, out) == InsertVerifiedEvidence(old(db), ref, report)
      ensures Inv(old(db)) ==> Inv(db)
    {
      hide Inv, WellFormedReport;
      if Inv(db) {
        InsertEvidenceKeepsInv(db, ref, report);
      }
      if ref in db.inbox {
        if db.inbox[ref].report != report {
          return Refused(IngressConflict);
        }
        return Done(true);
      }
      if ref.request !in db.requests {
        return Refused(OwnerMismatch);
      }
      var id := db.requests[ref.request];
      if id !in db.rows || db.rows[id].admission.claim.owner != ref.owner {
        return Refused(OwnerMismatch);
      }
      if !WellFormedReport(report) {
        return Refused(ConstraintViolation);
      }
      db := db.(inbox := db.inbox[ref := Evidence(id, db.rows[id].admission.window, report, Verified)]);
      return Done(false);
    }

    method CompensateLate(id: Uuid, ref: EvidenceRef, expected: int) returns (out: Outcome<CompensationResult>)
      modifies this
      ensures out.Refused? ==> db == old(db)
      ensures Inv(old(db)) ==> Txn(db, Verdict(out)) == LateCompensate(old(db), id, ref, expected) && Inv(db)
      ensures Inv(old(db)) && out.Done? ==> id in db.rows && Reports(out.value, out.value.disposition, db.rows[id])
    {
      hide Inv, Adjudicate;
      if Inv(db) {
        LateCompensateKeepsInv(db, id, ref, expected);
      }
      if ref !in db.inbox {
        return Refused(NoRows);
      }
      var preliminary := db.inbox[ref];
      if preliminary.attempt == id && (preliminary.state == Consumed || preliminary.state == Quarantined) {
        if id !in db.rows {
          return Refused(NoRows);
        }
        var disposition := IdempotentReplay;
        if preliminary.state == Quarantined {
          disposition := DomainViolationReplay;
        }
        var current := db.rows[id];
        return Done(CompensationResult(disposition, current.state, current.code, current.revision));
      }
      if id !in db.rows || db.rows[id].backend.None? {
        return Refused(NoRows);
      }
      var row := db.rows[id];
      if row.revision != expected || (row.state != Unresolved && row.state != Unknown) {
        return Refused(RevisionMismatch);
      }
      if !row.debt.Active? {
        return Refused(NoRows);
      }
      if preliminary.state == Consumed {
        return Done(CompensationResult(IdempotentReplay, row.state, row.code, row.revision));
      }
      if preliminary.state == Quarantined {
        return Done(CompensationResult(DomainViolationReplay, row.state, row.code, row.revision));
      }
      var t, result := Judge(db, id, ref, expected);
      db := t.db;
      if t.outcome.Refused? {
        return Refused(t.outcome.error);
      }
      return Done(result);
    }

    /** Repair drifted debt caches, one transaction per window; an error keeps the repairs already committed. */
    method ReconcileDebtCaches(limit: int, rowId: WindowKey -> Uuid)
      returns (result: DebtCacheResult, out: Outcome<()>, ghost ids: seq<WindowKey>)
      modifies this
      ensures limit < 1 ==> out == Refused(InvalidBatch) && db == old(db)
      ensures limit >= 1 ==>
                && DriftedFirst(ids, old(db), limit, rowId)
                && result.checked == |ids| && result.repaired <= |ids|
                && db == RepairDebtCaches(old(db), ids[..result.repaired])
                && result.delta == TotalDrift(old(db), ids[..result.repaired])
                && (if out.Done? then result.repaired == |ids| else
                      && result.repaired < |ids|
                      && var w := ids[result.repaired];
                         old(db).windows[w].debtCache < 0 || WindowTotal(old(db), w).debt < 0)
    {
      hide RepairDebtCache, WindowTotal, DriftedFirst;
      result, ids := DebtCacheResult(0, 0, 0), [];
      if limit < 1 {
        return result, Refused(InvalidBatch), ids;
      }
      var chosen := SelectDrifted(db, limit, rowId);
      ids := chosen;
      result := result.(checked := |chosen|);
      ChosenDrift(chosen, db, limit, rowId);
      assert chosen[..0] == [];
      for i := 0 to |chosen|
        invariant ids == chosen && result.checked == |ids| && result.repaired == i
        invariant db == RepairDebtCaches(old(db), ids[..i]) && db.rows == old(db).rows
        invariant forall j :: i <= j < |ids| ==> ids[j] in db.windows && db.windows[ids[j]] == old(db).windows[ids[j]]
        invariant result.delta == TotalDrift(old(db), ids[..i])
      {
        assert ids[..i + 1][..i] == ids[..i];
        assert WindowTotal(db, ids[i]) == WindowTotal(old(db), ids[i]) by { SameRows(db, old(db), ids[i]); }
        RepairIsLocal(db, chosen[i]);
        var step, tx := RepairOneCache(db, chosen[i]);
        if step.Refused? {
          RefusedRepair(db, chosen[i]);
          return result, Refused(step.error), ids;
        }
        db := tx;
        if step.value != 0 {
          result := result.(repaired := result.repaired + 1, delta := result.delta + step.value);
        }
      }
      assert ids[..|ids|] == ids;
      return result, Done(()), ids;
    }
  }
}
