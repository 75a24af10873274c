/** The queries of a recovery pass, and what a pass does in plain times. */
module RecoveryQueries {
  import opened Options
  import opened Ledger
  import opened LedgerEffects

  /** `order by time, attempt_id`, with a missing time last. */
  predicate Before(times: map<Uuid, Option<int>>, a: Uuid, b: Uuid)
    requires a in times && b in times
  {
    if times[a] == times[b] then a < b
    else times[a].Some? && (times[b].None? || times[a].value < times[b].value)
  }

  /** `ids` are the first `limit` keys of `times` in order. */
  predicate FirstInOrder(ids: seq<Uuid>, times: map<Uuid, Option<int>>, limit: nat) {
    && (forall i :: 0 <= i < |ids| ==> ids[i] in times)
    && (forall i, j :: 0 <= i < j < |ids| ==> Before(times, ids[i], ids[j]))
    && (forall i, id :: 0 <= i < |ids| && id in times && id !in ids ==> Before(times, ids[i], id))
    && |ids| <= limit
    && (|ids| < limit ==> forall id :: id in times ==> id in ids)
  }

  /** What the queries see: overdue admissions, stale dispatches, attempts to hand out and attempts held too long. */
  function OverdueAdmissions(s: Ledger, before: int): map<Uuid, Option<int>> {
    map id | id in s.rows && s.rows[id].state == Admitted && s.rows[id].dispatch == NotDispatched &&
             s.rows[id].admission.at < before
      :: Some(s.rows[id].admission.at)
  }

  function StaleDispatches(s: Ledger, now: int): map<Uuid, Option<int>> {
    map id | id in s.rows && LeaseExpired(s.rows[id], now) && s.rows[id].dispatch == Dispatched :: s.rows[id].lease
  }

  function ClaimableAttempts(s: Ledger, now: int): map<Uuid, Option<int>> {
    map id | id in s.rows && Claimable(s.rows[id], now) :: s.rows[id].unknownSince
  }

  function OverdueUnknowns(s: Ledger, now: int, before: int): map<Uuid, Option<int>> {
    map id | id in s.rows && Claimable(s.rows[id], now) && s.rows[id].unknownSince.Some? &&
             s.rows[id].unknownSince.value < before
      :: s.rows[id].unknownSince
  }

  // ---- Passes.

  /** An admission from before the deadline that was never dispatched. */
  predicate OverdueFor(r: Row, before: int) {
    r.state == Admitted && r.dispatch == NotDispatched && r.admission.at < before
  }

  /** A dispatch whose lease ended before `now`. */
  predicate StaleAt(r: Row, now: int) {
    r.state == Running && r.dispatch == Dispatched && r.lease.Some? && r.lease.value < now
  }

  /** What a recovery pass did, told in times: every attempt is recovered rightly, and one that is overdue is passed
      over only if the limit was used up by others at least as old. */
  predicate RecoveryPass(s: Ledger, s': Ledger, now: int, before: int, worker: string, lease: int, limit: nat,
                         expired: seq<Uuid>, stale: seq<Uuid>, claimed: seq<Uuid>) {
    && s'.rows.Keys == s.rows.Keys
    && forall id :: id in s.rows ==>
         && Recovers(s.rows[id], s'.rows[id], now, before, worker, lease)
         && Expires(s, s', id, before, limit, expired) && Lapses(s, s', id, now, limit, stale)
         && HandedOut(s, s', id, worker, now, lease, limit, claimed)
  }

  predicate Expires(s: Ledger, s': Ledger, id: Uuid, before: int, limit: nat, expired: seq<Uuid>)
    requires id in s.rows && id in s'.rows
  {
    OverdueFor(s.rows[id], before) ==>
      if id in expired then Abandons(s.rows[id], s'.rows[id])
      else
        && |expired| == limit && s'.rows[id] == s.rows[id]
        && forall e :: e in expired ==> e in s.rows && s.rows[e].admission.at <= s.rows[id].admission.at
  }

  predicate Lapses(s: Ledger, s': Ledger, id: Uuid, now: int, limit: nat, stale: seq<Uuid>)
    requires id in s.rows && id in s'.rows
  {
    StaleAt(s.rows[id], now) ==>
      if id in stale then s'.rows[id].state == Unknown
      else
        && |stale| == limit && s'.rows[id] == s.rows[id]
        && forall e :: e in stale ==>
             e in s.rows && s.rows[e].lease.Some? && s.rows[e].lease.value <= s.rows[id].lease.value
  }

  predicate HandedOut(s: Ledger, s': Ledger, id: Uuid, worker: string, now: int, lease: int, limit: nat,
                      claimed: seq<Uuid>)
    requires id in s.rows && id in s'.rows
  {
    s.rows[id].state == Unknown && Unheld(s.rows[id], now) ==>
      if id in claimed then Hands(s.rows[id], s'.rows[id], worker, now, lease)
      else
        && |claimed| == limit && s'.rows[id] == s.rows[id]
        && forall e :: e in claimed && s.rows[id].unknownSince.Some? ==>
             e in s'.rows && s'.rows[e].unknownSince.Some? &&
             s'.rows[e].unknownSince.value <= s.rows[id].unknownSince.value
  }

  /** A row that the query saw and did not take came after a full selection. */
  lemma PassedOver(ids: seq<Uuid>, times: map<Uuid, Option<int>>, limit: nat, id: Uuid)
    requires FirstInOrder(ids, times, limit) && id in times && id !in ids
    ensures |ids| == limit
    ensures forall e :: e in ids ==>
              e in times && (times[id].Some? ==> times[e].Some? && times[e].value <= times[id].value)
  {
  }

  lemma Selected(ids: seq<Uuid>, times: map<Uuid, Option<int>>, limit: nat)
    requires FirstInOrder(ids, times, limit)
    ensures forall id :: id in ids ==> id in times
  {
  }

  /** The three stages of a pass. */
  datatype Stages = Stages(start: Ledger, expired: Ledger, stale: Ledger, end: Ledger)

  function StagesOf(s: Ledger, now: int, worker: string, lease: int,
                    expired: seq<Uuid>, stale: seq<Uuid>, claimed: seq<Uuid>): Stages
  {
    var s1 := ExpireAdmissions(s, expired);
    var s2 := MarkAllStale(s1, stale, now);
    Stages(s, s1, s2, ClaimAll(s2, claimed, worker, now, lease))
  }

  /** Who was selected at each stage, from what that stage saw. */
  predicate SelectedFrom(p: Stages, now: int, before: int, limit: nat,
                         expired: seq<Uuid>, stale: seq<Uuid>, claimed: seq<Uuid>) {
    && FirstInOrder(expired, OverdueAdmissions(p.start, before), limit)
    && FirstInOrder(stale, StaleDispatches(p.expired, now), limit)
    && FirstInOrder(claimed, ClaimableAttempts(p.stale, now), limit)
  }

  /** What each stage wrote. */
  predicate Staged(p: Stages, now: int, worker: string, lease: int,
                   expired: seq<Uuid>, stale: seq<Uuid>, claimed: seq<Uuid>) {
    && p.end.rows.Keys == p.stale.rows.Keys == p.expired.rows.Keys == p.start.rows.Keys
    && (forall id :: id in p.start.rows ==>
          if id in expired && p.start.rows[id].state == Admitted then Abandons(p.start.rows[id], p.expired.rows[id])
          else p.expired.rows[id] == p.start.rows[id])
    && (forall id :: id in p.start.rows ==>
          var r := p.expired.rows[id];
          if id in stale && r.state == Running && r.lease.Some? && r.lease.value < now then
            Doubts(r, p.stale.rows[id], now)
          else p.stale.rows[id] == r)
    && (forall id :: id in p.start.rows ==>
          var r := p.stale.rows[id];
          if id in claimed && r.state == Unknown && Unheld(r, now) then Hands(r, p.end.rows[id], worker, now, lease)
          else p.end.rows[id] == r)
  }

  lemma StagesWrite(s: Ledger, now: int, worker: string, lease: int,
                    expired: seq<Uuid>, stale: seq<Uuid>, claimed: seq<Uuid>)
    ensures Staged(StagesOf(s, now, worker, lease, expired, stale, claimed), now, worker, lease, expired, stale,
                   claimed)
  {
    hide ExpireAdmissions, MarkAllStale, ClaimAll, Abandons, Doubts, Hands, Unheld;
    var p := StagesOf(s, now, worker, lease, expired, stale, claimed);
    ExpiryWrites(s, expired);
    StalenessWrites(p.expired, stale, now);
    ClaimingWrites(p.stale, claimed, worker, now, lease);
  }

  lemma RowRecovers(p: Stages, now: int, before: int, worker: string, lease: int, limit: nat,
                    expired: seq<Uuid>, stale: seq<Uuid>, claimed: seq<Uuid>, id: Uuid)
    requires Staged(p, now, worker, lease, expired, stale, claimed) && id in p.start.rows
    requires FirstInOrder(expired, OverdueAdmissions(p.start, before), limit)
    ensures Recovers(p.start.rows[id], p.end.rows[id], now, before, worker, lease)
  {
    hide FirstInOrder;
    Selected(expired, OverdueAdmissions(p.start, before), limit);
  }

  lemma RowExpires(p: Stages, now: int, before: int, worker: string, lease: int, limit: nat,
                   expired: seq<Uuid>, stale: seq<Uuid>, claimed: seq<Uuid>, id: Uuid)
    requires Staged(p, now, worker, lease, expired, stale, claimed) && id in p.start.rows
    requires FirstInOrder(expired, OverdueAdmissions(p.start, before), limit)
    ensures Expires(p.start, p.end, id, before, limit, expired)
  {
    hide FirstInOrder;
    if OverdueFor(p.start.rows[id], before) && id !in expired {
      PassedOver(expired, OverdueAdmissions(p.start, before), limit, id);
    }
  }

  /** Dispatches and UNKNOWN attempts pass through the first stage unchanged; the last stage keeps the time of doubt. */
  lemma StagesKeep(p: Stages, now: int, worker: string, lease: int,
                   expired: seq<Uuid>, stale: seq<Uuid>, claimed: seq<Uuid>, id: Uuid)
    requires Staged(p, now, worker, lease, expired, stale, claimed) && id in p.start.rows
    ensures p.expired.rows[id].state == Running || p.start.rows[id].state != Admitted ==>
              p.expired.rows[id] == p.start.rows[id]
    ensures p.expired.rows[id].state != Running || id !in stale ==> p.stale.rows[id] == p.expired.rows[id]
    ensures p.stale.rows[id].state != Unknown || id !in claimed ==> p.end.rows[id] == p.stale.rows[id]
    ensures p.end.rows[id].unknownSince == p.stale.rows[id].unknownSince
    ensures p.end.rows[id].state == p.stale.rows[id].state
    ensures id in stale && StaleAt(p.expired.rows[id], now) ==> p.stale.rows[id].state == Unknown
    ensures id in claimed && p.stale.rows[id].state == Unknown && Unheld(p.stale.rows[id], now) ==>
              Hands(p.stale.rows[id], p.end.rows[id], worker, now, lease)
  {
    hide StagesOf;
  }

  lemma StaleTimes(s: Ledger, now: int, id: Uuid)
    ensures id in StaleDispatches(s, now) <==> id in s.rows && StaleAt(s.rows[id], now)
    ensures id in StaleDispatches(s, now) ==> StaleDispatches(s, now)[id] == s.rows[id].lease
  {
  }

  lemma ClaimableTimes(s: Ledger, now: int, id: Uuid)
    ensures id in ClaimableAttempts(s, now) <==> id in s.rows && s.rows[id].state == Unknown && Unheld(s.rows[id], now)
    ensures id in ClaimableAttempts(s, now) ==> ClaimableAttempts(s, now)[id] == s.rows[id].unknownSince
  {
  }

  lemma RowLapses(p: Stages, now: int, before: int, worker: string, lease: int, limit: nat,
                  expired: seq<Uuid>, stale: seq<Uuid>, claimed: seq<Uuid>, id: Uuid)
    requires Staged(p, now, worker, lease, expired, stale, claimed) && id in p.start.rows
    requires FirstInOrder(stale, StaleDispatches(p.expired, now), limit)
    ensures Lapses(p.start, p.end, id, now, limit, stale)
  {
    hide FirstInOrder, Staged, StaleDispatches, StaleAt;
    SameKeys(p, now, worker, lease, expired, stale, claimed);
    if StaleAt(p.start.rows[id], now) {
      StaleRuns(p.start.rows[id], now);
      StaleTimes(p.expired, now, id);
      StagesKeep(p, now, worker, lease, expired, stale, claimed, id);
      if id !in stale {
        PassedOver(stale, StaleDispatches(p.expired, now), limit, id);
        forall e | e in stale
          ensures e in p.start.rows && p.start.rows[e].lease.Some?
          ensures p.start.rows[e].lease.value <= p.start.rows[id].lease.value
        {
          StaleTimes(p.expired, now, e);
          StaleRuns(p.expired.rows[e], now);
          StagesKeep(p, now, worker, lease, expired, stale, claimed, e);
        }
      }
    }
  }

  lemma StaleRuns(r: Row, now: int)
    requires StaleAt(r, now)
    ensures r.state == Running && r.lease.Some?
  {
  }

  lemma SameKeys(p: Stages, now: int, worker: string, lease: int,
                 expired: seq<Uuid>, stale: seq<Uuid>, claimed: seq<Uuid>)
    requires Staged(p, now, worker, lease, expired, stale, claimed)
    ensures p.end.rows.Keys == p.stale.rows.Keys == p.expired.rows.Keys == p.start.rows.Keys
  {
  }

  lemma RowHandedOut(p: Stages, now: int, before: int, worker: string, lease: int, limit: nat,
                     expired: seq<Uuid>, stale: seq<Uuid>, claimed: seq<Uuid>, id: Uuid)
    requires Staged(p, now, worker, lease, expired, stale, claimed) && id in p.start.rows
    requires FirstInOrder(claimed, ClaimableAttempts(p.stale, now), limit)
    ensures HandedOut(p.start, p.end, id, worker, now, lease, limit, claimed)
  {
    hide FirstInOrder, Staged, ClaimableAttempts, Hands, Unheld;
    SameKeys(p, now, worker, lease, expired, stale, claimed);
    if p.start.rows[id].state == Unknown && Unheld(p.start.rows[id], now) {
      StagesKeep(p, now, worker, lease, expired, stale, claimed, id);
      ClaimableTimes(p.stale, now, id);
      if id !in claimed {
        PassedOver(claimed, ClaimableAttempts(p.stale, now), limit, id);
        forall e | e in claimed && p.start.rows[id].unknownSince.Some?
          ensures e in p.end.rows && p.end.rows[e].unknownSince.Some?
          ensures p.end.rows[e].unknownSince.value <= p.start.rows[id].unknownSince.value
        {
          ClaimableTimes(p.stale, now, e);
          StagesKeep(p, now, worker, lease, expired, stale, claimed, e);
        }
      }
    }
  }

  /** A pass over the selected rows is a right one. */
  lemma PassIsRight(s: Ledger, now: int, before: int, worker: string, lease: int, limit: nat,
                    expired: seq<Uuid>, stale: seq<Uuid>, claimed: seq<Uuid>)
    requires SelectedFrom(StagesOf(s, now, worker, lease, expired, stale, claimed), now, before, limit,
                          expired, stale, claimed)
    ensures RecoveryPass(s, StagesOf(s, now, worker, lease, expired, stale, claimed).end, now, before, worker, lease,
                         limit, expired, stale, claimed)
  {
    hide ExpireAdmissions, MarkAllStale, ClaimAll, FirstInOrder, OverdueAdmissions, StaleDispatches, ClaimableAttempts,
      Recovers, Expires, Lapses, HandedOut, Abandons, Doubts, Hands, Unheld;
    var p := StagesOf(s, now, worker, lease, expired, stale, claimed);
    StagesWrite(s, now, worker, lease, expired, stale, claimed);
    forall id | id in s.rows
      ensures Recovers(s.rows[id], p.end.rows[id], now, before, worker, lease)
      ensures Expires(s, p.end, id, before, limit, expired) && Lapses(s, p.end, id, now, limit, stale)
      ensures HandedOut(s, p.end, id, worker, now, lease, limit, claimed)
    {
      RowRecovers(p, now, before, worker, lease, limit, expired, stale, claimed, id);
      RowExpires(p, now, before, worker, lease, limit, expired, stale, claimed, id);
      RowLapses(p, now, before, worker, lease, limit, expired, stale, claimed, id);
      RowHandedOut(p, now, before, worker, lease, limit, expired, stale, claimed, id);
    }
  }

  // ---- Giving up.

  /** An UNKNOWN attempt nobody holds that has been unknown since before the deadline. */
  predicate HeldTooLong(r: Row, now: int, before: int) {
    r.state == Unknown && Unheld(r, now) && r.unknownSince.Some? && r.unknownSince.value < before
  }

  /** Exactly such attempts are given up, the oldest first and no more than `limit`. */
  predicate GivingUpPass(s: Ledger, s': Ledger, now: int, before: int, limit: nat, ids: seq<Uuid>) {
    && s'.rows.Keys == s.rows.Keys && |ids| <= limit
    && (forall id :: id in s.rows && id in ids ==>
          HeldTooLong(s.rows[id], now, before) && GivesUp(s.rows[id], s'.rows[id]))
    && (forall id :: id in s.rows && id !in ids ==> s'.rows[id] == s.rows[id])
    && (forall id, e :: id in s.rows && HeldTooLong(s.rows[id], now, before) && id !in ids && e in ids ==>
          e in s.rows && s.rows[e].unknownSince.Some? &&
          s.rows[e].unknownSince.value <= s.rows[id].unknownSince.value)
    && (|ids| < limit ==> forall id :: id in s.rows && HeldTooLong(s.rows[id], now, before) ==> id in ids)
  }

  lemma GivingUpIsRight(s: Ledger, now: int, before: int, limit: nat, ids: seq<Uuid>)
    requires FirstInOrder(ids, OverdueUnknowns(s, now, before), limit)
    requires forall id :: id in s.rows && s.rows[id].state == Unknown ==> s.rows[id].reservation == InDoubt
    ensures GivingUpPass(s, ExpireUnknowns(s, ids), now, before, limit, ids)
  {
    hide FirstInOrder, GivesUp, ExpireUnknowns;
    GivingUpWrites(s, ids);
    Selected(ids, OverdueUnknowns(s, now, before), limit);
    SelectionBound(ids, OverdueUnknowns(s, now, before), limit);
    forall id | id in s.rows && HeldTooLong(s.rows[id], now, before) && id !in ids
      ensures |ids| == limit
      ensures forall e :: e in ids ==>
                e in s.rows && s.rows[e].unknownSince.Some? &&
                s.rows[e].unknownSince.value <= s.rows[id].unknownSince.value
    {
      PassedOver(ids, OverdueUnknowns(s, now, before), limit, id);
    }
  }

  lemma SelectionBound(ids: seq<Uuid>, times: map<Uuid, Option<int>>, limit: nat)
    requires FirstInOrder(ids, times, limit)
    ensures |ids| <= limit
  {
  }
}
