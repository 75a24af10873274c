/** One pass of the recovery worker: claim uncertain attempts, ask their owners, apply the answers. */
module Recovery {
  import opened Options
  import opened Ledger
  import opened LedgerInvariant
  import opened LedgerStore
  import opened LedgerEffects
  import opened RecoveryQueries

  datatype Worker = Worker(id: string, lease: int, grace: int, hold: int, batch: int)
  datatype Result = Result(claimed: nat, reconciled: nat, stillUnknown: nat, unresolved: nat)

  /** The owner's answer to one query. An outcome outside the four known ones is None. */
  datatype Reply = Unavailable | Answer(request: string, outcome: Option<OwnerOutcome>, code: string, calls: int,
                                        bytes: int)

  predicate Configured(w: Worker) {
    w.id != "" && w.lease > 0 && w.grace > 0 && w.hold > 0 && w.batch >= 1
  }

  /** A failed query counts as an UNKNOWN answer. */
  function Resolve(c: Candidate, reply: Reply): Reply {
    if reply.Unavailable? then Answer(c.backend, Some(OwnerUnknown), "OWNER_QUERY_UNAVAILABLE", 0, 0) else reply
  }

  /** When an answer to a claimed attempt can be applied, read off the claimed rows. */
  predicate Applicable(s: Ledger, c: Candidate, reply: Reply) {
    c.id in s.rows &&
    var a, reserved := Resolve(c, reply), s.rows[c.id].admission.reserved;
    && a.Answer? && a.request == c.backend && a.outcome.Some?
    && (a.outcome.value != OwnerUnknown ==>
          0 <= a.calls <= reserved.calls && 0 <= a.bytes <= reserved.bytes && reserved.objects == 0)
  }

  /** The rows a claim leaves behind. */
  predicate HeldBy(s: Ledger, c: Candidate, worker: string) {
    && c.id in s.rows && s.rows[c.id].state == Unknown && s.rows[c.id].backend == Some(c.backend)
    && s.rows[c.id].recovery.Some? && s.rows[c.id].recovery.value.owner == worker
  }

  predicate AllHeld(s: Ledger, cs: seq<Candidate>, worker: string) {
    && (forall i :: 0 <= i < |cs| ==> HeldBy(s, cs[i], worker))
    && (forall i, j :: 0 <= i < j < |cs| ==> cs[i].id != cs[j].id)
  }

  lemma {:induction false} ClaimAllRows(s: Ledger, ids: seq<Uuid>, worker: string, now: int, lease: int)
    requires forall i :: 0 <= i < |ids| ==> ids[i] in s.rows && Claimable(s.rows[ids[i]], now)
    requires forall i, j :: 0 <= i < j < |ids| ==> ids[i] != ids[j]
    ensures var s' := ClaimAll(s, ids, worker, now, lease);
            && s'.rows.Keys == s.rows.Keys
            && (forall id :: id in s.rows && id !in ids ==> s'.rows[id] == s.rows[id])
            && (forall i :: 0 <= i < |ids| ==>
                  s'.rows[ids[i]] == s.rows[ids[i]].(recovery := Some(RecoveryLease(worker, now + lease))))
  {
    if ids != [] {
      ClaimAllRows(s, ids[..|ids| - 1], worker, now, lease);
    }
  }

  /** Every candidate the store returns is UNKNOWN and leased to the worker. */
  lemma ClaimsAreHeld(s: Ledger, ids: seq<Uuid>, cs: seq<Candidate>, worker: string, now: int, lease: int, limit: nat)
    requires FirstInOrder(ids, ClaimableAttempts(s, now), limit) && Described(s, ids, cs)
    ensures var s' := ClaimAll(s, ids, worker, now, lease);
            AllHeld(s', cs, worker) && forall i :: 0 <= i < |cs| ==> KeepsClaim(s', s', cs[i])
  {
    hide ClaimAll, FirstInOrder, ClaimableAttempts;
    SelectedClaimable(s, now, ids, limit);
    ClaimAllRows(s, ids, worker, now, lease);
  }

  /** Under the invariant an answer to a held attempt commits exactly when it is applicable. */
  lemma AppliesExactly(s: Ledger, c: Candidate, worker: string, reply: Reply)
    requires Inv(s) && HeldBy(s, c, worker)
    requires var a := Resolve(c, reply); a.request == c.backend && a.outcome.Some?
    ensures var a := Resolve(c, reply);
            var t := ApplyOwnerEvidence(s, c.id, worker,
                                        OwnerEvidence(a.request, a.outcome.value, a.code, a.calls, a.bytes));
            && (t.outcome.Done? <==> Applicable(s, c, reply))
            && (forall id :: id in s.rows && id != c.id ==> id in t.db.rows && t.db.rows[id] == s.rows[id])
  {
    hide Inv, Block, Settle, Lookup;
    AttemptFacts(s, c.id);
  }

  /** The attempt stays UNKNOWN: its owner cannot be reached or does not know. */
  predicate StillOpen(reply: Reply) { reply.Unavailable? || reply.outcome == Some(OwnerUnknown) }

  /** What an answer leaves of its attempt: given back as it was, or closed by the answer. */
  predicate Told(r: Row, r': Row, c: Candidate, reply: Reply) {
    if StillOpen(reply) then r' == r.(recovery := None)
    else
      && reply.request == c.backend && reply.outcome.Some?
      && Answers(r, r', OwnerEvidence(reply.request, reply.outcome.value, reply.code, reply.calls, reply.bytes))
  }

  function IdsTo(cs: seq<Candidate>, n: nat): set<Uuid>
    requires n <= |cs|
  {
    set i | 0 <= i < n :: cs[i].id
  }

  /** The first `n` candidates were told their answers, and no other attempt changed. */
  predicate ToldTo(s: Ledger, s': Ledger, cs: seq<Candidate>, owner: Candidate -> Reply, n: nat)
    requires n <= |cs|
  {
    && s'.rows.Keys == s.rows.Keys
    && (forall i :: 0 <= i < n ==>
          cs[i].id in s.rows && Told(s.rows[cs[i].id], s'.rows[cs[i].id], cs[i], owner(cs[i])))
    && forall id :: id in s.rows && id !in IdsTo(cs, n) ==> s'.rows[id] == s.rows[id]
  }

  lemma ToldOne(s: Ledger, s1: Ledger, s2: Ledger, cs: seq<Candidate>, owner: Candidate -> Reply, n: nat)
    requires n < |cs| && ToldTo(s, s1, cs, owner, n) && OnlyRow(s1, s2, cs[n].id) && cs[n].id in s1.rows
    requires Told(s1.rows[cs[n].id], s2.rows[cs[n].id], cs[n], owner(cs[n]))
    requires forall i, j :: 0 <= i < j < |cs| ==> cs[i].id != cs[j].id
    ensures ToldTo(s, s2, cs, owner, n + 1)
  {
    hide Told;
    assert cs[n].id !in IdsTo(cs, n);
    assert IdsTo(cs, n + 1) == IdsTo(cs, n) + {cs[n].id};
    forall i | 0 <= i < n ensures Told(s.rows[cs[i].id], s2.rows[cs[i].id], cs[i], owner(cs[i])) {
    }
  }

  /** The candidates among the first `n` that stay UNKNOWN. */
  function Undecided(cs: seq<Candidate>, owner: Candidate -> Reply, n: nat): set<nat>
    requires n <= |cs|
  {
    set i: nat | i < n && StillOpen(owner(cs[i]))
  }

  lemma UndecidedNext(cs: seq<Candidate>, owner: Candidate -> Reply, n: nat)
    requires n < |cs|
    ensures |Undecided(cs, owner, n + 1)| == |Undecided(cs, owner, n)| + if StillOpen(owner(cs[n])) then 1 else 0
  {
    hide StillOpen;
    assert Undecided(cs, owner, n + 1) == Undecided(cs, owner, n) + if StillOpen(owner(cs[n])) then {n} else {};
  }

  /** The recovery pass that handed out these candidates. */
  ghost predicate ClaimedBy(s: Ledger, s': Ledger, w: Worker, now: int, before: int, cs: seq<Candidate>)
    requires w.batch >= 1
  {
    exists expired, stale, claimed ::
      && RecoveryPass(s, s', now, before, w.id, w.lease, w.batch, expired, stale, claimed)
      && |claimed| == |cs| && forall i :: 0 <= i < |cs| ==> cs[i].id == claimed[i]
  }

  /** The attempts the pass gave up in the end. */
  ghost predicate GaveUp(s: Ledger, s': Ledger, w: Worker, now: int, count: nat)
    requires w.batch >= 1
  {
    exists ids :: GivingUpPass(s, s', now, now - w.hold, w.batch, ids) && |ids| == count
  }

  lemma DescribedIds(s: Ledger, ids: seq<Uuid>, cs: seq<Candidate>)
    requires Described(s, ids, cs)
    ensures |ids| == |cs| && forall i :: 0 <= i < |cs| ==> cs[i].id == ids[i]
  {
  }

  /** One answer: validate it, apply it, audit it. `still` says the attempt stays UNKNOWN. */
  method Process(store: Store, c: Candidate, worker: string, reply: Reply, audited: bool) returns (out: Outcome<bool>)
    modifies store
    ensures Inv(old(store.db)) ==> Inv(store.db)
    ensures Inv(old(store.db)) && HeldBy(old(store.db), c, worker) ==>
              && (out.Done? <==> audited && Applicable(old(store.db), c, reply))
              && (forall id :: id in old(store.db).rows && id != c.id ==>
                    id in store.db.rows && store.db.rows[id] == old(store.db).rows[id])
              && (out.Done? ==>
                    OnlyRow(old(store.db), store.db, c.id) &&
                    Told(old(store.db).rows[c.id], store.db.rows[c.id], c, reply))
    ensures out.Done? ==> out.value == StillOpen(reply)
  {
    hide Inv, ApplyOwnerEvidence, Answers;
    var a := Resolve(c, reply);
    if a.request != c.backend || a.outcome.None? {
      return Refused(InvalidOwnerEvidence);
    }
    if Inv(store.db) && HeldBy(store.db, c, worker) {
      AppliesExactly(store.db, c, worker, reply);
    }
    var applied := store.ApplyEvidence(c.id, worker,
                                       OwnerEvidence(a.request, a.outcome.value, a.code, a.calls, a.bytes));
    if applied.Refused? {
      return Refused(applied.error);
    }
    if !audited {
      return Refused(AuditFailed);
    }
    return Done(a.outcome.value == OwnerUnknown);
  }

  lemma ToldNone(s: Ledger, cs: seq<Candidate>, owner: Candidate -> Reply)
    ensures ToldTo(s, s, cs, owner, 0) && Undecided(cs, owner, 0) == {}
  {
  }

  lemma Claims(s: Ledger, s': Ledger, w: Worker, now: int, cs: seq<Candidate>, expired: seq<Uuid>, stale: seq<Uuid>,
               claimed: seq<Uuid>)
    requires w.batch >= 1 && RecoveryPass(s, s', now, now - w.grace, w.id, w.lease, w.batch, expired, stale, claimed)
    requires |claimed| == |cs| && forall i :: 0 <= i < |cs| ==> cs[i].id == claimed[i]
    ensures ClaimedBy(s, s', w, now, now - w.grace, cs)
  {
    hide RecoveryPass;
  }

  /** One pass. `audited` tells which audit appends succeed; without an audit port it is constantly true. */
  method RunOnce(store: Store, w: Worker, now: int, owner: Candidate -> Reply, audited: Candidate -> bool)
    returns (result: Result, out: Outcome<()>, ghost after: Ledger, ghost candidates: seq<Candidate>,
             ghost told: Ledger)
    modifies store
    ensures !Configured(w) ==> out == Refused(InvalidWorker) && store.db == old(store.db)
    ensures out.Done? ==> result.claimed == result.reconciled + result.stillUnknown
    ensures result.reconciled + result.stillUnknown <= result.claimed
    ensures Inv(old(store.db)) ==> Inv(store.db)
    ensures Inv(old(store.db)) && Configured(w) ==>
              && AllHeld(after, candidates, w.id) && result.claimed == |candidates|
              && (out.Done? <==> forall i :: 0 <= i < |candidates| ==>
                                   audited(candidates[i]) && Applicable(after, candidates[i], owner(candidates[i])))
    ensures Inv(old(store.db)) && Configured(w) ==>
              ClaimedBy(old(store.db), after, w, now, now - w.grace, candidates)
    ensures Inv(old(store.db)) && Configured(w) && out.Done? ==>
              && ToldTo(after, told, candidates, owner, |candidates|)
              && result.stillUnknown == |Undecided(candidates, owner, |candidates|)|
              && GaveUp(told, store.db, w, now, result.unresolved)
  {
    hide Inv, HeldBy, Applicable, FirstInOrder, Described, ClaimAll, MarkAllStale, ExpireAdmissions, ExpireUnknowns,
      ToldTo, Told, Undecided, RecoveryPass, GivingUpPass, StillOpen, ClaimedBy;
    result, after, candidates, told := Result(0, 0, 0, 0), store.db, [], store.db;
    if !Configured(w) {
      return result, Refused(InvalidWorker), after, candidates, told;
    }
    var claim, expired, stale, claimed := store.MarkStaleAndClaim(now, now - w.grace, w.id, w.lease, w.batch);
    if claim.Refused? {
      return result, Refused(claim.error), after, candidates, told;
    }
    var cs := claim.value;
    after, candidates := store.db, cs;
    if Inv(old(store.db)) {
      ghost var s2 := MarkAllStale(ExpireAdmissions(old(store.db), expired), stale, now);
      ClaimsAreHeld(s2, claimed, cs, w.id, now, w.lease, w.batch);
      DescribedIds(s2, claimed, cs);
      Claims(old(store.db), after, w, now, cs, expired, stale, claimed);
    }
    ToldNone(after, cs, owner);
    result := result.(claimed := |cs|);
    for i := 0 to |cs|
      invariant result.claimed == |cs| && result.reconciled + result.stillUnknown == i
      invariant Inv(old(store.db)) ==> Inv(store.db)
      invariant Inv(old(store.db)) ==> forall j :: i <= j < |cs| ==> KeepsClaim(after, store.db, cs[j])
      invariant Inv(old(store.db)) ==> ToldTo(after, store.db, cs, owner, i)
      invariant result.stillUnknown == |Undecided(cs, owner, i)|
      invariant Inv(old(store.db)) ==>
                  forall j :: 0 <= j < i ==> audited(cs[j]) && Applicable(after, cs[j], owner(cs[j]))
    {
      label before:
      if Inv(old(store.db)) {
        ClaimKept(after, store.db, cs[i], w.id, owner(cs[i]));
      }
      var step := Process(store, cs[i], w.id, owner(cs[i]), audited(cs[i]));
      if step.Refused? {
        return result, Refused(step.error), after, candidates, told;
      }
      UndecidedNext(cs, owner, i);
      if Inv(old(store.db)) {
        ToldOne(after, old@before(store.db), store.db, cs, owner, i);
      }
      if step.value {
        result := result.(stillUnknown := result.stillUnknown + 1);
      } else {
        result := result.(reconciled := result.reconciled + 1);
      }
      assert Inv(old(store.db)) ==> forall j :: i < j < |cs| ==> KeepsClaim(old@before(store.db), store.db, cs[j]);
    }
    told := store.db;
    var expiry, ids := store.ExpireUnknown(now, now - w.hold, w.batch);
    if expiry.Refused? {
      return result, Refused(expiry.error), after, candidates, told;
    }
    return result.(unresolved := expiry.value), Done(()), after, candidates, told;
  }

  predicate KeepsClaim(s: Ledger, s': Ledger, c: Candidate) {
    c.id in s.rows && c.id in s'.rows && s'.rows[c.id] == s.rows[c.id]
  }

  lemma ClaimKept(s: Ledger, s': Ledger, c: Candidate, worker: string, reply: Reply)
    requires HeldBy(s, c, worker) && KeepsClaim(s, s', c)
    ensures HeldBy(s', c, worker) && (Applicable(s', c, reply) <==> Applicable(s, c, reply))
  {
  }
}
