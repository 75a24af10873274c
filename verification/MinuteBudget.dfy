/** What the control budget means in time: how many operational reads one principal gets through in a minute. */
module MinuteBudget {
  import opened Tallies
  import opened Ledger
  import opened LedgerRuns
  import opened LedgerTracks
  import opened LedgerEffects
  import opened ControlBudget
  import opened EveryRun

  /** The attempt's calls are held, or were used. */
  predicate Spends(r: Row) {
    r.reservation == Reserved || r.reservation == InDoubt || r.actual.calls > 0
  }

  function Spenders(rows: map<Uuid, Row>, w: WindowKey): set<Uuid> {
    set id | id in rows && rows[id].admission.window == w && Spends(rows[id])
  }

  /** In a control window every attempt that spends counts one call. */
  lemma {:induction false} SpendersCounted(rows: map<Uuid, Row>, w: WindowKey)
    requires forall id :: id in rows && rows[id].admission.window == w ==>
               Plain(rows[id]) && ControlCost(rows[id].admission.reserved) && Thrifty(rows[id])
    ensures |Spenders(rows, w)| == Sum(rows, WindowShare(w)).heldCalls + Sum(rows, WindowShare(w)).usedCalls
    decreases |rows|
  {
    hide Sum, Plain, ControlCost, Thrifty, Spends, Share;
    if rows == map[] {
      SumEmpty(rows, WindowShare(w));
      assert Spenders(rows, w) == {};
    } else {
      var k :| k in rows;
      SumTakeOut(rows, WindowShare(w), k);
      SpendersCounted(rows - {k}, w);
      assert Spenders(rows - {k}, w) == Spenders(rows, w) - {k};
      SizeWithout(Spenders(rows, w), k);
      if rows[k].admission.window == w {
        OneCall(rows[k]);
      }
    }
  }

  lemma OneCall(r: Row)
    requires Plain(r) && ControlCost(r.admission.reserved) && Thrifty(r)
    ensures Share(r).heldCalls + Share(r).usedCalls == if Spends(r) then 1 else 0
  {
  }

  // ---- Requests of one minute.

  /** A control read of this principal under this manifest, asked in minute `k`. */
  predicate AskedIn(op: Op, who: Identity, manifest: string, k: int) {
    && op.OpReserve? && op.q.profile == CONTROL && op.q.who == who && op.q.manifest == manifest
    && k * 60_000_000_000 <= op.now < (k + 1) * 60_000_000_000
  }

  /** The operation admits a new attempt under `id`. */
  ghost predicate AdmitsAs(s: Ledger, op: Op, id: Uuid) {
    op.OpReserve? && Reserve(s, op.q, op.now, op.spare).outcome == Done(Decision(id, false))
  }

  /** The attempts that some control read of the minute was admitted as. */
  ghost predicate FromMinute(manifests: set<string>, ops: seq<Op>, who: Identity, manifest: string, k: int, id: Uuid) {
    exists i ::
      0 <= i < |ops| && AskedIn(ops[i], who, manifest, k) && AdmitsAs(Run(Fresh(manifests), ops[..i]), ops[i], id)
  }

  function MinuteWindow(who: Identity, manifest: string, k: int): WindowKey {
    WindowKey(who, manifest + ":" + CONTROL, k * 60_000_000_000)
  }

  lemma AdmittedInMinute(s: Ledger, op: Op, who: Identity, manifest: string, k: int, id: Uuid)
    requires AskedIn(op, who, manifest, k) && AdmitsAs(s, op, id)
    ensures id in Apply(s, op).rows && Apply(s, op).rows[id].admission.window == MinuteWindow(who, manifest, k)
  {
    hide Reserve, Supported, Fits, Insertable, WindowTotal, Booked;
    AdmissionEnters(s, op.q, op.now, op.spare);
    ControlMinute(s, op.q, op.now, op.spare);
    var start := Apply(s, op).rows[id].admission.window.start;
    MultipleOf(60_000_000_000, k);
    OneStart(op.now, 60_000_000_000, start);
    OneStart(op.now, 60_000_000_000, 60_000_000_000 * k);
  }

  lemma ControlMinute(s: Ledger, q: AdmissionRequest, now: int, spare: Uuid)
    requires q.profile == CONTROL && Reserve(s, q, now, spare).outcome.Done?
    ensures q.window == 60_000_000_000
  {
    hide Replay, ReserveNew;
  }

  /** An attempt of the minute stays in the minute's window for good. */
  lemma {:induction false} MinuteStays(manifests: set<string>, ops: seq<Op>, who: Identity, manifest: string, k: int,
                                       id: Uuid)
    requires FromMinute(manifests, ops, who, manifest, k, id)
    ensures var s := Run(Fresh(manifests), ops);
            id in s.rows && s.rows[id].admission.window == MinuteWindow(who, manifest, k)
  {
    hide Kept, AskedIn, AdmitsAs, Apply, MinuteWindow, Governs;
    var i :| 0 <= i < |ops| && AskedIn(ops[i], who, manifest, k) &&
      AdmitsAs(Run(Fresh(manifests), ops[..i]), ops[i], id);
    var before, last := ops[..|ops| - 1], ops[|ops| - 1];
    var s := Run(Fresh(manifests), before);
    FreshKept(manifests);
    RunKeeps(Fresh(manifests), before);
    if i == |ops| - 1 {
      AdmittedInMinute(s, last, who, manifest, k, id);
    } else {
      assert before[..i] == ops[..i] && before[i] == ops[i];
      MinuteStays(manifests, before, who, manifest, k, id);
      ApplyKeeps(s, last);
    }
  }

  // ---- The budget of a minute.

  /** The calls taken out of a window twice along a run: once when their reservation was released, once by a
      settlement. */
  ghost function Reclaimed(s: Ledger, ops: seq<Op>, w: WindowKey): int {
    if ops == [] then 0
    else
      var before := ops[..|ops| - 1];
      Reclaimed(s, before, w) + Reclaims(Run(s, before), ops[|ops| - 1], w)
  }

  lemma {:induction false} RunGap(s: Ledger, ops: seq<Op>, w: WindowKey)
    requires Kept(s)
    ensures Gap(Run(s, ops), w) == Gap(s, w) + Reclaimed(s, ops, w)
  {
    hide Kept, Apply, Governs, Gap, Reclaims, Lasts, Seals;
    if ops != [] {
      RunGap(s, ops[..|ops| - 1], w);
      RunKeeps(s, ops[..|ops| - 1]);
      ApplyKeeps(Run(s, ops[..|ops| - 1]), ops[|ops| - 1]);
    }
  }

  /** On time nothing is taken twice. */
  lemma {:induction false} NothingReclaimed(s: Ledger, ops: seq<Op>, w: WindowKey)
    requires OnTimeRun(s, ops)
    ensures Reclaimed(s, ops, w) == 0
  {
    hide Run, Apply;
    if ops != [] {
      var before := ops[..|ops| - 1];
      assert forall i :: 0 <= i < |before| ==> before[..i] == ops[..i] && before[i] == ops[i];
      NothingReclaimed(s, before, w);
      assert OnTime(Run(s, ops[..|before|]), ops[|before|]);
    }
  }

  lemma WindowSpenders(s: Ledger, w: WindowKey)
    requires Kept(s) && Governs(s) && IsControl(w)
    ensures |Spenders(s.rows, w)| <= 24 + Gap(s, w)
  {
    hide Spent, Guarded, IsControl, Plain, ControlCost, Thrifty, Sum, Spenders;
    forall id | id in s.rows && s.rows[id].admission.window == w
      ensures Plain(s.rows[id]) && ControlCost(s.rows[id].admission.reserved) && Thrifty(s.rows[id])
    {
      assert ControlRow(s.rows[id]);
    }
    SpendersCounted(s.rows, w);
    assert WithinCaps(BooksOf(s, w), WindowTotal(s, w));
    UsedCalls(s, w);
  }

  lemma UsedCalls(s: Ledger, w: WindowKey)
    requires Tracked(s)
    ensures BooksOf(s, w).usedCalls == WindowTotal(s, w).usedCalls
  {
    hide PlainRows, Guarded, Backed;
    assert Spent(BooksOf(s, w), WindowTotal(s, w), AdjustedObjects(s, w));
  }

  lemma MinuteIsControl(who: Identity, manifest: string, k: int)
    requires |manifest| == 64
    ensures IsControl(MinuteWindow(who, manifest, k))
  {
    assert (manifest + ":" + CONTROL)[64..] == ":" + CONTROL;
  }

  lemma SubsetSize(a: set<Uuid>, b: set<Uuid>)
    requires a <= b
    ensures |a| <= |b|
  {
    assert b == a + (b - a);
  }

  /** In a governed run the control reads a principal asks for in one minute under one manifest, and whose call is
      held or was used, number at most 24, and one more for each released reservation that is settled again: so at
      most 24 while settlements are on time. */
  lemma ControlReadsPerMinute(manifests: set<string>, ops: seq<Op>, who: Identity, manifest: string, k: int,
                              ids: set<Uuid>)
    requires (forall m :: m in manifests ==> |m| == 64) && GovernedRun(Fresh(manifests), ops) && manifest in manifests
    requires forall id :: id in ids ==>
               && FromMinute(manifests, ops, who, manifest, k, id)
               && id in Run(Fresh(manifests), ops).rows && Spends(Run(Fresh(manifests), ops).rows[id])
    ensures |ids| <= 24 + Reclaimed(Fresh(manifests), ops, MinuteWindow(who, manifest, k))
    ensures OnTimeRun(Fresh(manifests), ops) ==> |ids| <= 24
  {
    hide Run, Kept, Governs, GovernedRun, OnTimeRun, FromMinute, Spends, MinuteWindow, IsControl, Gap, Reclaimed;
    var s, w := Run(Fresh(manifests), ops), MinuteWindow(who, manifest, k);
    FreshKept(manifests);
    FreshGoverns(manifests);
    RunKeeps(Fresh(manifests), ops);
    RunGoverns(Fresh(manifests), ops);
    MinuteIsControl(who, manifest, k);
    forall id | id in ids ensures id in Spenders(s.rows, w) {
      MinuteStays(manifests, ops, who, manifest, k, id);
    }
    SubsetSize(ids, Spenders(s.rows, w));
    WindowSpenders(s, w);
    RunGap(Fresh(manifests), ops, w);
    FreshGap(manifests, w);
    if OnTimeRun(Fresh(manifests), ops) {
      NothingReclaimed(Fresh(manifests), ops, w);
    }
  }

  lemma FreshGap(manifests: set<string>, w: WindowKey)
    ensures Gap(Fresh(manifests), w) == 0
  {
    SumEmpty(Fresh(manifests).rows, WindowShare(w));
  }
}
