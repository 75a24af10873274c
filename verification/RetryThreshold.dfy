/** The retry threshold over whole runs, whether or not their settlements are on time. */
module RetryThreshold {
  import opened Ledger
  import opened LedgerRuns
  import opened LedgerClaims
  import opened LedgerIndex

  /** The request falls into retry group `g`. */
  predicate Targets(op: Op, g: GroupKey) {
    op.OpReserve? && op.q.window > 0 && AdmissionWindowBudget(op.q).Some? && GroupOf(op.q, op.now) == g
  }

  lemma QuietKeepsMembers(s: Ledger, s': Ledger, g: GroupKey)
    requires Quiet(s, s')
    ensures Members(s'.rows, g) == Members(s.rows, g)
  {
  }

  lemma OthersUnchanged(rows: map<Uuid, Row>, id: Uuid, r: Row, g: GroupKey)
    requires id !in rows && r.admission.group != g
    ensures Members(rows[id := r], g) == Members(rows, g)
  {
  }

  /** An admission leaves a group as it was, or adds to it below the request's threshold. */
  lemma ReserveMembers(manifests: set<string>, ops: seq<Op>, q: AdmissionRequest, now: int, spare: Uuid, g: GroupKey)
    ensures var s := Run(Fresh(manifests), ops);
            var rows := Reserve(s, q, now, spare).db.rows;
            || Members(rows, g) == Members(s.rows, g)
            || (Targets(OpReserve(q, now, spare), g) && |Members(rows, g)| < q.threshold)
  {
    hide Run, Exceeds, WindowTotal, AdmissionWindowBudget, InsertAccepted, Members, OpenMembers, Lookup, Hold;
    var s := Run(Fresh(manifests), ops);
    var t := Reserve(s, q, now, spare);
    if t.outcome.Done? && !t.outcome.value.replay {
      AdmissionIsGuarded(manifests, ops, q, now, spare);
      if GroupOf(q, now) != g {
        NotYetIndexed(s, q, t.outcome.value.attemptId);
        OthersUnchanged(s.rows, t.outcome.value.attemptId, NewRow(q, WindowOf(q, now), GroupOf(q, now), now), g);
      }
    }
  }

  /** Where every request of a group uses a threshold of at most `t`, at most `t - 1` attempts are ever admitted to
      it. */
  lemma {:induction false} ThresholdBound(manifests: set<string>, ops: seq<Op>, g: GroupKey, t: int)
    requires t >= 1
    requires forall k :: 0 <= k < |ops| && Targets(ops[k], g) ==> ops[k].q.threshold <= t
    ensures |Members(Run(Fresh(manifests), ops).rows, g)| <= t - 1
  {
    hide Members, Reserve, Targets, Indexed, Quiet;
    if ops == [] {
      assert Members(map[], g) == {} by { NoMembers(g); }
    } else {
      var before, last := ops[..|ops| - 1], ops[|ops| - 1];
      assert forall k :: 0 <= k < |before| ==> before[k] == ops[k];
      ThresholdBound(manifests, before, g, t);
      var s := Run(Fresh(manifests), before);
      FreshIndexed(manifests);
      RunIndexed(Fresh(manifests), before);
      if last.OpReserve? {
        ReserveMembers(manifests, before, last.q, last.now, last.spare, g);
      } else {
        ApplyQuiet(s, last);
        QuietKeepsMembers(s, Apply(s, last), g);
      }
    }
  }

  lemma NoMembers(g: GroupKey)
    ensures Members(map[], g) == {}
  {
  }
}
