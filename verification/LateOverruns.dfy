/** Late settlements of released reservations: over-limit replies without the on-time bound of 24. */
module LateOverruns {
  import opened Options
  import opened Tallies
  import opened Ledger
  import opened LedgerRuns
  import opened ControlBudget
  import opened ServiceCalls
  import opened MinuteBudget

  const WHO := Identity("service", "principal", "tenant")

  function Checksum(): string { seq(64, _ => '0') }

  function Name(n: nat): string { seq(n, _ => 'a') }

  /** The control window of the first minute. */
  function Scope(): WindowKey { WindowKey(WHO, Checksum() + ":" + CONTROL_PROFILE, 0) }

  /** The `n`-th control read: one call, one byte, no object. */
  function Ask(n: nat): AdmissionRequest {
    AdmissionRequest(CONTROL_PROFILE, n + 1, WHO, "ouf.operations.summary", "gateway", "READ", Checksum(), Name(n),
                     Checksum(), Name(n), "v1", MINUTE, 3, Cost(1, 1, 0))
  }

  function Group(n: nat): GroupKey { GroupKey(Scope(), "ouf.operations.summary", "v1", Name(n)) }

  /** The call replies with two bytes, one too many, while recovery, past its lease, hears from the owner that it
      never arrived. */
  function Block(n: nat): seq<Step> {
    [Begin(n, Ask(n), 0), Send(n, Name(n), 1, 0), Execute(n, 2, true, ""),
     Background(OpRecover(2, "worker", 1, [], [n + 1], [n + 1])),
     Background(OpEvidence(n + 1, "worker", OwnerEvidence(Name(n), OwnerNotDispatched, "", 0, 0))),
     Settled(n)]
  }

  function History(n: nat): seq<Step> { if n == 0 then [] else History(n - 1) + Block(n - 1) }

  // ---- One block, transaction by transaction.

  function Admitted0(n: nat): Row { NewRow(Ask(n), Scope(), Group(n), 0) }
  function Sent(n: nat): Row { DispatchedRow(Admitted0(n), Name(n), 1) }
  function Stale(n: nat): Row { StaleRow(Sent(n), 2).(recovery := Some(RecoveryLease("worker", 3))) }
  function Answer(n: nat): OwnerEvidence { OwnerEvidence(Name(n), OwnerNotDispatched, "", 0, 0) }
  function Released0(n: nat): Row { OwnerSettledRow(Stale(n), Answer(n)) }
  function Paid(n: nat): Row { ReconciledRow(Released0(n), Cost(1, 2, 0), false, Name(n)) }

  /** The window's counters with `held` more calls and bytes held than after `n` blocks. */
  function Counters(n: nat, held: int): Window { Window(held - n, held - n, 0, n, 2 * n, 0, 0, {"v1"}, {}) }

  predicate ClaimsBelow(s: Ledger, n: nat) {
    && (forall k :: k in s.claims ==> |k.attempt.idempotency| < n) && (forall k :: k in s.keys ==> |k.idempotency| < n)
  }

  predicate NamesBelow(s: Ledger, n: nat) {
    && (forall id :: id in s.rows ==> id <= n) && (forall b :: b in s.requests ==> |b| < n)
    && (forall g :: g in s.guards ==> |g.fingerprint| < n)
  }

  /** After `n` blocks: the names in use are those of the first `n` reads. */
  predicate Ready(s: Ledger, n: nat) {
    && s.manifests == {Checksum()} && ClaimsBelow(s, n) && NamesBelow(s, n)
    && Lookup(s.windows, Scope(), EMPTY_WINDOW) == Counters(n, 0)
  }

  /** Within block `n`, started at `s`: only its own names were added. */
  predicate Within(s: Ledger, s': Ledger, n: nat, row: Row, counters: Window) {
    && s'.manifests == s.manifests && s'.rows == s.rows[n + 1 := row]
    && s'.claims.Keys == s.claims.Keys + {Ask(n).Claim()} && s'.keys.Keys == s.keys.Keys + {Ask(n).Claim().attempt}
    && s'.requests.Keys <= s.requests.Keys + {Name(n)} && s'.guards.Keys == s.guards.Keys + {Group(n)}
    && Scope() in s'.windows && s'.windows[Scope()] == counters
  }

  lemma AskScope(n: nat)
    ensures var q := Ask(n);
            && AdmissionWindowBudget(q) == Some(WindowBudget(Scope().policy, Cost(24, MAX_BYTES, 2400)))
            && WindowOf(q, 0) == Scope() && GroupOf(q, 0) == Group(n)
  {
  }

  /** The names of read `n` are still free. */
  lemma NamesFree(s: Ledger, n: nat)
    requires Ready(s, n)
    ensures InsertAccepted(s, Ask(n), n + 1) && Ask(n).Claim() !in s.claims && Group(n) !in s.guards
    ensures n + 1 !in s.rows && Name(n) !in s.requests
  {
    assert |Ask(n).Claim().attempt.idempotency| == n && |Group(n).fingerprint| == n && |Name(n)| == n;
  }

  lemma RoomLeft(n: nat, debt: int)
    requires debt == 0 && n < MAX_BYTES
    ensures !Exceeds(Counters(n, 0), debt, Cost(1, 1, 0), Cost(24, MAX_BYTES, 2400))
  {
  }

  lemma Begins(s: Ledger, n: nat)
    requires Ready(s, n) && WindowTotal(s, Scope()).debt == 0 && n < MAX_BYTES
    ensures Reserve(s, Ask(n), 0, n + 1) == Txn(Admit(s, n + 1, Admitted0(n)), Done(Decision(n + 1, false)))
  {
    hide AdmissionWindowBudget, WindowOf, GroupOf, InsertAccepted, WindowTotal, Exceeds, Admit, Name, Scope, Checksum,
      Ready, NewRow, Counters, Group;
    AskScope(n);
    NamesFree(s, n);
    ReadyBooks(s, n);
    RoomLeft(n, WindowTotal(s, Scope()).debt);
  }

  lemma Enters(s: Ledger, n: nat)
    requires Lookup(s.windows, Scope(), EMPTY_WINDOW) == Counters(n, 0)
    ensures Within(s, Admit(s, n + 1, Admitted0(n)), n, Admitted0(n), Counters(n, 1))
    ensures Admit(s, n + 1, Admitted0(n)).requests == s.requests
  {
    hide Name, Scope, Checksum, Lookup;
    HoldsOne(n);
  }

  lemma ReadyBooks(s: Ledger, n: nat)
    requires Ready(s, n)
    ensures Lookup(s.windows, Scope(), EMPTY_WINDOW) == Counters(n, 0)
  {
  }

  lemma HoldsOne(n: nat)
    ensures Hold(Counters(n, 0), Cost(1, 1, 0)) == Counters(n, 1)
  {
  }

  lemma Sends(s: Ledger, s': Ledger, n: nat)
    requires Ready(s, n) && Within(s, s', n, Admitted0(n), Counters(n, 1)) && s'.requests == s.requests
    ensures var t := Dispatch(s', n + 1, Name(n), 1, 0, 0);
            t.outcome.Done? && Within(s, t.db, n, Sent(n), Counters(n, 1))
  {
    hide Name, Scope, Checksum, Ready;
    NamesFree(s, n);
    assert s'.rows[n + 1 := Sent(n)] == s.rows[n + 1 := Sent(n)];
  }

  lemma RecoverOne(s: Ledger, id: Uuid, worker: string, now: int, lease: int)
    ensures Recover(s, now, worker, lease, [], [id], [id]) ==
              ClaimRecovery(MarkStale(s, id, now), id, worker, now, lease)
  {
    hide MarkStale, ClaimRecovery;
    assert [id][..0] == [];
    assert MarkAllStale(s, [id], now) == MarkStale(s, id, now);
    var stale := MarkStale(s, id, now);
    assert ClaimAll(stale, [id], worker, now, lease) == ClaimRecovery(stale, id, worker, now, lease);
  }

  lemma Stales(s: Ledger, s': Ledger, n: nat)
    requires Within(s, s', n, Sent(n), Counters(n, 1))
    ensures Within(s, MarkStale(s', n + 1, 2), n, StaleRow(Sent(n), 2), Counters(n, 1))
  {
    hide Name, Scope, Checksum;
    assert s'.rows[n + 1 := StaleRow(Sent(n), 2)] == s.rows[n + 1 := StaleRow(Sent(n), 2)];
  }

  lemma Recovers(s: Ledger, s': Ledger, n: nat)
    requires Within(s, s', n, Sent(n), Counters(n, 1))
    ensures Within(s, Recover(s', 2, "worker", 1, [], [n + 1], [n + 1]), n, Stale(n), Counters(n, 1))
  {
    hide Name, Scope, Checksum, Counters, MarkStale, ClaimRecovery, Recover, Ask, Group, Within, Sent;
    RecoverOne(s', n + 1, "worker", 2, 1);
    Stales(s, s', n);
    Claimed(s, MarkStale(s', n + 1, 2), n);
  }

  lemma Claimed(s: Ledger, s': Ledger, n: nat)
    requires Within(s, s', n, StaleRow(Sent(n), 2), Counters(n, 1))
    ensures Within(s, ClaimRecovery(s', n + 1, "worker", 2, 1), n, Stale(n), Counters(n, 1))
  {
    hide Name, Scope, Checksum, Counters;
    assert s'.rows[n + 1 := Stale(n)] == s.rows[n + 1 := Stale(n)];
  }

  lemma Answers(s: Ledger, s': Ledger, n: nat)
    requires Within(s, s', n, Stale(n), Counters(n, 1))
    ensures Within(s, ApplyOwnerEvidence(s', n + 1, "worker", Answer(n)).db, n, Released0(n), Counters(n, 0))
  {
    hide Name, Scope, Checksum;
    assert s'.rows[n + 1 := Released0(n)] == s.rows[n + 1 := Released0(n)];
  }

  lemma Settles(s: Ledger, s': Ledger, n: nat)
    requires Within(s, s', n, Released0(n), Counters(n, 0))
    ensures Within(s, Reconcile(s', n + 1, Cost(1, 2, 0), false, Name(n)).db, n, Paid(n), Counters(n + 1, 0))
  {
    hide Name, Scope, Checksum;
    assert s'.rows[n + 1 := Paid(n)] == s.rows[n + 1 := Paid(n)];
  }

  lemma ClaimsAgain(s: Ledger, s': Ledger, n: nat)
    requires ClaimsBelow(s, n) && Within(s, s', n, Paid(n), Counters(n + 1, 0))
    ensures ClaimsBelow(s', n + 1)
  {
    hide Scope, Checksum, Paid, Counters, Group;
    assert |Ask(n).Claim().attempt.idempotency| == n;
  }

  lemma NamesAgain(s: Ledger, s': Ledger, n: nat)
    requires NamesBelow(s, n) && Within(s, s', n, Paid(n), Counters(n + 1, 0))
    ensures NamesBelow(s', n + 1)
  {
    hide Scope, Checksum, Paid, Counters, Ask;
    assert |Group(n).fingerprint| == n && |Name(n)| == n;
  }

  lemma ReadyAgain(s: Ledger, s': Ledger, n: nat)
    requires Ready(s, n) && Within(s, s', n, Paid(n), Counters(n + 1, 0))
    ensures Ready(s', n + 1)
  {
    hide Scope, Checksum, Paid, Counters, Name, Ask, Group, ClaimsBelow, NamesBelow;
    ClaimsAgain(s, s', n);
    NamesAgain(s, s', n);
  }

  lemma PaidShare(n: nat)
    ensures WindowShare(Scope())(Paid(n)).overruns == 1 && WindowShare(Scope())(Paid(n)).debt == 0
    ensures Paid(n).admission.window == Scope() && Spends(Paid(n))
  {
  }

  lemma OneOverrun(s: Ledger, s': Ledger, n: nat)
    requires n + 1 !in s.rows && s'.rows == s.rows[n + 1 := Paid(n)]
    ensures WindowTotal(s', Scope()).overruns == WindowTotal(s, Scope()).overruns + 1
    ensures WindowTotal(s', Scope()).debt == WindowTotal(s, Scope()).debt
    ensures |Spenders(s'.rows, Scope())| == |Spenders(s.rows, Scope())| + 1
  {
    hide Sum, Paid, Checksum, Spends;
    SumInsert<Uuid, Row>(s.rows, WindowShare(Scope()), n + 1, Paid(n));
    PaidShare(n);
    assert Spenders(s'.rows, Scope()) == Spenders(s.rows, Scope()) + {n + 1};
  }

  // ---- Whole histories.

  lemma {:induction false} StepsAppend(y: System, a: seq<Step>, b: seq<Step>)
    ensures Steps(y, a + b) == Steps(Steps(y, a), b)
    decreases |b|
  {
    hide Next, Enabled;
    if b == [] {
      assert a + b == a;
    } else {
      assert (a + b)[..|a + b| - 1] == a + b[..|b| - 1];
      StepsAppend(y, a, b[..|b| - 1]);
    }
  }

  lemma OneStep(y: System, step: Step)
    requires Enabled(y, step)
    ensures Steps(y, [step]) == Next(y, step)
  {
    hide Next, Enabled;
    assert [step][..0] == [];
  }

  /** The system after the `n`-th block: its ledger is ready for the next, and its calls are numbered below. */
  ghost predicate Standing(y: System, n: nat) {
    && Ready(y.ledger, n) && (forall c :: c in y.calls ==> c < n)
    && WindowTotal(y.ledger, Scope()).overruns == n && WindowTotal(y.ledger, Scope()).debt == 0
    && |Spenders(y.ledger.rows, Scope())| == n
  }

  /** The call's own three steps, from admission to the reply. */
  lemma CallRuns(y: System, n: nat) returns (y': System)
    requires Standing(y, n) && n < MAX_BYTES
    ensures y' == Steps(y, Block(n)[..3]) && n in y'.calls && y'.calls[n] == AtSettle(n + 1, Name(n), 2, false)
    ensures Within(y.ledger, y'.ledger, n, Sent(n), Counters(n, 1)) && y'.calls.Keys == y.calls.Keys + {n}
  {
    hide Ready, Within, Reserve, Dispatch, Admit, WindowTotal, Counters, Sent, Admitted0, Name, Checksum, Scope,
      Spenders, Group;
    var s := y.ledger;
    Begins(s, n);
    ReadyBooks(s, n);
    Enters(s, n);
    var y1 := Next(y, Block(n)[0]);
    Sends(s, y1.ledger, n);
    var y2 := Next(y1, Block(n)[1]);
    y' := Next(y2, Block(n)[2]);
    OneStep(y, Block(n)[0]);
    OneStep(y1, Block(n)[1]);
    OneStep(y2, Block(n)[2]);
    StepsAppend(y, [Block(n)[0]], [Block(n)[1]]);
    StepsAppend(y, [Block(n)[0]] + [Block(n)[1]], [Block(n)[2]]);
    assert Block(n)[..3] == [Block(n)[0]] + [Block(n)[1]] + [Block(n)[2]];
  }

  lemma BlockRuns(y: System, n: nat)
    requires Standing(y, n) && n < MAX_BYTES
    ensures Standing(Steps(y, Block(n)), n + 1)
  {
    hide Ready, Within, Recover, ApplyOwnerEvidence, Reconcile, WindowTotal, Counters, Sent, Stale, Released0, Paid,
      Name, Checksum, Scope, Spenders, Group;
    var s := y.ledger;
    var y3 := CallRuns(y, n);
    Recovers(s, y3.ledger, n);
    var y4 := Next(y3, Block(n)[3]);
    Answers(s, y4.ledger, n);
    var y5 := Next(y4, Block(n)[4]);
    Settles(s, y5.ledger, n);
    var y6 := Next(y5, Block(n)[5]);
    OneStep(y3, Block(n)[3]);
    OneStep(y4, Block(n)[4]);
    OneStep(y5, Block(n)[5]);
    StepsAppend(y3, [Block(n)[3]], [Block(n)[4]]);
    StepsAppend(y3, [Block(n)[3]] + [Block(n)[4]], [Block(n)[5]]);
    StepsAppend(y, Block(n)[..3], [Block(n)[3]] + [Block(n)[4]] + [Block(n)[5]]);
    assert Block(n) == Block(n)[..3] + ([Block(n)[3]] + [Block(n)[4]] + [Block(n)[5]]);
    NamesFree(s, n);
    PaidRow(s, y6.ledger, n);
    OneOverrun(s, y6.ledger, n);
    ReadyAgain(s, y6.ledger, n);
  }

  lemma PaidRow(s: Ledger, s': Ledger, n: nat)
    requires Within(s, s', n, Paid(n), Counters(n + 1, 0))
    ensures s'.rows == s.rows[n + 1 := Paid(n)]
  {
  }

  lemma HistoryIs(n: nat)
    ensures History(0) == [] && History(n + 1) == History(n) + Block(n)
  {
  }

  lemma {:induction false} HistoryStands(n: nat)
    requires n <= MAX_BYTES
    ensures Standing(Steps(Idle({Checksum()}), History(n)), n)
  {
    hide *;
    if n == 0 {
      HistoryIs(0);
      IdleStands();
    } else {
      HistoryStands(n - 1);
      HistoryIs(n - 1);
      BlockRuns(Steps(Idle({Checksum()}), History(n - 1)), n - 1);
      StepsAppend(Idle({Checksum()}), History(n - 1), Block(n - 1));
    }
  }

  lemma IdleStands()
    ensures Standing(Steps(Idle({Checksum()}), []), 0)
  {
    hide Sum, Scope, Checksum, Next, Enabled;
    SumEmpty<Uuid, Row>(map[], WindowShare(Scope()));
    assert Spenders(map[], Scope()) == {};
  }

  /** Runs of the service itself with any number of over-limit replies in one control window, up to 12 Mi, and as many
      used calls in its minute: an owner disowns each call, its reservation is released, and its late settlement drives
      the held calls below zero. */
  lemma OverrunsExceed(n: nat)
    requires n <= MAX_BYTES
    ensures var s := Steps(Idle({Checksum()}), History(n)).ledger;
            && IsControl(Scope()) && WindowTotal(s, Scope()).overruns == n && |Spenders(s.rows, Scope())| == n
            && (n > 0 ==>
                  && Scope() in s.windows && s.windows[Scope()].heldCalls == 0 - n
                  && s.windows[Scope()].usedCalls == n)
            && (n > 24 ==> !OnTimeSteps(Idle({Checksum()}), History(n)))
  {
    hide Steps, Standing, History, WindowTotal, OnTimeSteps, Checksum, Scope, IsControl, CountersWithinCaps, Spenders;
    HistoryStands(n);
    ScopeIsControl();
    StandingFacts(Steps(Idle({Checksum()}), History(n)), n);
    if n > 24 {
      ServiceKeepsControlCaps({Checksum()}, History(n), Scope());
    }
  }

  lemma StandingFacts(y: System, n: nat)
    requires Standing(y, n)
    ensures WindowTotal(y.ledger, Scope()).overruns == n && |Spenders(y.ledger.rows, Scope())| == n
    ensures n > 0 ==>
              && Scope() in y.ledger.windows && y.ledger.windows[Scope()].heldCalls == 0 - n
              && y.ledger.windows[Scope()].usedCalls == n
  {
    hide WindowTotal, Scope, Checksum;
  }

  lemma ScopeIsControl()
    ensures IsControl(Scope()) && forall m :: m in {Checksum()} ==> |m| == 64
  {
    assert Scope().policy[64..] == ":" + CONTROL_PROFILE;
  }
}
