/** A run in which recovery overtakes a settlement, and what the settlement then does to the books. */
module LateSettlement {
  import opened Options
  import opened Ledger
  import opened LedgerInvariant
  import opened LedgerSteps
  import opened LedgerRuns
  import opened LedgerClaims

  const DIGITS := "0123456789abcdef"
  const MANIFEST := DIGITS + DIGITS + DIGITS + DIGITS
  const WHO := Identity("service", "principal", "tenant")
  const POLICY := WindowKey(WHO, MANIFEST, 0)

  /** Two different questions in one window, each reserving one call, ten bytes and one object. */
  function Ask(id: Uuid, question: string): AdmissionRequest {
    AdmissionRequest("", id, WHO, "capability", "owner", "READ", MANIFEST, question, MANIFEST, question, "v1", 60, 3,
                     Cost(1, 10, 1))
  }

  function GroupFor(question: string): GroupKey { GroupKey(POLICY, "capability", "v1", question) }

  function RowFor(id: Uuid, question: string): Row { NewRow(Ask(id, question), POLICY, GroupFor(question), 0) }

  const FIRST := Admit(Fresh({MANIFEST}), 1, RowFor(1, "a"))
  const SECOND := Admit(FIRST, 2, RowFor(2, "b"))
  const SENT := SECOND.(rows := SECOND.rows[1 := DispatchedRow(RowFor(1, "a"), "request", 10)],
                        requests := map["request" := 1])

  /** Both admissions and the dispatch of the first; its lease then runs out and recovery marks it UNKNOWN. */
  const HISTORY: seq<Op> := [
    OpReserve(Ask(1, "a"), 0, 0), OpReserve(Ask(2, "b"), 0, 0), OpDispatch(1, "request", 10, 0, 0),
    OpRecover(11, "worker", 5, [], [1], [])]

  lemma AskScope(id: Uuid, question: string)
    ensures var q := Ask(id, question);
            && AdmissionWindowBudget(q) == Some(WindowBudget(MANIFEST, Cost(3, 30, 3)))
            && WindowOf(q, 0) == POLICY && GroupOf(q, 0) == GroupFor(question)
  {
  }

  lemma AskAccepted(s: Ledger, id: Uuid, question: string)
    requires s.manifests == {MANIFEST} && id !in s.rows && Ask(id, question).Claim().attempt !in s.keys
    ensures InsertAccepted(s, Ask(id, question), id)
  {
  }

  lemma ReserveAdmits(s: Ledger, id: Uuid, question: string)
    requires Inv(s) && s.manifests == {MANIFEST} && id != NIL && id !in s.rows
    requires Ask(id, question).Claim().attempt !in s.keys && Ask(id, question).Claim() !in s.claims
    requires GroupFor(question) !in s.guards
    requires var w := Lookup(s.windows, POLICY, EMPTY_WINDOW);
             w.heldCalls <= 1 && w.heldBytes <= 10 && w.heldObjects <= 1 &&
             w.usedCalls == w.usedBytes == w.usedObjects == w.debtCache == 0
    ensures Reserve(s, Ask(id, question), 0, 0).db == Admit(s, id, RowFor(id, question))
  {
    hide Inv, Admit, WindowTotal, AdmissionWindowBudget, WindowOf, GroupOf, InsertAccepted;
    AskScope(id, question);
    AskAccepted(s, id, question);
    DebtIsCached(s);
  }

  lemma DebtIsCached(s: Ledger)
    requires Inv(s)
    ensures WindowTotal(s, POLICY).debt == Lookup(s.windows, POLICY, EMPTY_WINDOW).debtCache
  {
    hide RowsLegal, Linked, GuardsCount, InboxLinked;
    if POLICY !in s.windows {
      UnknownScopesAreEmpty(s, POLICY, GroupFor(""));
    }
  }

  lemma FirstInv()
    ensures Reserve(Fresh({MANIFEST}), Ask(1, "a"), 0, 0).db == FIRST && Inv(FIRST)
  {
    hide Inv, Reserve;
    FreshInv({MANIFEST});
    ReserveAdmits(Fresh({MANIFEST}), 1, "a");
    ReserveKeepsInv(Fresh({MANIFEST}), Ask(1, "a"), 0, 0);
  }

  lemma SecondInv()
    ensures Reserve(FIRST, Ask(2, "b"), 0, 0).db == SECOND && Inv(SECOND)
  {
    hide Inv, Reserve;
    FirstInv();
    ReserveAdmits(FIRST, 2, "b");
    ReserveKeepsInv(FIRST, Ask(2, "b"), 0, 0);
  }

  lemma SentInv()
    ensures Dispatch(SECOND, 1, "request", 10, 0, 0).db == SENT && Inv(SENT)
  {
    hide Inv;
    SecondInv();
    DispatchKeepsInv(SECOND, 1, "request", 10, 0, 0);
  }

  const LATE := MarkStale(SENT, 1, 11)

  lemma HistoryIs()
    ensures Run(Fresh({MANIFEST}), HISTORY) == LATE && Inv(LATE)
  {
    hide Inv, Reserve, Dispatch, MarkStale;
    FirstInv();
    SecondInv();
    SentInv();
    MarkStaleKeepsInv(SENT, 1, 11);
    var s := Fresh({MANIFEST});
    assert HISTORY[..3][..2][..1] == HISTORY[..1] && HISTORY[..3][..2] == HISTORY[..2];
    assert Run(s, HISTORY[..1]) == FIRST;
    assert Run(s, HISTORY[..2]) == SECOND;
    assert Run(s, HISTORY[..3]) == SENT;
    assert [1][..0] == [];
    assert MarkAllStale(SENT, [1], 11) == LATE;
  }

  lemma HistoryOnTime()
    ensures OnTimeRun(Fresh({MANIFEST}), HISTORY)
  {
    hide Run;
    assert forall k :: 0 <= k < |HISTORY| ==> !HISTORY[k].OpReconcile?;
  }

  /** The late settlement commits, and the window then holds no object although the second attempt reserves one. */
  lemma LateSettlementLosesObjects()
    ensures var s := Run(Fresh({MANIFEST}), HISTORY);
            var t := Reconcile(s, 1, Cost(1, 10, 0), true, "request");
            && OnTimeRun(Fresh({MANIFEST}), HISTORY)
            && t.outcome.Done? && !Inv(t.db) && !BooksBalance(t.db)
            && POLICY in t.db.windows && t.db.windows[POLICY].heldObjects == 0
            && 2 in t.db.rows && t.db.rows[2].reservation == Reserved && t.db.rows[2].admission.reserved.objects == 1
  {
    hide Inv, BooksBalance, Run, OnTimeRun;
    HistoryIs();
    HistoryOnTime();
    SettledOutOfTime(LATE, 1, Cost(1, 10, 0), true, "request");
  }
}
