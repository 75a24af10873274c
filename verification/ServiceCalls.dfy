/** Concurrent governed calls: reserve, dispatch, execute and settle, interleaved with each other and with recovery. */
module ServiceCalls {
  import opened Options
  import opened Ledger
  import opened LedgerInvariant
  import opened LedgerSteps
  import opened LedgerRuns
  import opened LedgerIndex
  import opened LedgerEffects
  import opened ControlBudget
  import opened EveryRun
  import LedgerTracks

  /** Where one call stands. `limit` is the reply size it was admitted for. */
  datatype Call =
    | AtDispatch(id: Uuid, limit: int)
    | AtExecute(id: Uuid, backend: string, limit: int)
    | AtSettle(id: Uuid, backend: string, bytes: int, success: bool)
    | Finished

  /** The database, the calls in flight, the gateway executions so far, and every attempt id a reservation answered. */
  datatype System = System(
    ledger: Ledger, calls: map<nat, Call>, executed: seq<Uuid>, answers: seq<(ClaimKey, Uuid)>)

  datatype Step =
    | Begin(call: nat, q: AdmissionRequest, now: int)
    | Send(call: nat, backend: string, lease: int, now: int)
    | Execute(call: nat, bytes: nat, success: bool, backend: string)
    | Settled(call: nat)
    | Crash(call: nat)
    | Background(op: Op)

  function Idle(manifests: set<string>): System { System(Fresh(manifests), map[], [], []) }

  /** The most bytes the gateway client reads: one more than the limit, which defaults to 1 MiB. */
  function ReadBound(limit: int): int { (if limit < 1 then 1024 * 1024 else limit) + 1 }

  /** A call follows its own order; recovery and evidence may run at any time. */
  predicate Enabled(y: System, step: Step) {
    match step
    case Begin(c, q, now) => c !in y.calls && q.attemptId != NIL
    case Send(c, backend, lease, now) => c in y.calls && y.calls[c].AtDispatch?
    case Execute(c, bytes, success, backend) =>
      c in y.calls && y.calls[c].AtExecute? && bytes <= ReadBound(y.calls[c].limit)
    case Settled(c) => c in y.calls && y.calls[c].AtSettle?
    case Crash(c) => c in y.calls
    case Background(op) => !op.OpReserve? && !op.OpDispatch? && !op.OpReconcile?
  }

  /** The transaction a step runs, if any. */
  function OpOf(y: System, step: Step): Option<Op>
    requires Enabled(y, step)
  {
    match step
    case Begin(c, q, now) => Some(OpReserve(q, now, q.attemptId))
    case Send(c, backend, lease, now) => Some(OpDispatch(y.calls[c].id, backend, lease, 0, now))
    case Execute(_, _, _, _) => None
    case Settled(c) =>
      var call := y.calls[c];
      Some(OpReconcile(call.id, Cost(1, call.bytes, 0), call.success, call.backend))
    case Crash(_) => None
    case Background(op) => Some(op)
  }

  ghost function After(s: Ledger, op: Option<Op>): Ledger {
    if op.None? then s else Apply(s, op.value)
  }

  /** The call's next position, from the answer of the transaction it ran. */
  ghost function NextCall(y: System, step: Step): Call
    requires Enabled(y, step) && !step.Background?
  {
    match step
    case Begin(c, q, now) =>
      var t := Reserve(y.ledger, q, now, q.attemptId);
      if t.outcome.Done? && !t.outcome.value.replay then AtDispatch(t.outcome.value.attemptId, q.maximum.bytes)
      else Finished
    case Send(c, backend, lease, now) =>
      var call := y.calls[c];
      if Dispatch(y.ledger, call.id, backend, lease, 0, now).outcome.Done? then AtExecute(call.id, backend, call.limit)
      else Finished
    case Execute(c, bytes, success, backend) =>
      var call := y.calls[c];
      AtSettle(call.id, if backend == "" then call.backend else backend, bytes, success && bytes <= call.limit)
    case Settled(_) => Finished
    case Crash(_) => Finished
  }

  ghost function Next(y: System, step: Step): System
    requires Enabled(y, step)
  {
    var ledger := After(y.ledger, OpOf(y, step));
    match step
    case Background(_) => y.(ledger := ledger)
    case Begin(c, q, now) =>
      var outcome := Reserve(y.ledger, q, now, q.attemptId).outcome;
      y.(ledger := ledger, calls := y.calls[c := NextCall(y, step)],
         answers := if outcome.Done? then y.answers + [(q.Claim(), outcome.value.attemptId)] else y.answers)
    case Execute(c, _, _, _) => y.(calls := y.calls[c := NextCall(y, step)], executed := y.executed + [y.calls[c].id])
    case Send(c, _, _, _) => y.(ledger := ledger, calls := y.calls[c := NextCall(y, step)])
    case Settled(c) => y.(ledger := ledger, calls := y.calls[c := NextCall(y, step)])
    case Crash(c) => y.(calls := y.calls[c := NextCall(y, step)])
  }

  /** Steps that are not enabled change nothing, so every step sequence is a run. */
  ghost function Steps(y: System, steps: seq<Step>): System {
    if steps == [] then y
    else
      var before := Steps(y, steps[..|steps| - 1]);
      if Enabled(before, steps[|steps| - 1]) then Next(before, steps[|steps| - 1]) else before
  }

  // ---- The system invariant.

  /** Past its dispatch, a call holds the only ticket to execute its attempt. */
  predicate CallFits(y: System, call: Call) {
    match call
    case AtDispatch(id, limit) => id in y.ledger.rows && y.ledger.rows[id].admission.reserved.bytes == limit
    case AtExecute(id, _, limit) =>
      && id in y.ledger.rows && y.ledger.rows[id].admission.reserved.bytes == limit
      && y.ledger.rows[id].state != Admitted && id !in y.executed
    case AtSettle(id, _, bytes, _) =>
      id in y.ledger.rows && bytes <= ReadBound(y.ledger.rows[id].admission.reserved.bytes)
    case Finished => true
  }

  predicate CallsFit(y: System) { forall c :: c in y.calls ==> CallFits(y, y.calls[c]) }

  predicate TicketsDiffer(y: System) {
    forall c, d :: c in y.calls && d in y.calls && c != d && y.calls[c].AtExecute? && y.calls[d].AtExecute? ==>
      y.calls[c].id != y.calls[d].id
  }

  predicate ExecutedOnce(y: System) {
    && (forall i :: 0 <= i < |y.executed| ==>
          y.executed[i] in y.ledger.rows && y.ledger.rows[y.executed[i]].state != Admitted)
    && (forall i, j :: 0 <= i < j < |y.executed| ==> y.executed[i] != y.executed[j])
  }

  predicate AnswersAgree(y: System) {
    forall i :: 0 <= i < |y.answers| ==>
      y.answers[i].0 in y.ledger.claims && y.ledger.claims[y.answers[i].0] == y.answers[i].1
  }

  predicate CallsInv(y: System) {
    Indexed(y.ledger) && CallsFit(y) && TicketsDiffer(y) && ExecutedOnce(y) && AnswersAgree(y)
  }

  /** A later ledger supports the same calls. */
  lemma CarryOver(y: System, ledger: Ledger)
    requires CallsInv(y) && Persists(y.ledger, ledger) && Indexed(ledger)
    ensures CallsInv(y.(ledger := ledger))
  {
    hide Indexed;
  }

  /** Moving one call to a position that fits, with no new ticket. */
  lemma MoveCall(y: System, c: nat, call: Call)
    requires CallsInv(y) && CallFits(y, call) && !call.AtExecute?
    ensures CallsInv(y.(calls := y.calls[c := call]))
  {
    hide Indexed;
  }

  lemma DispatchTakesTicket(y: System, c: nat, backend: string, lease: int, now: int)
    requires CallsInv(y) && c in y.calls && y.calls[c].AtDispatch?
    ensures CallsInv(Next(y, Send(c, backend, lease, now)))
  {
    hide Indexed, Dispatch;
    var call := y.calls[c];
    var t := Dispatch(y.ledger, call.id, backend, lease, 0, now);
    DispatchQuiet(y.ledger, call.id, backend, lease, 0, now);
    QuietKeepsIndexed(y.ledger, t.db);
    CarryOver(y, t.db);
    if t.outcome.Done? {
      assert call.id !in y.executed;
      NewTicket(y, t.db, c, backend);
    } else {
      MoveCall(y.(ledger := t.db), c, Finished);
    }
  }

  lemma NewTicket(y: System, ledger: Ledger, c: nat, backend: string)
    requires CallsInv(y) && CallsInv(y.(ledger := ledger)) && c in y.calls && y.calls[c].AtDispatch?
    requires var id := y.calls[c].id;
             id in y.ledger.rows && y.ledger.rows[id].state == Admitted && id in ledger.rows &&
             ledger.rows[id].state != Admitted
    ensures CallsInv(y.(ledger := ledger, calls := y.calls[c := AtExecute(y.calls[c].id, backend, y.calls[c].limit)]))
  {
    hide Indexed;
  }

  lemma ExecuteUsesTicket(y: System, step: Step)
    requires CallsInv(y) && step.Execute? && Enabled(y, step)
    ensures CallsInv(Next(y, step))
  {
    hide Indexed;
  }

  lemma BeginKeeps(y: System, step: Step)
    requires CallsInv(y) && step.Begin? && Enabled(y, step)
    ensures CallsInv(Next(y, step))
  {
    hide Indexed, Reserve, Persists, CallsInv;
    var t := Reserve(y.ledger, step.q, step.now, step.q.attemptId);
    assert Indexed(y.ledger) by { Unfold(y); }
    ReserveIndexed(y.ledger, step.q, step.now, step.q.attemptId);
    CarryOver(y, t.db);
    var y0 := y.(ledger := t.db);
    MoveCall(y0, step.call, NextCall(y, step));
    var y1 := y0.(calls := y.calls[step.call := NextCall(y, step)]);
    if t.outcome.Done? {
      Answered(y1, step.q.Claim(), t.outcome.value.attemptId);
    }
  }

  lemma Unfold(y: System)
    requires CallsInv(y)
    ensures Indexed(y.ledger) && CallsFit(y)
  {
  }

  lemma Answered(y: System, k: ClaimKey, id: Uuid)
    requires CallsInv(y) && k in y.ledger.claims && y.ledger.claims[k] == id
    ensures CallsInv(y.(answers := y.answers + [(k, id)]))
  {
    hide Indexed;
  }

  lemma ApplyKeepsCalls(y: System, op: Op)
    requires CallsInv(y) && !op.OpReserve?
    ensures CallsInv(y.(ledger := Apply(y.ledger, op)))
  {
    hide CallsInv, Indexed, Apply, Persists;
    Unfold(y);
    ApplyQuiet(y.ledger, op);
    QuietKeepsIndexed(y.ledger, Apply(y.ledger, op));
    CarryOver(y, Apply(y.ledger, op));
  }

  lemma NextKeepsCalls(y: System, step: Step)
    requires CallsInv(y) && Enabled(y, step)
    ensures CallsInv(Next(y, step))
  {
    hide CallsInv, Apply;
    match step
    case Begin(_, _, _) => BeginKeeps(y, step);
    case Send(c, backend, lease, now) => DispatchTakesTicket(y, c, backend, lease, now);
    case Execute(_, _, _, _) => ExecuteUsesTicket(y, step);
    case Settled(c) =>
      ApplyKeepsCalls(y, OpOf(y, step).value);
      MoveCall(y.(ledger := After(y.ledger, OpOf(y, step))), c, Finished);
    case Crash(c) => MoveCall(y, c, Finished);
    case Background(op) => ApplyKeepsCalls(y, op);
  }

  lemma {:induction false} StepsKeepFrom(y: System, steps: seq<Step>)
    requires CallsInv(y)
    ensures CallsInv(Steps(y, steps))
  {
    hide Next, Enabled, CallsInv;
    if steps != [] {
      StepsKeepFrom(y, steps[..|steps| - 1]);
      var before := Steps(y, steps[..|steps| - 1]);
      if Enabled(before, steps[|steps| - 1]) {
        NextKeepsCalls(before, steps[|steps| - 1]);
      }
    }
  }

  lemma StepsKeepCalls(manifests: set<string>, steps: seq<Step>)
    ensures CallsInv(Steps(Idle(manifests), steps))
  {
    hide Steps;
    StepsKeepFrom(Idle(manifests), steps);
  }

  /** Whatever calls, retries, crashes, recovery and late settlements interleave, the gateway is invoked at most once
      per idempotency tuple, and every successful reservation of a tuple names the same attempt. */
  lemma GatewayAtMostOnce(manifests: set<string>, steps: seq<Step>)
    ensures var y := Steps(Idle(manifests), steps);
            && (forall i, j :: 0 <= i < j < |y.executed| ==>
                  && y.executed[i] in y.ledger.rows && y.executed[j] in y.ledger.rows
                  && y.ledger.rows[y.executed[i]].admission.claim != y.ledger.rows[y.executed[j]].admission.claim)
            && (forall i, j :: 0 <= i < |y.answers| && 0 <= j < |y.answers| && y.answers[i].0 == y.answers[j].0 ==>
                  y.answers[i].1 == y.answers[j].1)
  {
    hide Steps;
    StepsKeepCalls(manifests, steps);
  }

  /** A claimed tuple with another request hash is refused and nothing changes. */
  lemma ConflictIsRefused(manifests: set<string>, steps: seq<Step>, q: AdmissionRequest, now: int, spare: Uuid)
    requires q.window > 0 && q.threshold >= 1 && q.maximum.calls >= 1 && AdmissionWindowBudget(q).Some?
    ensures var s := Steps(Idle(manifests), steps).ledger;
            q.Claim() in s.claims ==>
              && s.claims[q.Claim()] in s.rows
              && (s.rows[s.claims[q.Claim()]].admission.hash != q.hash ==>
                    Reserve(s, q, now, spare) == Txn(s, Refused(IdempotencyConflict)))
  {
    hide Steps, AdmissionWindowBudget, ReserveNew;
    StepsKeepCalls(manifests, steps);
  }

  // ---- What was executed is what is settled.

  /** The step belongs to call `c`. */
  predicate About(step: Step, c: nat) { !step.Background? && step.call == c }

  /** The attempt is closed at the cost of one call and these bytes. */
  predicate ClosedWith(r: Row, r': Row, bytes: int, success: bool) {
    && r.reservation != Reconciled && r'.reservation == Reconciled && r'.actual == Cost(1, bytes, 0)
    && r'.state == if success then Succeeded else Failed
  }

  /** A call stays where it is while others move. */
  lemma {:induction false} CallWaits(y: System, steps: seq<Step>, c: nat)
    requires c in y.calls && forall i :: 0 <= i < |steps| ==> !About(steps[i], c)
    ensures c in Steps(y, steps).calls && Steps(y, steps).calls[c] == y.calls[c]
  {
    hide Reserve, Dispatch, Apply, NextCall, OpOf;
    if steps != [] {
      CallWaits(y, steps[..|steps| - 1], c);
    }
  }

  /** Whatever runs before and in between, a call that executes and settles later leaves its attempt as it was, when the
      settlement is refused or comes second, or closed at one call and the bytes it read: SUCCEEDED exactly when the
      gateway did and the reply kept to the reserved size. */
  lemma ReplyIsSettled(manifests: set<string>, before: seq<Step>, between: seq<Step>, c: nat, bytes: nat, success: bool,
                       backend: string)
    requires Enabled(Steps(Idle(manifests), before), Execute(c, bytes, success, backend))
    requires forall i :: 0 <= i < |between| ==> !About(between[i], c)
    ensures var y := Steps(Idle(manifests), before);
            var y' := Steps(Next(y, Execute(c, bytes, success, backend)), between);
            var id := y.calls[c].id;
            && id in y.ledger.rows && id in y'.ledger.rows && Enabled(y', Settled(c))
            && var s, s' := y'.ledger, Next(y', Settled(c)).ledger;
               && OnlyRow(s, s', id)
               && (s'.rows[id] == s.rows[id] ||
                   ClosedWith(s.rows[id], s'.rows[id], bytes,
                              success && bytes <= y.ledger.rows[id].admission.reserved.bytes))
  {
    hide Steps, Apply, Reserve, Dispatch, CallsInv, OnlyRow, ClosedWith;
    var y := Steps(Idle(manifests), before);
    var y1 := Next(y, Execute(c, bytes, success, backend));
    StepsKeepCalls(manifests, before);
    CallKnown(y, c);
    NextKeepsCalls(y, Execute(c, bytes, success, backend));
    StepsKeepFrom(y1, between);
    CallWaits(y1, between, c);
    var y2 := Steps(y1, between);
    CallKnown(y2, c);
    OneSettlement(y2, c);
  }

  lemma CallKnown(y: System, c: nat)
    requires CallsInv(y) && c in y.calls
    ensures CallFits(y, y.calls[c])
  {
  }

  lemma OneSettlement(y: System, c: nat)
    requires c in y.calls && y.calls[c].AtSettle? && y.calls[c].id in y.ledger.rows
    ensures var id, s, s' := y.calls[c].id, y.ledger, Next(y, Settled(c)).ledger;
            && OnlyRow(s, s', id)
            && (s'.rows[id] == s.rows[id] ||
                ClosedWith(s.rows[id], s'.rows[id], y.calls[c].bytes, y.calls[c].success))
  {
    hide Reconcile;
    var call := y.calls[c];
    SettlementExactly(y.ledger, call.id, Cost(1, call.bytes, 0), call.success, call.backend);
  }

  // ---- The settlements the service makes are governed.

  ghost predicate OnTimeSteps(y: System, steps: seq<Step>) {
    forall k :: 0 <= k < |steps| ==>
      var before := Steps(y, steps[..k]);
      Enabled(before, steps[k]) && OpOf(before, steps[k]).Some? ==> OnTime(before.ledger, OpOf(before, steps[k]).value)
  }

  lemma StepIsGoverned(y: System, step: Step)
    requires CallsInv(y) && Enabled(y, step) && OpOf(y, step).Some?
    ensures GovernedReply(y.ledger, OpOf(y, step).value)
  {
    if step.Settled? {
      assert CallFits(y, y.calls[step.call]);
    }
  }

  lemma NextLedger(y: System, step: Step)
    requires Enabled(y, step)
    ensures Next(y, step).ledger == After(y.ledger, OpOf(y, step))
  {
    hide Apply;
  }

  lemma {:induction false} StepsGovern(manifests: set<string>, steps: seq<Step>)
    requires forall m :: m in manifests ==> |m| == 64
    ensures Kept(Steps(Idle(manifests), steps).ledger) && Governs(Steps(Idle(manifests), steps).ledger)
  {
    hide Next, Enabled, Kept, Governs, Apply, CallsInv, GovernedReply, OpOf;
    if steps == [] {
      FreshKept(manifests);
      FreshGoverns(manifests);
    } else {
      var prefix, step := steps[..|steps| - 1], steps[|steps| - 1];
      StepsGovern(manifests, prefix);
      var before := Steps(Idle(manifests), prefix);
      StepsKeepCalls(manifests, prefix);
      if Enabled(before, step) {
        NextLedger(before, step);
        if OpOf(before, step).Some? {
          StepIsGoverned(before, step);
          ApplyKeeps(before.ledger, OpOf(before, step).value);
        }
      }
    }
  }

  lemma {:induction false} StepsKeepInv(manifests: set<string>, steps: seq<Step>)
    requires OnTimeSteps(Idle(manifests), steps)
    ensures Inv(Steps(Idle(manifests), steps).ledger)
  {
    hide Next, Enabled, Inv, Apply, OnTime, OpOf;
    if steps == [] {
      FreshInv(manifests);
    } else {
      var prefix, step := steps[..|steps| - 1], steps[|steps| - 1];
      assert forall k :: 0 <= k < |prefix| ==> prefix[..k] == steps[..k];
      StepsKeepInv(manifests, prefix);
      var before := Steps(Idle(manifests), prefix);
      if Enabled(before, step) {
        NextLedger(before, step);
        if OpOf(before, step).Some? {
          ApplyKeepsInv(before.ledger, OpOf(before, step).value);
        }
      }
    }
  }

  /** Under the service's own calls control windows keep their caps whatever interleaves, late settlements included;
      while settlements are on time at most 24 replies are over the limit. */
  lemma ServiceKeepsControlCaps(manifests: set<string>, steps: seq<Step>, w: WindowKey)
    requires forall m :: m in manifests ==> |m| == 64
    requires IsControl(w) && w in Steps(Idle(manifests), steps).ledger.windows
    ensures var s := Steps(Idle(manifests), steps).ledger;
            && CountersWithinCaps(s, w)
            && (OnTimeSteps(Idle(manifests), steps) ==> WindowTotal(s, w).overruns <= 24)
  {
    hide Steps, Inv, Indexed, LedgerTracks.Tracked, Governs, OnTimeSteps, IsControl, CountersWithinCaps, WindowTotal;
    StepsGovern(manifests, steps);
    GovernedCounters(Steps(Idle(manifests), steps).ledger, w);
    if OnTimeSteps(Idle(manifests), steps) {
      StepsKeepInv(manifests, steps);
      FewOverruns(Steps(Idle(manifests), steps).ledger, w);
    }
  }
}
