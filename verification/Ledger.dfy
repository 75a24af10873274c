/** The governed attempt ledger: its tables as values, and each database transaction as a function of them. */
module Ledger {
  import opened Options
  import opened Tallies

  /** What a transaction answers: a committed value, or an error after a full rollback. */
  datatype Outcome<+T> = Done(value: T) | Refused(error: Error)

  datatype Error =
    | InvalidPolicy | UnsupportedBudget | IdempotencyConflict | OutcomeUnknown | BudgetExhausted
    | GroupLocked | SelectionStall | ConstraintViolation | NoRows | ObjectsExceedReservation | CasFailed
    | InvalidOwnerEvidence | ReservationMismatch | CostExceedsReservation | ObjectBearing
    | RevisionMismatch | NeedsNoDispatchProof | IngressConflict | OwnerMismatch | InvalidBatch | NegativeDebt
    | InvalidWorker | AuditFailed

  // ---- Keys. Surrogate uuids of windows and groups are replaced by their unique natural keys.

  /** An opaque uuid; only equality matters and 0 is the nil uuid. */
  type Uuid = nat
  const NIL: Uuid := 0

  datatype Cost = Cost(calls: int, bytes: int, objects: int)
  const NO_COST := Cost(0, 0, 0)

  datatype Identity = Identity(service: string, principal: string, tenant: string)
  datatype WindowKey = WindowKey(who: Identity, policy: string, start: int)
  datatype GroupKey = GroupKey(window: WindowKey, capability: string, version: string, fingerprint: string)
  datatype AttemptKey = AttemptKey(who: Identity, capability: string, operation: string, idempotency: string)
  datatype ClaimKey = ClaimKey(attempt: AttemptKey, owner: string)
  /** The inbox uuid is a hash of owner and backend request, so it is modelled as that pair. */
  datatype EvidenceRef = EvidenceRef(owner: string, request: string)

  // ---- Rows.

  datatype AttemptState = Admitted | Running | Succeeded | Failed | Unknown | Unresolved
  datatype DispatchState = NotDispatched | Dispatched | Acknowledged | DispatchUnknown
  datatype ReservationState = Reserved | Reconciled | Released | InDoubt
  datatype ClaimState = Bound | ClaimUnknown | Completed
  datatype Debt = NoDebt | Active(amount: int) | Resolved(amount: int, evidence: EvidenceRef)
  datatype RecoveryLease = RecoveryLease(owner: string, until: int)

  /** The columns fixed when the attempt is admitted. */
  datatype Admission = Admission(
    claim: ClaimKey, hash: string, window: WindowKey, group: GroupKey, reserved: Cost, at: int)

  /** The rows of one attempt id: attempt, admission context, reservation, idempotency claim and object debt. */
  datatype Row = Row(
    admission: Admission,
    state: AttemptState, dispatch: DispatchState, backend: Option<string>, lease: Option<int>,
    unknownSince: Option<int>, recovery: Option<RecoveryLease>, code: string, lock: nat, revision: nat,
    reservation: ReservationState, actual: Cost,
    claimState: ClaimState,
    debt: Debt)

  /** One budget window with its counters, its debt cache and its distinct-object hashes. */
  datatype Window = Window(
    heldCalls: int, heldBytes: int, heldObjects: int,
    usedCalls: int, usedBytes: int, usedObjects: int,
    debtCache: int, versions: set<string>, objects: set<string>)

  const EMPTY_WINDOW := Window(0, 0, 0, 0, 0, 0, 0, {"v1"}, {})

  datatype Guard = Guard(equivalent: int, blocked: bool, blocking: int)
  const NEW_GUARD := Guard(0, false, 0)

  datatype EvidenceKind = OwnerResult | OwnerProvesNoDispatch
  datatype EvidenceState = Verified | Consumed | Quarantined
  datatype Report = Report(
    kind: EvidenceKind, terminal: AttemptState, code: string, resultRef: string, actual: int, hashes: seq<string>)
  datatype Evidence = Evidence(attempt: Uuid, window: WindowKey, report: Report, state: EvidenceState)

  datatype Adjustment = Adjustment(window: WindowKey, attempt: Uuid, prior: int, delta: int, debtDelta: int)
  datatype Category = ScopeViolation | BindingViolation | ContractViolation | CryptoViolation
  datatype AuditRecord =
    | DispatchNotStarted(attempt: Uuid)
    | DebtCacheRepaired(window: WindowKey, cached: int, authoritative: int)

  datatype Ledger = Ledger(
    rows: map<Uuid, Row>,
    claims: map<ClaimKey, Uuid>,        // primary key of idempotency_claim
    keys: map<AttemptKey, Uuid>,        // unique key of tool_attempt
    requests: map<string, Uuid>,        // unique backend_request_id
    windows: map<WindowKey, Window>,
    guards: map<GroupKey, Guard>,
    inbox: map<EvidenceRef, Evidence>,
    adjustments: map<EvidenceRef, Adjustment>,
    incidents: set<(EvidenceRef, Category)>,
    audit: seq<AuditRecord>,
    manifests: set<string>)

  datatype Txn<+T> = Txn(db: Ledger, outcome: Outcome<T>)

  /** An empty database with some registered manifest snapshots. */
  function Fresh(manifests: set<string>): Ledger {
    Ledger(map[], map[], map[], map[], map[], map[], map[], map[], {}, [], manifests)
  }

  function Refuse<T>(s: Ledger, e: Error): Txn<T> { Txn(s, Refused(e)) }

  // ---- Shares: what one row adds to its window and group.

  /** The uncertainty no accepted evidence has closed. */
  predicate Open(r: Row) {
    r.state == Unknown || r.state == Unresolved || (r.state == Failed && r.debt.Active?)
  }

  function Share(r: Row): Tally {
    var held := r.reservation == Reserved || r.reservation == InDoubt;
    Tally(Amount(if held then r.admission.reserved.calls else 0,
                 if held then r.admission.reserved.bytes else 0,
                 if r.reservation == Reserved then r.admission.reserved.objects else 0),
          Amount(r.actual.calls, r.actual.bytes, r.actual.objects),
          Marks(if r.debt.Active? then r.debt.amount else 0,
                if r.actual.bytes > r.admission.reserved.bytes then 1 else 0,
                if Open(r) then 1 else 0,
                1))
  }

  function WindowShare(w: WindowKey): Row -> Tally {
    (r: Row) => if r.admission.window == w then Share(r) else ZERO
  }

  function GroupShare(g: GroupKey): Row -> Tally {
    (r: Row) => if r.admission.group == g then Share(r) else ZERO
  }

  /** An adjustment counts its newly inserted objects as used. */
  function AdjustmentShare(w: WindowKey): Adjustment -> Tally {
    (a: Adjustment) => if a.window == w then ZERO.(used := Amount(0, 0, a.delta)) else ZERO
  }

  ghost function WindowTotal(s: Ledger, w: WindowKey): Tally { Sum(s.rows, WindowShare(w)) }
  ghost function GroupTotal(s: Ledger, g: GroupKey): Tally { Sum(s.rows, GroupShare(g)) }
  ghost function AdjustedObjects(s: Ledger, w: WindowKey): int {
    Sum(s.adjustments, AdjustmentShare(w)).usedObjects
  }

  // ---- Admission.

  const CONTROL_PROFILE := "ouf.operational-control-budget.v1"
  const MINUTE := 60_000_000_000

  datatype AdmissionRequest = AdmissionRequest(
    profile: string, attemptId: Uuid, who: Identity, capability: string, owner: string, operation: string,
    manifest: string, idempotency: string, hash: string, fingerprint: string, version: string,
    window: int, threshold: int, maximum: Cost)
  {
    function Claim(): ClaimKey { ClaimKey(AttemptKey(who, capability, operation, idempotency), owner) }
  }

  datatype Decision = Decision(attemptId: Uuid, replay: bool)
  datatype WindowBudget = WindowBudget(policy: string, cap: Cost)

  predicate IsOperationalControlRead(capability: string, operation: string) {
    operation == "READ" &&
    capability in {"ouf.operations.summary", "ouf.operations.incidents",
                   "ouf.ingestion.operations.summary", "ouf.ingestion.operations.incidents",
                   "ouf.gateway.operations.summary", "ouf.gateway.operations.incidents"}
  }

  /** The window a request draws on and that window's caps; None when the profile is not supported. */
  function AdmissionWindowBudget(q: AdmissionRequest): Option<WindowBudget> {
    if q.profile == "" then
      Some(WindowBudget(q.manifest,
                        Cost(q.maximum.calls * q.threshold, q.maximum.bytes * q.threshold,
                             q.maximum.objects * q.threshold)))
    else if q.profile != CONTROL_PROFILE || !IsOperationalControlRead(q.capability, q.operation) ||
            q.window != MINUTE || q.threshold != 3 || q.maximum.calls != 1 || q.maximum.bytes < 1 ||
            q.maximum.bytes > 512 * 1024 || q.maximum.objects < 0 || q.maximum.objects > 100 then None
    else Some(WindowBudget(q.manifest + ":" + CONTROL_PROFILE, Cost(24, 12 * 1024 * 1024, 2400)))
  }

  /** The reservations the operational-control profile admits. */
  predicate ControlCost(c: Cost) {
    c.calls == 1 && 1 <= c.bytes <= 512 * 1024 && 0 <= c.objects <= 100
  }

  /** A recorded cost of at most one call, and at most one byte over the reservation. */
  predicate Thrifty(r: Row) {
    0 <= r.actual.calls <= 1 && r.actual.bytes <= r.admission.reserved.bytes + 1 &&
    (r.actual.bytes > r.admission.reserved.bytes ==> r.actual.calls == 1)
  }

  function Truncate(now: int, window: int): int
    requires window > 0
  {
    now - now % window
  }

  /** The window and retry group a supported request falls into. */
  function WindowOf(q: AdmissionRequest, now: int): WindowKey
    requires q.window > 0 && AdmissionWindowBudget(q).Some?
  {
    WindowKey(q.who, AdmissionWindowBudget(q).value.policy, Truncate(now, q.window))
  }

  function GroupOf(q: AdmissionRequest, now: int): GroupKey
    requires q.window > 0 && AdmissionWindowBudget(q).Some?
  {
    GroupKey(WindowOf(q, now), q.capability, q.version, q.fingerprint)
  }

  function Lookup<K, V>(m: map<K, V>, k: K, default: V): V {
    if k in m then m[k] else default
  }

  /** The budget check of an admission, given the window's ACTIVE debt. */
  predicate Exceeds(w: Window, debt: int, maximum: Cost, cap: Cost) {
    || w.heldCalls + w.usedCalls + maximum.calls > cap.calls
    || w.heldBytes + w.usedBytes + maximum.bytes > cap.bytes
    || (maximum.objects > 0 && w.heldObjects + w.usedObjects + debt + maximum.objects > cap.objects)
  }

  /** The request columns that the table constraints accept. */
  predicate InsertAccepted(s: Ledger, q: AdmissionRequest, id: Uuid) {
    && id !in s.rows
    && q.Claim().attempt !in s.keys
    && q.manifest in s.manifests
    && |q.hash| == 64 && (forall i :: 0 <= i < 64 ==> '0' <= q.hash[i] <= '9' || 'a' <= q.hash[i] <= 'f')
    && q.maximum.objects >= 0
  }

  function NewRow(q: AdmissionRequest, w: WindowKey, g: GroupKey, now: int): Row {
    Row(Admission(q.Claim(), q.hash, w, g, q.maximum, now),
        Admitted, NotDispatched, None, None, None, None, "", 0, 0, Reserved, NO_COST, Bound, NoDebt)
  }

  function Hold(w: Window, c: Cost): Window {
    w.(heldCalls := w.heldCalls + c.calls, heldBytes := w.heldBytes + c.bytes, heldObjects := w.heldObjects + c.objects)
  }

  function Admit(s: Ledger, id: Uuid, r: Row): Ledger {
    var w, g := r.admission.window, r.admission.group;
    var guard := Lookup(s.guards, g, NEW_GUARD);
    s.(rows := s.rows[id := r],
       claims := s.claims[r.admission.claim := id],
       keys := s.keys[r.admission.claim.attempt := id],
       windows := s.windows[w := Hold(Lookup(s.windows, w, EMPTY_WINDOW), r.admission.reserved)],
       guards := s.guards[g := guard.(equivalent := guard.equivalent + 1)])
  }

  function Replay(s: Ledger, q: AdmissionRequest): Txn<Decision>
    requires q.Claim() in s.claims
  {
    var id := s.claims[q.Claim()];
    if id !in s.rows then Refuse(s, NoRows)
    else if s.rows[id].admission.hash != q.hash then Refuse(s, IdempotencyConflict)
    else if s.rows[id].state == Unknown || s.rows[id].state == Unresolved then Refuse(s, OutcomeUnknown)
    else Txn(s, Done(Decision(id, true)))
  }

  /** One serializable admission. `spare` is the id drawn when the request names none. */
  ghost function Reserve(s: Ledger, q: AdmissionRequest, now: int, spare: Uuid): Txn<Decision> {
    if q.window <= 0 || q.threshold < 1 || q.maximum.calls < 1 then Refuse(s, InvalidPolicy)
    else if AdmissionWindowBudget(q).None? then Refuse(s, UnsupportedBudget)
    else if q.Claim() in s.claims then Replay(s, q)
    else ReserveNew(s, q, now, spare)
  }

  ghost function ReserveNew(s: Ledger, q: AdmissionRequest, now: int, spare: Uuid): Txn<Decision>
    requires q.window > 0 && AdmissionWindowBudget(q).Some?
  {
    var cap := AdmissionWindowBudget(q).value.cap;
    var w, g := WindowOf(q, now), GroupOf(q, now);
    var guard := Lookup(s.guards, g, NEW_GUARD);
    var id := if q.attemptId == NIL then spare else q.attemptId;
    if Exceeds(Lookup(s.windows, w, EMPTY_WINDOW), WindowTotal(s, w).debt, q.maximum, cap) then
      Refuse(s, BudgetExhausted)
    else if guard.blocking > 0 then Refuse(s, GroupLocked)
    else if guard.blocked || guard.equivalent + 1 >= q.threshold then Refuse(s, SelectionStall)
    else if !InsertAccepted(s, q, id) then Refuse(s, ConstraintViolation)
    else Txn(Admit(s, id, NewRow(q, w, g, now)), Done(Decision(id, false)))
  }

  // ---- Dispatch and settlement.

  /** Replace one row, leaving its window and group books to the caller. */
  function Put(s: Ledger, id: Uuid, r: Row, w: Window): Ledger {
    s.(rows := s.rows[id := r], windows := s.windows[r.admission.window := w])
  }

  function DispatchedRow(r: Row, backend: string, until: int): Row {
    r.(state := Running, dispatch := Dispatched, backend := Some(backend), lease := Some(until), lock := r.lock + 1)
  }

  /** The compare-and-set that starts an attempt. */
  function Dispatch(s: Ledger, id: Uuid, backend: string, lease: int, expected: int, now: int): Txn<()> {
    if id !in s.rows || s.rows[id].state != Admitted || s.rows[id].dispatch != NotDispatched ||
       s.rows[id].lock != expected then
      Refuse(s, NoRows)
    else if backend in s.requests then Refuse(s, ConstraintViolation)
    else
      Txn(s.(rows := s.rows[id := DispatchedRow(s.rows[id], backend, now + lease)],
             requests := s.requests[backend := id]),
          Done(()))
  }

  function Settle(w: Window, reserved: Cost, actual: Cost): Window {
    w.(heldCalls := w.heldCalls - reserved.calls, heldBytes := w.heldBytes - reserved.bytes,
       heldObjects := w.heldObjects - reserved.objects,
       usedCalls := w.usedCalls + actual.calls, usedBytes := w.usedBytes + actual.bytes,
       usedObjects := w.usedObjects + actual.objects)
  }

  function ReconciledRow(r: Row, actual: Cost, success: bool, backend: string): Row {
    r.(state := if success then Succeeded else Failed, dispatch := Acknowledged,
       backend := if r.backend.Some? then r.backend else Some(backend), lease := None, lock := r.lock + 1,
       reservation := Reconciled, actual := actual)
  }

  /** Settle a finished call. Only a RECONCILED reservation is left alone, whatever else its state is. */
  function Reconcile(s: Ledger, id: Uuid, actual: Cost, success: bool, backend: string): Txn<()> {
    if id !in s.rows then Refuse(s, NoRows)
    else
      var r := s.rows[id];
      if r.reservation == Reconciled then Txn(s, Done(()))
      else if actual.objects < 0 || actual.objects > r.admission.reserved.objects then
        Refuse(s, ObjectsExceedReservation)
      else
        var books := Settle(Lookup(s.windows, r.admission.window, EMPTY_WINDOW), r.admission.reserved, actual);
        if books.heldObjects < 0 || books.usedObjects < 0 then Refuse(s, ConstraintViolation)
        else if r.backend.None? && backend in s.requests then Refuse(s, ConstraintViolation)
        else
          var r' := ReconciledRow(r, actual, success, backend);
          Txn(Put(s, id, r', books).(requests := s.requests[r'.backend.value := id]), Done(()))
  }

  // ---- Recovery.

  function ExpiredRow(r: Row): Row {
    r.(state := Failed, code := "DISPATCH_NOT_STARTED", lock := r.lock + 1, reservation := Released, actual := NO_COST,
       claimState := Completed)
  }

  /** Fail an admission that was never dispatched and give its whole reservation back. */
  function ExpireAdmission(s: Ledger, id: Uuid): Ledger {
    if id !in s.rows || s.rows[id].state != Admitted then s
    else
      var r := s.rows[id];
      Put(s, id, ExpiredRow(r),
          Settle(Lookup(s.windows, r.admission.window, EMPTY_WINDOW), r.admission.reserved, NO_COST))
      .(audit := s.audit + [DispatchNotStarted(id)])
  }

  function Block(s: Ledger, g: GroupKey, change: int): map<GroupKey, Guard> {
    var guard := Lookup(s.guards, g, NEW_GUARD);
    s.guards[g := guard.(blocking := guard.blocking + change)]
  }

  function StaleRow(r: Row, now: int): Row {
    r.(state := Unknown, dispatch := DispatchUnknown, unknownSince := Some(now), lease := None, lock := r.lock + 1,
       reservation := InDoubt, claimState := ClaimUnknown,
       debt := if r.admission.reserved.objects > 0 then Active(r.admission.reserved.objects) else NoDebt)
  }

  function Indebt(w: Window, objects: int): Window {
    w.(heldObjects := w.heldObjects - objects, debtCache := w.debtCache + objects)
  }

  predicate LeaseExpired(r: Row, now: int) {
    r.state == Running && r.lease.Some? && r.lease.value < now
  }

  /** A dispatch whose lease ran out becomes UNKNOWN: it blocks its group and turns its objects into debt. */
  function MarkStale(s: Ledger, id: Uuid, now: int): Ledger {
    if id !in s.rows || !LeaseExpired(s.rows[id], now) then s
    else
      var r := s.rows[id];
      Put(s, id, StaleRow(r, now),
          Indebt(Lookup(s.windows, r.admission.window, EMPTY_WINDOW), r.admission.reserved.objects))
      .(guards := Block(s, r.admission.group, 1))
  }

  predicate Claimable(r: Row, now: int) {
    r.state == Unknown && (r.recovery.None? || r.recovery.value.until < now)
  }

  /** Lease an UNKNOWN attempt to a recovery worker. */
  function ClaimRecovery(s: Ledger, id: Uuid, worker: string, now: int, lease: int): Ledger {
    if id !in s.rows || !Claimable(s.rows[id], now) then s
    else s.(rows := s.rows[id := s.rows[id].(recovery := Some(RecoveryLease(worker, now + lease)))])
  }

  function ExpireAdmissions(s: Ledger, ids: seq<Uuid>): Ledger {
    if ids == [] then s else ExpireAdmission(ExpireAdmissions(s, ids[..|ids| - 1]), ids[|ids| - 1])
  }

  function MarkAllStale(s: Ledger, ids: seq<Uuid>, now: int): Ledger {
    if ids == [] then s else MarkStale(MarkAllStale(s, ids[..|ids| - 1], now), ids[|ids| - 1], now)
  }

  function ClaimAll(s: Ledger, ids: seq<Uuid>, worker: string, now: int, lease: int): Ledger {
    if ids == [] then s
    else ClaimRecovery(ClaimAll(s, ids[..|ids| - 1], worker, now, lease), ids[|ids| - 1], worker, now, lease)
  }

  datatype OwnerOutcome = OwnerSucceeded | OwnerFailed | OwnerNotDispatched | OwnerUnknown
  datatype OwnerEvidence = OwnerEvidence(request: string, outcome: OwnerOutcome, code: string, calls: int, bytes: int)

  function OwnerSettledRow(r: Row, e: OwnerEvidence): Row {
    var released := e.outcome == OwnerNotDispatched;
    r.(state := if e.outcome == OwnerSucceeded then Succeeded else Failed,
       dispatch := if released then NotDispatched else Acknowledged,
       code := e.code, recovery := None, lock := r.lock + 1,
       reservation := if released then Released else Reconciled,
       actual := if released then NO_COST else Cost(e.calls, e.bytes, 0),
       claimState := Completed)
  }

  /** Close an object-free UNKNOWN attempt with the owner's actual cost, and release its blocker. */
  function OwnerSettle(s: Ledger, id: Uuid, e: OwnerEvidence): Ledger
    requires id in s.rows
  {
    var r, r' := s.rows[id], OwnerSettledRow(s.rows[id], e);
    var books := Settle(Lookup(s.windows, r.admission.window, EMPTY_WINDOW), r.admission.reserved.(objects := 0),
                        r'.actual);
    Put(s, id, r', books).(guards := Block(s, r.admission.group, -1))
  }

  /** Apply one owner answer to an UNKNOWN attempt held by `worker`. */
  function ApplyOwnerEvidence(s: Ledger, id: Uuid, worker: string, e: OwnerEvidence): Txn<()> {
    if id !in s.rows || s.rows[id].backend.None? then Refuse(s, NoRows)
    else
      var r := s.rows[id];
      var owner := if r.recovery.Some? then r.recovery.value.owner else "";
      if r.state != Unknown then Txn(s, Done(()))
      else if owner != worker || r.backend.value != e.request then Refuse(s, InvalidOwnerEvidence)
      else if e.outcome == OwnerUnknown then
        if r.recovery.None? then Refuse(s, CasFailed)
        else Txn(s.(rows := s.rows[id := r.(recovery := None)]), Done(()))
      else if r.reservation != InDoubt then Refuse(s, ReservationMismatch)
      else if e.calls < 0 || e.bytes < 0 || e.calls > r.admission.reserved.calls ||
              e.bytes > r.admission.reserved.bytes then
        Refuse(s, CostExceedsReservation)
      else if r.admission.reserved.objects > 0 then Refuse(s, ObjectBearing)
      else if r.recovery.None? then Refuse(s, CasFailed)
      else Txn(OwnerSettle(s, id, e), Done(()))
  }

  function UnresolvedRow(r: Row): Row {
    r.(state := Unresolved, code := "MAX_UNKNOWN_HOLD", recovery := None, lock := r.lock + 1, reservation := Reconciled,
       actual := r.admission.reserved.(objects := 0), claimState := Completed)
  }

  /** Give up on an UNKNOWN attempt: its calls and bytes are charged in full, its debt and blocker stay. */
  function ExpireUnknownOne(s: Ledger, id: Uuid): Ledger {
    if id !in s.rows || s.rows[id].state != Unknown || s.rows[id].reservation != InDoubt then s
    else
      var r := s.rows[id];
      var charge := r.admission.reserved.(objects := 0);
      Put(s, id, UnresolvedRow(r), Settle(Lookup(s.windows, r.admission.window, EMPTY_WINDOW), charge, charge))
  }

  function ExpireUnknowns(s: Ledger, ids: seq<Uuid>): Ledger {
    if ids == [] then s else ExpireUnknownOne(ExpireUnknowns(s, ids[..|ids| - 1]), ids[|ids| - 1])
  }

  // ---- Owner evidence.

  /** The column checks of the evidence inbox. */
  predicate WellFormedReport(e: Report) {
    && (e.terminal == Succeeded || e.terminal == Failed)
    && e.actual >= 0
    && (e.kind == OwnerProvesNoDispatch ==>
          e.terminal == Failed && e.code == "DISPATCH_NOT_STARTED" && e.actual == 0 && e.hashes == [] &&
          e.resultRef == "")
    && (e.kind == OwnerResult ==> e.resultRef != "")
  }

  /** File verified evidence once per backend request; true means an identical report was already filed. */
  function InsertVerifiedEvidence(s: Ledger, ref: EvidenceRef, report: Report): Txn<bool> {
    if ref in s.inbox then
      if s.inbox[ref].report != report then Refuse(s, IngressConflict) else Txn(s, Done(true))
    else if ref.request !in s.requests || s.requests[ref.request] !in s.rows ||
            s.rows[s.requests[ref.request]].admission.claim.owner != ref.owner then Refuse(s, OwnerMismatch)
    else if !WellFormedReport(report) then Refuse(s, ConstraintViolation)
    else
      var id := s.requests[ref.request];
      Txn(s.(inbox := s.inbox[ref := Evidence(id, s.rows[id].admission.window, report, Verified)]), Done(false))
  }

  function UpTo(h: string, c: char): string {
    if h == "" || h[0] == c then "" else [h[0]] + UpTo(h[1..], c)
  }

  /** `^v[0-9]+:(hmac-sha256|hmac-sha384):[A-Za-z0-9_-]{32,512}$` */
  predicate MatchesHashPattern(h: string) {
    var v := UpTo(h, ':');
    && |v| >= 2 && v[0] == 'v' && (forall i :: 1 <= i < |v| ==> '0' <= v[i] <= '9')
    && |v| + 13 <= |h|
    && h[|v|..|v| + 13] in {":hmac-sha256:", ":hmac-sha384:"}
    && 32 <= |h| - |v| - 13 <= 512
    && forall i :: |v| + 13 <= i < |h| ==>
         'A' <= h[i] <= 'Z' || 'a' <= h[i] <= 'z' || '0' <= h[i] <= '9' || h[i] == '_' || h[i] == '-'
  }

  predicate SoundHash(h: string, versions: set<string>) {
    MatchesHashPattern(h) && UpTo(h, ':') in versions
  }

  /** Why authoritative evidence is rejected, if it is. */
  function Violation(e: Report, versions: set<string>, debt: int): (why: Option<Category>)
    ensures why.None? || why.value == CryptoViolation || why.value == ContractViolation
  {
    if exists i :: 0 <= i < |e.hashes| && !SoundHash(e.hashes[i], versions) then Some(CryptoViolation)
    else if |set h | h in e.hashes| != e.actual || e.actual > debt ||
            (e.kind == OwnerProvesNoDispatch && (e.actual != 0 || |e.hashes| != 0)) then Some(ContractViolation)
    else None
  }

  datatype Disposition =
    | IdempotentReplay | DomainViolationReplay | RejectedScope | RejectedBinding
    | CommittedDomainViolation | Compensated

  function ViolatedRow(r: Row, why: Category): Row {
    r.(state := Failed, dispatch := Acknowledged,
       code := if why == CryptoViolation then "CRYPTO_VIOLATION" else "CONTRACT_VIOLATION",
       lock := r.lock + 1, revision := r.revision + 1)
  }

  function Quarantine(s: Ledger, ref: EvidenceRef, why: Category): Ledger
    requires ref in s.inbox
  {
    s.(inbox := s.inbox[ref := s.inbox[ref].(state := Quarantined)], incidents := s.incidents + {(ref, why)})
  }

  function CompensatedRow(r: Row, ref: EvidenceRef, e: Report): Row
    requires r.debt.Active?
  {
    var r' := r.(state := e.terminal,
                 dispatch := if e.kind == OwnerProvesNoDispatch then NotDispatched else Acknowledged,
                 code := e.code, lock := r.lock + 1, revision := r.revision + 1,
                 debt := Debt.Resolved(r.debt.amount, ref));
    if r.state == Unknown then r'.(reservation := Released, actual := NO_COST, claimState := Completed) else r'
  }

  function CompensatedWindow(w: Window, r: Row, e: Report): Window
    requires r.debt.Active?
  {
    var unique := set h | h in e.hashes;
    var w' := w.(usedObjects := w.usedObjects + |unique - w.objects|, debtCache := w.debtCache - r.debt.amount,
                 objects := w.objects + unique);
    if r.state == Unknown then Settle(w', r.admission.reserved.(objects := 0), NO_COST) else w'
  }

  /** Fail the attempt and quarantine the evidence; debt, blocker and budget stay. */
  function Violate(s: Ledger, id: Uuid, ref: EvidenceRef, why: Category): Ledger
    requires id in s.rows && ref in s.inbox
  {
    Quarantine(s, ref, why).(rows := s.rows[id := ViolatedRow(s.rows[id], why)])
  }

  /** Accept the evidence: resolve the debt, release the blocker, record the adjustment. */
  function Compensate(s: Ledger, id: Uuid, ref: EvidenceRef): Ledger
    requires id in s.rows && ref in s.inbox && s.rows[id].debt.Active?
  {
    var r, e := s.rows[id], s.inbox[ref];
    var w := Lookup(s.windows, r.admission.window, EMPTY_WINDOW);
    var delta := |(set h | h in e.report.hashes) - w.objects|;
    Put(s, id, CompensatedRow(r, ref, e.report), CompensatedWindow(w, r, e.report))
    .(guards := Block(s, r.admission.group, -1),
      inbox := s.inbox[ref := e.(state := Consumed)],
      adjustments := s.adjustments[ref := Adjustment(r.admission.window, id, r.revision, delta, -r.debt.amount)])
  }

  /** The verdict on VERIFIED evidence for an uncertain attempt that still owes its objects. */
  function Adjudicate(s: Ledger, id: Uuid, ref: EvidenceRef): Txn<Disposition>
    requires id in s.rows && ref in s.inbox && s.rows[id].debt.Active? && s.rows[id].backend.Some?
  {
    var r, e := s.rows[id], s.inbox[ref];
    if e.attempt != id then
      Txn(s.(incidents := s.incidents + {(ref, ScopeViolation)}), Done(RejectedScope))
    else if e.window != r.admission.window || ref.owner != r.admission.claim.owner ||
            ref.request != r.backend.value then
      Txn(Quarantine(s, ref, BindingViolation), Done(RejectedBinding))
    else
      var why := Violation(e.report, Lookup(s.windows, r.admission.window, EMPTY_WINDOW).versions, r.debt.amount);
      if why.Some? then Txn(Violate(s, id, ref, why.value), Done(CommittedDomainViolation))
      else if r.state == Unknown && (e.report.kind != OwnerProvesNoDispatch || r.reservation != InDoubt) then
        Refuse(s, NeedsNoDispatchProof)
      else if ref in s.adjustments then Refuse(s, ConstraintViolation)
      else Txn(Compensate(s, id, ref), Done(Compensated))
  }

  /** Close an uncertain attempt with filed evidence. */
  function LateCompensate(s: Ledger, id: Uuid, ref: EvidenceRef, expected: int): Txn<Disposition> {
    if ref !in s.inbox then Refuse(s, NoRows)
    else if s.inbox[ref].attempt == id && s.inbox[ref].state != Verified then
      if id !in s.rows then Refuse(s, NoRows)
      else Txn(s, Done(if s.inbox[ref].state == Consumed then IdempotentReplay else DomainViolationReplay))
    else if id !in s.rows || s.rows[id].backend.None? then Refuse(s, NoRows)
    else if s.rows[id].revision != expected || (s.rows[id].state != Unresolved && s.rows[id].state != Unknown) then
      Refuse(s, RevisionMismatch)
    else if !s.rows[id].debt.Active? then Refuse(s, NoRows)
    else if s.inbox[ref].state == Consumed then Txn(s, Done(IdempotentReplay))
    else if s.inbox[ref].state == Quarantined then Txn(s, Done(DomainViolationReplay))
    else Adjudicate(s, id, ref)
  }

  // ---- Debt cache repair.

  /** Reset one window's debt cache to the sum of its ACTIVE debt rows. */
  ghost function RepairDebtCache(s: Ledger, w: WindowKey): Ledger {
    if w !in s.windows || s.windows[w].debtCache < 0 || WindowTotal(s, w).debt < 0 ||
       s.windows[w].debtCache == WindowTotal(s, w).debt then s
    else
      var debt := WindowTotal(s, w).debt;
      s.(windows := s.windows[w := s.windows[w].(debtCache := debt)],
         audit := s.audit + [DebtCacheRepaired(w, s.windows[w].debtCache, debt)])
  }

  ghost function RepairDebtCaches(s: Ledger, ws: seq<WindowKey>): Ledger {
    if ws == [] then s else RepairDebtCache(RepairDebtCaches(s, ws[..|ws| - 1]), ws[|ws| - 1])
  }
}
