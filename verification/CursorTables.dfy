/** The cursor tables as values: sessions, their page nodes, and what Create and Commit do to them. */
module CursorTables {
  import opened Options
  import opened CursorFrames

  datatype Binding = Binding(principal: string, tenant: string, fingerprint: string, policy: string, manifest: string)

  predicate ValidBinding(b: Binding) {
    && 1 <= |b.principal| <= 200 && 1 <= |b.tenant| <= 200 && 1 <= |b.policy| <= 512
    && ValidDigest(b.fingerprint) && ValidDigest(b.manifest)
  }

  datatype Session = Session(binding: Binding, expires: int)

  /** One page of a session. Its digest and successor are set together, by the first commit. */
  datatype Node = Node(session: nat, frame: CursorFrame, number: int, digest: Option<string>, next: Option<nat>)

  /** `supply` is the next unused token: tokens are never reused. */
  datatype Tables = Tables(sessions: map<nat, Session>, nodes: map<nat, Node>, supply: nat)

  const EMPTY := Tables(map[], map[], 1)
  const LIFETIME := 30 * 60_000_000_000

  // ---- Counting.

  function SessionsOf(t: Tables, tenant: string): set<nat> {
    set k | k in t.sessions && t.sessions[k].binding.tenant == tenant
  }

  function SessionsBy(t: Tables, tenant: string, principal: string): set<nat> {
    set k | k in t.sessions && t.sessions[k].binding.tenant == tenant && t.sessions[k].binding.principal == principal
  }

  function NodesOf(t: Tables, tenant: string): set<nat> {
    set k | k in t.nodes && t.nodes[k].session in t.sessions && t.sessions[t.nodes[k].session].binding.tenant == tenant
  }

  function NodesBy(t: Tables, tenant: string, principal: string): set<nat> {
    set k | k in t.nodes && t.nodes[k].session in t.sessions &&
            t.sessions[t.nodes[k].session].binding.tenant == tenant &&
            t.sessions[t.nodes[k].session].binding.principal == principal
  }

  predicate NodeRoom(t: Tables, b: Binding) {
    |t.nodes| < 32768 && |NodesOf(t, b.tenant)| < 4096 && |NodesBy(t, b.tenant, b.principal)| < 800
  }

  predicate SessionRoom(t: Tables, b: Binding) {
    |t.sessions| < 4096 && |SessionsOf(t, b.tenant)| < 128 && |SessionsBy(t, b.tenant, b.principal)| < 16
  }

  // ---- Operations.

  /** The session a creation may clear: the one that expired first, if any has. */
  predicate RightVictim(t: Tables, now: int, victim: Option<nat>) {
    match victim
    case None => forall k :: k in t.sessions ==> t.sessions[k].expires > now
    case Some(v) =>
      && v in t.sessions && t.sessions[v].expires <= now
      && forall k :: k in t.sessions ==> t.sessions[v].expires <= t.sessions[k].expires
  }

  /** Remove a session and, by cascade, its nodes. */
  function Clear(t: Tables, victim: Option<nat>): Tables {
    if victim.None? then t
    else t.(sessions := t.sessions - {victim.value},
            nodes := map k | k in t.nodes && t.nodes[k].session != victim.value :: t.nodes[k])
  }

  /** A new session with its page 0; answers the page's token. */
  function Create(t: Tables, b: Binding, frame: CursorFrame, now: int, victim: Option<nat>): (Tables, Answer<nat>) {
    if !ValidBinding(b) || frame.pageNumber != 0 || !ValidFrame(frame) then (t, Err(Conflict))
    else
      var c := Clear(t, victim);
      if !SessionRoom(c, b) || !NodeRoom(c, b) then (t, Err(Capacity))
      else
        var token, session := t.supply, t.supply + 1;
        (Tables(c.sessions[session := Session(b, now + LIFETIME)],
                c.nodes[token := Node(session, frame, 0, None, None)], t.supply + 2),
         Ok(token))
  }

  predicate Visible(t: Tables, token: nat, b: Binding) {
    token in t.nodes && t.nodes[token].session in t.sessions && t.sessions[t.nodes[token].session].binding == b
  }

  function Load(t: Tables, token: nat, b: Binding, now: int): Answer<Node> {
    if !ValidBinding(b) || token == 0 || !Visible(t, token, b) then Err(NotFound)
    else if t.sessions[t.nodes[token].session].expires <= now then Err(Expired)
    else if !ValidFrame(t.nodes[token].frame) then Err(Conflict)
    else Ok(t.nodes[token])
  }

  /** Fix the page's digest and successor, or replay them. */
  function Commit(t: Tables, token: nat, b: Binding, digest: string, next: Option<CursorFrame>, now: int)
    : (Tables, Answer<Option<nat>>)
  {
    if |digest| != 64 || !ValidBinding(b) || (next.Some? && !ValidFrame(next.value)) then (t, Err(Conflict))
    else if !Visible(t, token, b) || t.sessions[t.nodes[token].session].expires <= now then (t, Err(NotFound))
    else
      var node := t.nodes[token];
      if node.digest.Some? then
        if node.digest.value != digest || next.None? != node.next.None? then (t, Err(Conflict))
        else if next.Some? && (node.next.value !in t.nodes || t.nodes[node.next.value].frame != next.value) then
          (t, Err(Conflict))
        else (t, Ok(node.next))
      else if next.None? then
        (t.(nodes := t.nodes[token := node.(digest := Some(digest))]), Ok(None))
      else if next.value.pageNumber != node.number + 1 || !SameCursorScope(node.frame, next.value) then
        (t, Err(Conflict))
      else if !NodeRoom(t, b) then (t, Err(Capacity))
      else
        var child := t.supply;
        (Tables(t.sessions,
                t.nodes[token := node.(digest := Some(digest), next := Some(child))]
                [child := Node(node.session, next.value, next.value.pageNumber, None, None)],
                t.supply + 1),
         Ok(Some(child)))
  }

  // ---- The invariant.

  /** A node's place in its session's chain. */
  predicate NodeSound(t: Tables, k: nat)
    requires k in t.nodes
  {
    var n := t.nodes[k];
    && 0 < k < t.supply && n.session in t.sessions && n.number == n.frame.pageNumber && 0 <= n.number <= 200 &&
       ValidFrame(n.frame)
    && (n.digest.None? ==> n.next.None?)
    && (n.next.Some? ==>
          && n.next.value in t.nodes && t.nodes[n.next.value].session == n.session &&
             t.nodes[n.next.value].number == n.number + 1
          && SameCursorScope(n.frame, t.nodes[n.next.value].frame))
  }

  predicate NodesSound(t: Tables) { forall k :: k in t.nodes ==> NodeSound(t, k) }

  /** Within a session there is at most one node per page number, and every later page hangs off its predecessor. */
  predicate Chained(t: Tables) {
    && (forall j, k :: j in t.nodes && k in t.nodes && j != k ==>
          t.nodes[j].session != t.nodes[k].session || t.nodes[j].number != t.nodes[k].number)
    && (forall k :: k in t.nodes && t.nodes[k].number > 0 ==> HasParent(t, k))
  }

  predicate HasParent(t: Tables, k: nat)
    requires k in t.nodes
  {
    exists j :: j in t.nodes && t.nodes[j].next == Some(k) && t.nodes[j].session == t.nodes[k].session
  }

  predicate SessionsSound(t: Tables) {
    forall k :: k in t.sessions ==> 0 < k < t.supply && ValidBinding(t.sessions[k].binding)
  }

  ghost predicate WithinCaps(t: Tables) {
    && |t.sessions| <= 4096 && |t.nodes| <= 32768
    && (forall tenant: string :: |SessionsOf(t, tenant)| <= 128 && |NodesOf(t, tenant)| <= 4096)
    && (forall tenant: string, principal: string ::
          |SessionsBy(t, tenant, principal)| <= 16 && |NodesBy(t, tenant, principal)| <= 800)
  }

  ghost predicate TablesInv(t: Tables) {
    t.supply > 0 && NodesSound(t) && Chained(t) && SessionsSound(t) && WithinCaps(t)
  }
}
