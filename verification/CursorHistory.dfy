/** Whole histories of the cursor tables: chains, the replay fence and the caps. */
module CursorHistory {
  import opened Options
  import opened CursorFrames
  import opened CursorTables
  import opened CursorChains

  datatype Op =
    | OpCreate(binding: Binding, frame: CursorFrame, now: int, victim: Option<nat>)
    | OpCommit(token: nat, binding: Binding, digest: string, next: Option<CursorFrame>, now: int)

  function Apply(t: Tables, op: Op): Tables {
    match op
    case OpCreate(b, frame, now, victim) => Create(t, b, frame, now, victim).0
    case OpCommit(token, b, digest, next, now) => Commit(t, token, b, digest, next, now).0
  }

  function Run(t: Tables, ops: seq<Op>): Tables {
    if ops == [] then t else Apply(Run(t, ops[..|ops| - 1]), ops[|ops| - 1])
  }

  lemma EmptyInv()
    ensures TablesInv(EMPTY)
  {
    assert forall tenant: string :: SessionsOf(EMPTY, tenant) == {} && NodesOf(EMPTY, tenant) == {};
    assert forall tenant: string, principal: string ::
             SessionsBy(EMPTY, tenant, principal) == {} && NodesBy(EMPTY, tenant, principal) == {};
  }

  lemma {:induction false} RunKeepsInv(t: Tables, ops: seq<Op>)
    requires TablesInv(t)
    ensures TablesInv(Run(t, ops))
  {
    hide TablesInv, Create, Commit;
    if ops != [] {
      RunKeepsInv(t, ops[..|ops| - 1]);
      var before := Run(t, ops[..|ops| - 1]);
      match ops[|ops| - 1]
      case OpCreate(b, frame, now, victim) => CreateKeepsInv(before, b, frame, now, victim);
      case OpCommit(token, b, digest, next, now) => CommitKeepsInv(before, token, b, digest, next, now);
    }
  }

  /** In every run the session and node caps per principal, per tenant and in total hold. */
  lemma CapsAlwaysHold(ops: seq<Op>)
    ensures WithinCaps(Run(EMPTY, ops))
  {
    hide WithinCaps;
    EmptyInv();
    RunKeepsInv(EMPTY, ops);
  }

  // ---- Chains.

  /** Page `i` of a session. */
  predicate PageAt(t: Tables, session: nat, i: int, k: nat) {
    k in t.nodes && t.nodes[k].session == session && t.nodes[k].number == i
  }

  lemma {:induction false} EarlierPages(t: Tables, k: nat, i: nat)
    requires NodesSound(t) && Chained(t) && k in t.nodes && i <= t.nodes[k].number
    ensures exists j :: PageAt(t, t.nodes[k].session, i, j)
    decreases t.nodes[k].number
  {
    hide ValidFrame, SameCursorScope;
    assert NodeSound(t, k);
    if i == t.nodes[k].number {
      assert PageAt(t, t.nodes[k].session, i, k);
    } else {
      assert HasParent(t, k);
      var j :| j in t.nodes && t.nodes[j].next == Some(k) && t.nodes[j].session == t.nodes[k].session;
      assert NodeSound(t, j);
      EarlierPages(t, j, i);
    }
  }

  lemma OnePerNumber(t: Tables, session: nat, i: int, a: nat, b: nat)
    requires Chained(t) && PageAt(t, session, i, a) && PageAt(t, session, i, b)
    ensures a == b
  {
    hide HasParent;
  }

  lemma NextPage(t: Tables, k: nat)
    requires NodesSound(t) && k in t.nodes && t.nodes[k].next.Some?
    ensures PageAt(t, t.nodes[k].session, t.nodes[k].number + 1, t.nodes[k].next.value)
  {
    hide ValidFrame, SameCursorScope;
    assert NodeSound(t, k);
  }

  /** In every run the nodes of a session are pages 0, 1, 2 and so on up to its last, one node each, each leading to
      the next. */
  lemma SessionsAreChains(ops: seq<Op>, k: nat, i: nat)
    requires k in Run(EMPTY, ops).nodes && i <= Run(EMPTY, ops).nodes[k].number
    ensures var t := Run(EMPTY, ops);
            && (exists j :: PageAt(t, t.nodes[k].session, i, j))
            && (forall a, b :: PageAt(t, t.nodes[k].session, i, a) && PageAt(t, t.nodes[k].session, i, b) ==> a == b)
            && (t.nodes[k].next.Some? ==> PageAt(t, t.nodes[k].session, t.nodes[k].number + 1, t.nodes[k].next.value))
  {
    hide Run, NodesSound, Chained, WithinCaps, PageAt;
    EmptyInv();
    RunKeepsInv(EMPTY, ops);
    var t := Run(EMPTY, ops);
    EarlierPages(t, k, i);
    forall a, b | PageAt(t, t.nodes[k].session, i, a) && PageAt(t, t.nodes[k].session, i, b) ensures a == b {
      OnePerNumber(t, t.nodes[k].session, i, a, b);
    }
    if t.nodes[k].next.Some? {
      NextPage(t, k);
    }
  }

  // ---- The replay fence.

  /** Nodes never change identity; a committed digest and successor are final; removed tokens never come back. */
  predicate Settles(t: Tables, s: Tables) {
    && t.supply <= s.supply
    && (forall k :: k in s.nodes && k < t.supply ==> k in t.nodes)
    && (forall k :: k in s.nodes && k in t.nodes ==>
          && s.nodes[k].session == t.nodes[k].session && s.nodes[k].frame == t.nodes[k].frame &&
             s.nodes[k].number == t.nodes[k].number
          && (t.nodes[k].digest.Some? ==> s.nodes[k] == t.nodes[k]))
    && (forall k :: k in s.sessions && k < t.supply ==> k in t.sessions && s.sessions[k] == t.sessions[k])
  }

  lemma CreateSettles(t: Tables, b: Binding, frame: CursorFrame, now: int, victim: Option<nat>)
    requires TablesInv(t)
    ensures Settles(t, Create(t, b, frame, now, victim).0)
  {
    hide NodesSound, Chained, WithinCaps, ValidFrame, ValidBinding, SessionRoom, NodeRoom;
    TokensUsed(t);
  }

  lemma CommitSettles(t: Tables, token: nat, b: Binding, digest: string, next: Option<CursorFrame>, now: int)
    requires TablesInv(t)
    ensures Settles(t, Commit(t, token, b, digest, next, now).0)
  {
    hide NodesSound, Chained, WithinCaps, ValidFrame, ValidBinding, NodeRoom, SameCursorScope;
    TokensUsed(t);
  }

  lemma InvTokens(t: Tables)
    requires TablesInv(t)
    ensures forall k :: k in t.nodes ==> k < t.supply
  {
    hide NodesSound, Chained, WithinCaps;
    TokensUsed(t);
  }

  lemma {:induction false} RunSettles(t: Tables, ops: seq<Op>)
    requires TablesInv(t)
    ensures Settles(t, Run(t, ops))
  {
    hide TablesInv, Create, Commit;
    if ops != [] {
      RunSettles(t, ops[..|ops| - 1]);
      RunKeepsInv(t, ops[..|ops| - 1]);
      var before := Run(t, ops[..|ops| - 1]);
      InvTokens(t);
      match ops[|ops| - 1]
      case OpCreate(b, frame, now, victim) => CreateSettles(before, b, frame, now, victim);
      case OpCommit(token, b, digest, next, now) => CommitSettles(before, token, b, digest, next, now);
    }
  }

  /** What the first successful commit leaves on the node. */
  lemma CommitFixes(t: Tables, token: nat, b: Binding, digest: string, next: Option<CursorFrame>, now: int)
    requires TablesInv(t) && Commit(t, token, b, digest, next, now).1.Ok?
    ensures var r := Commit(t, token, b, digest, next, now);
            && Visible(r.0, token, b) && r.0.nodes[token].digest == Some(digest) && r.0.nodes[token].next == r.1.value
            && (next.Some? <==> r.1.value.Some?)
            && (next.Some? ==> r.1.value.value in r.0.nodes && r.0.nodes[r.1.value.value].frame == next.value)
  {
    hide NodesSound, Chained, WithinCaps, ValidFrame, ValidBinding, NodeRoom, SameCursorScope, SessionsSound;
    TokensUsed(t);
    if t.nodes[token].digest.None? {
      NoSuccessorYet(t, token);
    }
  }

  /** Once a page is committed, whatever runs in between, a later commit of the live page answers the same successor
      for the same digest and next frame, and is refused for anything else; neither changes a row. */
  lemma ReplayIsFenced(before: seq<Op>, after: seq<Op>, token: nat, b: Binding, digest: string,
                       next: Option<CursorFrame>, now: int, digest2: string, next2: Option<CursorFrame>, now2: int)
    requires Commit(Run(EMPTY, before), token, b, digest, next, now).1.Ok?
    requires |digest2| == 64 && (next2.Some? ==> ValidFrame(next2.value))
    requires var s := Run(Commit(Run(EMPTY, before), token, b, digest, next, now).0, after);
             Visible(s, token, b) && s.sessions[s.nodes[token].session].expires > now2
    ensures var r := Commit(Run(EMPTY, before), token, b, digest, next, now);
            var s := Run(r.0, after);
            Commit(s, token, b, digest2, next2, now2) ==
              (s, if digest2 == digest && next2 == next then r.1 else Err(Conflict))
  {
    hide Run, ValidFrame, SameCursorScope, TablesInv, NodeRoom;
    var t := Run(EMPTY, before);
    var r := Commit(t, token, b, digest, next, now);
    EmptyInv();
    RunKeepsInv(EMPTY, before);
    CommitKeepsInv(t, token, b, digest, next, now);
    CommitFixes(t, token, b, digest, next, now);
    RunSettles(r.0, after);
    RunKeepsInv(r.0, after);
    var s := Run(r.0, after);
    if next.Some? {
      SuccessorLives(s, token);
    }
  }

  lemma SuccessorLives(s: Tables, token: nat)
    requires TablesInv(s) && token in s.nodes && s.nodes[token].next.Some?
    ensures s.nodes[token].next.value in s.nodes
  {
    hide ValidFrame, SameCursorScope, Chained, WithinCaps;
    assert NodeSound(s, token);
  }

  // ---- Loading what was stored.

  /** The transaction clears no session that is still live at its own time, and its time is not after `now`. */
  predicate SparesLive(t: Tables, op: Op, now: int) {
    op.OpCreate? ==>
      op.now <= now && (op.victim.Some? && op.victim.value in t.sessions ==>
                          t.sessions[op.victim.value].expires <= op.now)
  }

  predicate SparesAll(t: Tables, ops: seq<Op>, now: int) {
    forall i :: 0 <= i < |ops| ==> SparesLive(Run(t, ops[..i]), ops[i], now)
  }

  /** The page of a session that lives at `now`. */
  predicate LiveAt(t: Tables, k: nat, b: Binding, now: int) {
    Visible(t, k, b) && t.sessions[t.nodes[k].session].expires > now
  }

  lemma CreateSpares(t: Tables, op: Op, k: nat, b: Binding, now: int)
    requires TablesInv(t) && op.OpCreate? && SparesLive(t, op, now) && LiveAt(t, k, b, now)
    ensures LiveAt(Apply(t, op), k, b, now) && Apply(t, op).nodes[k].frame == t.nodes[k].frame
  {
    hide NodesSound, Chained, WithinCaps, ValidFrame, ValidBinding, SessionRoom, NodeRoom;
    TokensUsed(t);
  }

  lemma CommitSpares(t: Tables, op: Op, k: nat, b: Binding, now: int)
    requires TablesInv(t) && op.OpCommit? && LiveAt(t, k, b, now)
    ensures LiveAt(Apply(t, op), k, b, now) && Apply(t, op).nodes[k].frame == t.nodes[k].frame
  {
    hide NodesSound, Chained, WithinCaps, ValidFrame, ValidBinding, NodeRoom, SameCursorScope;
    TokensUsed(t);
  }

  lemma {:induction false} LivePageStays(t: Tables, ops: seq<Op>, k: nat, b: Binding, now: int)
    requires TablesInv(t) && LiveAt(t, k, b, now) && SparesAll(t, ops, now)
    ensures LiveAt(Run(t, ops), k, b, now) && Run(t, ops).nodes[k].frame == t.nodes[k].frame
  {
    hide TablesInv, Apply, SparesLive;
    if ops != [] {
      var before, op := ops[..|ops| - 1], ops[|ops| - 1];
      assert forall i :: 0 <= i < |before| ==> before[..i] == ops[..i];
      LivePageStays(t, before, k, b, now);
      RunKeepsInv(t, before);
      if op.OpCreate? {
        CreateSpares(Run(t, before), op, k, b, now);
      } else {
        CommitSpares(Run(t, before), op, k, b, now);
      }
    }
  }

  lemma LivePageLoads(t: Tables, k: nat, b: Binding, now: int)
    requires TablesInv(t) && LiveAt(t, k, b, now)
    ensures Load(t, k, b, now) == Ok(t.nodes[k])
  {
    hide ValidFrame, SameCursorScope, Chained, WithinCaps, ValidBinding;
    assert NodeSound(t, k);
    assert t.nodes[k].session in t.sessions;
  }

  /** A token that Create or Commit answered loads the very frame it was given for, by the same binding, as long as
      its session lives, whatever happens to the tables in between. */
  lemma {:induction false} StoredPagesLoad(before: seq<Op>, op: Op, after: seq<Op>, k: nat, now: int)
    requires var t := Run(EMPTY, before);
             match op
             case OpCreate(b, frame, time, victim) => Create(t, b, frame, time, victim).1 == Ok(k)
             case OpCommit(token, b, digest, next, time) => Commit(t, token, b, digest, next, time).1 == Ok(Some(k))
    requires var s := Apply(Run(EMPTY, before), op);
             && k in s.nodes && s.nodes[k].session in s.sessions && s.sessions[s.nodes[k].session].expires > now
             && SparesAll(s, after, now)
    ensures var loaded := Load(Run(Apply(Run(EMPTY, before), op), after), k, op.binding, now);
            && loaded.Ok?
            && (op.OpCreate? ==> loaded.value.frame == op.frame)
            && (op.OpCommit? ==> op.next == Some(loaded.value.frame))
  {
    hide Run, TablesInv, Load, SparesAll, Create, Commit;
    var t := Run(EMPTY, before);
    var s := Apply(t, op);
    EmptyInv();
    RunKeepsInv(EMPTY, before);
    AnswerIsStored(t, op, k);
    assert TablesInv(s) by {
      if op.OpCreate? {
        CreateKeepsInv(t, op.binding, op.frame, op.now, op.victim);
      } else {
        CommitKeepsInv(t, op.token, op.binding, op.digest, op.next, op.now);
      }
    }
    LivePageStays(s, after, k, op.binding, now);
    RunKeepsInv(s, after);
    LivePageLoads(Run(s, after), k, op.binding, now);
  }

  /** Both answers name a page of the caller's binding with the given frame. */
  lemma AnswerIsStored(t: Tables, op: Op, k: nat)
    requires TablesInv(t)
    requires match op
             case OpCreate(b, frame, time, victim) => Create(t, b, frame, time, victim).1 == Ok(k)
             case OpCommit(token, b, digest, next, time) => Commit(t, token, b, digest, next, time).1 == Ok(Some(k))
    ensures Visible(Apply(t, op), k, op.binding)
    ensures op.OpCreate? ==> Apply(t, op).nodes[k].frame == op.frame
    ensures op.OpCommit? ==> op.next == Some(Apply(t, op).nodes[k].frame)
  {
    hide NodesSound, Chained, WithinCaps, ValidFrame, ValidBinding, SessionRoom, NodeRoom, SameCursorScope,
      SessionsSound;
    TokensUsed(t);
    if op.OpCommit? && t.nodes[op.token].next.Some? {
      NextPage(t, op.token);
    }
  }
}
