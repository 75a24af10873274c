/** What every run of cursor creations and commits keeps. */
module CursorChains {
  import opened Options
  import opened CursorFrames
  import opened CursorTables

  lemma {:induction false} SubsetSize(a: set<nat>, b: set<nat>)
    requires a <= b
    ensures |a| <= |b|
    decreases |a|
  {
    if a != {} {
      var x :| x in a;
      SubsetSize(a - {x}, b - {x});
    }
  }

  // ---- Clearing an expired session.

  lemma ClearNode(t: Tables, victim: Option<nat>, k: nat)
    requires NodesSound(t) && k in Clear(t, victim).nodes
    ensures NodeSound(Clear(t, victim), k)
  {
    hide ValidFrame, SameCursorScope;
    assert NodeSound(t, k);
  }

  lemma ClearParent(t: Tables, victim: Option<nat>, k: nat)
    requires k in Clear(t, victim).nodes && HasParent(t, k)
    ensures HasParent(Clear(t, victim), k)
  {
    var c := Clear(t, victim);
    var j :| j in t.nodes && t.nodes[j].next == Some(k) && t.nodes[j].session == t.nodes[k].session;
    assert j in c.nodes && c.nodes[j].next == Some(k);
  }

  lemma ClearKeepsNodes(t: Tables, victim: Option<nat>)
    requires NodesSound(t) && Chained(t)
    ensures NodesSound(Clear(t, victim)) && Chained(Clear(t, victim))
  {
    hide NodeSound, HasParent;
    var c := Clear(t, victim);
    forall k | k in c.nodes ensures NodeSound(c, k) && (c.nodes[k].number > 0 ==> HasParent(c, k)) {
      ClearNode(t, victim, k);
      if c.nodes[k].number > 0 {
        ClearParent(t, victim, k);
      }
    }
  }

  lemma ClearKeepsCaps(t: Tables, victim: Option<nat>)
    requires WithinCaps(t)
    ensures WithinCaps(Clear(t, victim))
  {
    hide NodeSound;
    var c := Clear(t, victim);
    ShrinkKeepsCaps(t, c);
  }

  /** Fewer sessions and nodes count no more for anyone. */
  lemma ShrinkKeepsCaps(t: Tables, c: Tables)
    requires WithinCaps(t)
    requires forall k :: k in c.sessions ==> k in t.sessions && c.sessions[k] == t.sessions[k]
    requires forall k :: k in c.nodes ==> k in t.nodes && c.nodes[k].session == t.nodes[k].session
    ensures WithinCaps(c)
  {
    SubsetSize(c.sessions.Keys, t.sessions.Keys);
    SubsetSize(c.nodes.Keys, t.nodes.Keys);
    forall tenant: string ensures |SessionsOf(c, tenant)| <= 128 && |NodesOf(c, tenant)| <= 4096 {
      SubsetSize(SessionsOf(c, tenant), SessionsOf(t, tenant));
      SubsetSize(NodesOf(c, tenant), NodesOf(t, tenant));
    }
    forall tenant: string, principal: string
      ensures |SessionsBy(c, tenant, principal)| <= 16 && |NodesBy(c, tenant, principal)| <= 800
    {
      SubsetSize(SessionsBy(c, tenant, principal), SessionsBy(t, tenant, principal));
      SubsetSize(NodesBy(c, tenant, principal), NodesBy(t, tenant, principal));
    }
  }

  // ---- Adding a session and a node.

  /** `t` plus at most one session and exactly one node, both of binding `b`. */
  predicate Grows(t: Tables, s: Tables, b: Binding, session: nat, node: nat) {
    && (forall k :: k in t.sessions ==> k in s.sessions && s.sessions[k] == t.sessions[k])
    && (forall k :: k in s.sessions ==> k in t.sessions || k == session)
    && session in s.sessions && s.sessions[session].binding == b
    && (forall k :: k in s.nodes && k != node ==>
          k in t.nodes && s.nodes[k].session == t.nodes[k].session && t.nodes[k].session in t.sessions)
    && node in s.nodes && s.nodes[node].session == session
  }

  lemma GrowOne(a: set<nat>, b: set<nat>, x: nat, cap: nat)
    requires a <= b + {x} && (x in a ==> |b| < cap) && (x !in a ==> |b| <= cap)
    ensures |a| <= cap
  {
    if x in a {
      SubsetSize(a, b + {x});
    } else {
      SubsetSize(a, b);
    }
  }

  lemma SessionsGrow(t: Tables, s: Tables, b: Binding, session: nat, node: nat, tenant: string, principal: string)
    requires WithinCaps(t) && Grows(t, s, b, session, node) && (session in t.sessions || SessionRoom(t, b))
    ensures |SessionsOf(s, tenant)| <= 128 && |SessionsBy(s, tenant, principal)| <= 16
  {
    hide NodesOf, NodesBy;
    if session in t.sessions {
      SubsetSize(SessionsOf(s, tenant), SessionsOf(t, tenant));
      SubsetSize(SessionsBy(s, tenant, principal), SessionsBy(t, tenant, principal));
    } else {
      GrowOne(SessionsOf(s, tenant), SessionsOf(t, tenant), session, 128);
      GrowOne(SessionsBy(s, tenant, principal), SessionsBy(t, tenant, principal), session, 16);
    }
  }

  lemma NodesGrow(t: Tables, s: Tables, b: Binding, session: nat, node: nat, tenant: string, principal: string)
    requires WithinCaps(t) && Grows(t, s, b, session, node) && NodeRoom(t, b)
    ensures |NodesOf(s, tenant)| <= 4096 && |NodesBy(s, tenant, principal)| <= 800
  {
    hide SessionsOf, SessionsBy;
    GrowOne(NodesOf(s, tenant), NodesOf(t, tenant), node, 4096);
    GrowOne(NodesBy(s, tenant, principal), NodesBy(t, tenant, principal), node, 800);
  }

  lemma TotalsGrow(t: Tables, s: Tables, b: Binding, session: nat, node: nat)
    requires WithinCaps(t) && Grows(t, s, b, session, node) && (session in t.sessions || SessionRoom(t, b)) &&
             NodeRoom(t, b)
    ensures |s.sessions| <= 4096 && |s.nodes| <= 32768
  {
    hide SessionsOf, SessionsBy, NodesOf, NodesBy;
    if session in t.sessions {
      SubsetSize(s.sessions.Keys, t.sessions.Keys);
    } else {
      GrowOne(s.sessions.Keys, t.sessions.Keys, session, 4096);
    }
    GrowOne(s.nodes.Keys, t.nodes.Keys, node, 32768);
  }

  lemma GrowthKeepsCaps(t: Tables, s: Tables, b: Binding, session: nat, node: nat)
    requires WithinCaps(t) && Grows(t, s, b, session, node) && (session in t.sessions || SessionRoom(t, b)) &&
             NodeRoom(t, b)
    ensures WithinCaps(s)
  {
    hide SessionsOf, SessionsBy, NodesOf, NodesBy, NodeRoom, SessionRoom;
    TotalsGrow(t, s, b, session, node);
    forall tenant: string ensures |SessionsOf(s, tenant)| <= 128 && |NodesOf(s, tenant)| <= 4096 {
      SessionsGrow(t, s, b, session, node, tenant, "");
      NodesGrow(t, s, b, session, node, tenant, "");
    }
    forall tenant: string, principal: string
      ensures |SessionsBy(s, tenant, principal)| <= 16 && |NodesBy(s, tenant, principal)| <= 800
    {
      SessionsGrow(t, s, b, session, node, tenant, principal);
      NodesGrow(t, s, b, session, node, tenant, principal);
    }
  }

  // ---- Create and Commit.

  lemma NewSession(t: Tables, b: Binding, frame: CursorFrame, expires: int, token: nat, session: nat, supply: nat)
    requires NodesSound(t) && Chained(t) && 0 < t.supply <= token < session < supply && ValidFrame(frame) &&
             frame.pageNumber == 0
    requires SessionsSound(t)
    ensures var s := Tables(t.sessions[session := Session(b, expires)],
                            t.nodes[token := Node(session, frame, 0, None, None)], supply);
            NodesSound(s) && Chained(s) && Grows(t, s, b, session, token)
  {
    hide NodeSound, HasParent;
    var s := Tables(t.sessions[session := Session(b, expires)], t.nodes[token := Node(session, frame, 0, None, None)],
                    supply);
    TokensUsed(t);
    forall k | k in s.nodes
      ensures NodeSound(s, k) && (s.nodes[k].number > 0 ==> HasParent(s, k))
      ensures k != token ==> t.nodes[k].session in t.sessions && t.nodes[k].session != session
    {
      NewSessionNode(t, s, frame, token, session, k);
      if k != token && s.nodes[k].number > 0 {
        SealParent(t, s, k);
      }
    }
  }

  lemma NewSessionNode(t: Tables, s: Tables, frame: CursorFrame, token: nat, session: nat, k: nat)
    requires NodesSound(t) && 0 < t.supply <= token < session < s.supply && ValidFrame(frame) && frame.pageNumber == 0
    requires session in s.sessions && (forall j :: j in t.sessions ==> j in s.sessions && j < t.supply)
    requires s.nodes == t.nodes[token := Node(session, frame, 0, None, None)] && k in s.nodes && token !in t.nodes
    ensures NodeSound(s, k)
    ensures k != token ==> t.nodes[k].session in t.sessions && t.nodes[k].session != session
  {
    hide SameCursorScope, ValidFrame;
    if k != token {
      assert NodeSound(t, k);
    }
  }

  lemma CreateKeepsInv(t: Tables, b: Binding, frame: CursorFrame, now: int, victim: Option<nat>)
    requires TablesInv(t)
    ensures TablesInv(Create(t, b, frame, now, victim).0)
  {
    hide NodesSound, Chained, WithinCaps, ValidFrame, ValidBinding, SessionRoom, NodeRoom, Clear, Grows;
    var r := Create(t, b, frame, now, victim);
    if r.1.Ok? {
      var c := Clear(t, victim);
      ClearKeepsNodes(t, victim);
      ClearKeepsCaps(t, victim);
      ClearKeepsRest(t, victim);
      NewSession(c, b, frame, now + LIFETIME, t.supply, t.supply + 1, t.supply + 2);
      assert t.supply + 1 !in c.sessions;
      GrowthKeepsCaps(c, r.0, b, t.supply + 1, t.supply);
    }
  }

  lemma ClearKeepsRest(t: Tables, victim: Option<nat>)
    requires SessionsSound(t)
    ensures SessionsSound(Clear(t, victim)) && Clear(t, victim).supply == t.supply
    ensures forall k :: k in Clear(t, victim).nodes ==> k in t.nodes && Clear(t, victim).nodes[k] == t.nodes[k]
  {
  }

  /** The page's first commit without a successor. */
  function Sealed(t: Tables, token: nat, digest: string): Tables
    requires token in t.nodes
  {
    t.(nodes := t.nodes[token := t.nodes[token].(digest := Some(digest))])
  }

  lemma SealNode(t: Tables, token: nat, digest: string, k: nat)
    requires NodesSound(t) && token in t.nodes && t.nodes[token].digest.None? && k in t.nodes
    ensures NodeSound(Sealed(t, token, digest), k)
  {
    hide ValidFrame, SameCursorScope;
    assert NodeSound(t, k);
  }

  lemma SealKeepsNodes(t: Tables, token: nat, digest: string)
    requires NodesSound(t) && Chained(t) && token in t.nodes && t.nodes[token].digest.None?
    ensures NodesSound(Sealed(t, token, digest)) && Chained(Sealed(t, token, digest))
  {
    hide NodeSound, HasParent;
    var s := Sealed(t, token, digest);
    forall k | k in s.nodes ensures NodeSound(s, k) && (s.nodes[k].number > 0 ==> HasParent(s, k)) {
      SealNode(t, token, digest, k);
      if s.nodes[k].number > 0 {
        SealParent(t, s, k);
      }
    }
  }

  lemma SealParent(t: Tables, s: Tables, k: nat)
    requires k in t.nodes && k in s.nodes && HasParent(t, k) && t.nodes[k].session == s.nodes[k].session
    requires forall j :: j in t.nodes && t.nodes[j].next.Some? ==>
               j in s.nodes && s.nodes[j].next == t.nodes[j].next && s.nodes[j].session == t.nodes[j].session
    ensures HasParent(s, k)
  {
    var j :| j in t.nodes && t.nodes[j].next == Some(k) && t.nodes[j].session == t.nodes[k].session;
    assert s.nodes[j].next == Some(k);
  }

  /** The page's first commit with a successor. */
  function Linked(t: Tables, token: nat, digest: string, child: nat, frame: CursorFrame, supply: nat): Tables
    requires token in t.nodes
  {
    Tables(t.sessions,
           t.nodes[token := t.nodes[token].(digest := Some(digest), next := Some(child))]
           [child := Node(t.nodes[token].session, frame, frame.pageNumber, None, None)], supply)
  }

  lemma LinkNode(t: Tables, token: nat, digest: string, child: nat, frame: CursorFrame, k: nat)
    requires NodesSound(t) && token in t.nodes && t.nodes[token].digest.None? && child == t.supply
    requires ValidFrame(frame) && frame.pageNumber == t.nodes[token].number + 1 &&
             SameCursorScope(t.nodes[token].frame, frame)
    requires k in t.nodes || k == child
    ensures var s := Linked(t, token, digest, child, frame, t.supply + 1);
            NodeSound(s, k)
  {
    hide SameCursorScope, ValidCapture, ValidPosition, ValidQuery;
    assert NodeSound(t, token);
    if k != child {
      assert NodeSound(t, k);
    }
    TokensUsed(t);
  }

  lemma TokensUsed(t: Tables)
    requires NodesSound(t)
    ensures forall k :: k in t.nodes ==> k < t.supply
  {
    hide ValidFrame, SameCursorScope;
    forall k | k in t.nodes ensures k < t.supply {
      assert NodeSound(t, k);
    }
  }

  /** A session's last page is the only one without a successor, so its page number is free. */
  lemma {:induction false} NumberIsFree(t: Tables, token: nat, k: nat)
    requires NodesSound(t) && Chained(t) && token in t.nodes && k in t.nodes
    requires t.nodes[token].next.None? && t.nodes[k].session == t.nodes[token].session
    ensures t.nodes[k].number <= t.nodes[token].number
    decreases t.nodes[k].number
  {
    hide ValidFrame, SameCursorScope;
    assert NodeSound(t, k);
    if t.nodes[k].number > t.nodes[token].number {
      assert NodeSound(t, token);
      assert HasParent(t, k);
      var j :| j in t.nodes && t.nodes[j].next == Some(k) && t.nodes[j].session == t.nodes[k].session;
      assert NodeSound(t, j);
      NumberIsFree(t, token, j);
    }
  }

  lemma LinkUnique(t: Tables, token: nat, digest: string, frame: CursorFrame, j: nat, k: nat)
    requires NodesSound(t) && Chained(t) && token in t.nodes && t.nodes[token].next.None? && t.supply !in t.nodes
    requires frame.pageNumber == t.nodes[token].number + 1
    requires var s := Linked(t, token, digest, t.supply, frame, t.supply + 1); j in s.nodes && k in s.nodes && j != k
    ensures var s := Linked(t, token, digest, t.supply, frame, t.supply + 1);
            s.nodes[j].session != s.nodes[k].session || s.nodes[j].number != s.nodes[k].number
  {
    hide NodeSound;
    if j == t.supply {
      if t.nodes[k].session == t.nodes[token].session {
        NumberIsFree(t, token, k);
      }
    } else if k == t.supply {
      if t.nodes[j].session == t.nodes[token].session {
        NumberIsFree(t, token, j);
      }
    }
  }

  lemma LinkKeepsNodes(t: Tables, token: nat, digest: string, frame: CursorFrame)
    requires NodesSound(t) && Chained(t) && token in t.nodes && t.nodes[token].digest.None? && t.nodes[token].next.None?
    requires ValidFrame(frame) && frame.pageNumber == t.nodes[token].number + 1 &&
             SameCursorScope(t.nodes[token].frame, frame)
    ensures var s := Linked(t, token, digest, t.supply, frame, t.supply + 1); NodesSound(s) && Chained(s)
  {
    hide NodeSound, HasParent, ValidFrame, SameCursorScope, NodesSound;
    var s := Linked(t, token, digest, t.supply, frame, t.supply + 1);
    TokensUsed(t);
    assert NodesSound(s) by {
      EveryNodeLinked(t, token, digest, frame);
    }
    forall j, k | j in s.nodes && k in s.nodes && j != k
      ensures s.nodes[j].session != s.nodes[k].session || s.nodes[j].number != s.nodes[k].number
    {
      LinkUnique(t, token, digest, frame, j, k);
    }
    forall k | k in s.nodes && s.nodes[k].number > 0 ensures HasParent(s, k) {
      if k == t.supply {
        ChildHasParent(s, token, k);
      } else {
        SealParent(t, s, k);
      }
    }
  }

  lemma ChildHasParent(s: Tables, token: nat, k: nat)
    requires token in s.nodes && k in s.nodes && s.nodes[token].next == Some(k) &&
             s.nodes[token].session == s.nodes[k].session
    ensures HasParent(s, k)
  {
  }

  lemma EveryNodeLinked(t: Tables, token: nat, digest: string, frame: CursorFrame)
    requires NodesSound(t) && token in t.nodes && t.nodes[token].digest.None?
    requires ValidFrame(frame) && frame.pageNumber == t.nodes[token].number + 1 &&
             SameCursorScope(t.nodes[token].frame, frame)
    ensures NodesSound(Linked(t, token, digest, t.supply, frame, t.supply + 1))
  {
    hide NodeSound, ValidFrame, SameCursorScope;
    var s := Linked(t, token, digest, t.supply, frame, t.supply + 1);
    forall k | k in s.nodes ensures NodeSound(s, k) {
      LinkNode(t, token, digest, t.supply, frame, k);
    }
  }

  lemma LinkGrows(t: Tables, token: nat, digest: string, frame: CursorFrame, b: Binding)
    requires NodesSound(t) && Visible(t, token, b)
    ensures Grows(t, Linked(t, token, digest, t.supply, frame, t.supply + 1), b, t.nodes[token].session, t.supply)
  {
    hide ValidFrame, SameCursorScope;
    var s := Linked(t, token, digest, t.supply, frame, t.supply + 1);
    forall k | k in t.nodes ensures t.nodes[k].session in t.sessions {
      assert NodeSound(t, k);
    }
  }

  lemma SealKeepsCaps(t: Tables, token: nat, digest: string)
    requires WithinCaps(t) && token in t.nodes
    ensures WithinCaps(Sealed(t, token, digest))
  {
    hide WithinCaps;
    ShrinkKeepsCaps(t, Sealed(t, token, digest));
  }

  lemma CommitKeepsInv(t: Tables, token: nat, b: Binding, digest: string, next: Option<CursorFrame>, now: int)
    requires TablesInv(t)
    ensures TablesInv(Commit(t, token, b, digest, next, now).0)
  {
    hide NodesSound, Chained, WithinCaps, ValidFrame, ValidBinding, NodeRoom, SameCursorScope, Grows;
    var r := Commit(t, token, b, digest, next, now);
    if r.1.Ok? && t.nodes[token].digest.None? {
      NoSuccessorYet(t, token);
      if next.None? {
        SealKeepsNodes(t, token, digest);
        SealKeepsCaps(t, token, digest);
      } else {
        LinkKeepsNodes(t, token, digest, next.value);
        LinkGrows(t, token, digest, next.value, b);
        GrowthKeepsCaps(t, r.0, b, t.nodes[token].session, t.supply);
      }
    }
  }

  lemma NoSuccessorYet(t: Tables, token: nat)
    requires NodesSound(t) && token in t.nodes && t.nodes[token].digest.None?
    ensures t.nodes[token].next.None?
  {
    hide ValidFrame, SameCursorScope;
    assert NodeSound(t, token);
  }
}
