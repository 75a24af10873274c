/** The cursor and bookmark stores: their transactions on mutable tables, against the table specifications. */
module OperationalStores {
  import opened Options
  import opened CursorFrames
  import opened CursorTables
  import opened CursorChains
  import CursorHistory
  import BookmarkTables
  import BookmarkHistory
  import TableEffects

  /** The key with the least time at or before `now`, if any. */
  method FirstExpired(expiry: map<nat, int>, now: int) returns (victim: Option<nat>)
    ensures match victim
            case None => forall k :: k in expiry ==> expiry[k] > now
            case Some(v) => v in expiry && expiry[v] <= now && forall k :: k in expiry ==> expiry[v] <= expiry[k]
  {
    victim := None;
    var rest := expiry.Keys;
    while rest != {}
      invariant rest <= expiry.Keys
      invariant match victim
                case None => forall k :: k in expiry && k !in rest ==> expiry[k] > now
                case Some(v) =>
                  v in expiry && expiry[v] <= now && forall k :: k in expiry && k !in rest ==> expiry[v] <= expiry[k]
      decreases |rest|
    {
      var k :| k in rest;
      if expiry[k] <= now && (victim.None? || expiry[k] < expiry[victim.value]) {
        victim := Some(k);
      }
      rest := rest - {k};
    }
  }

  lemma StoredFrameValid(t: Tables, token: nat)
    requires TablesInv(t) && token in t.nodes
    ensures ValidFrame(t.nodes[token].frame)
  {
    hide ValidFrame, SameCursorScope, Chained, WithinCaps;
    assert NodeSound(t, token);
  }

  lemma StoredVectorCanonical(t: BookmarkTables.Bookmarks, token: nat)
    requires BookmarkTables.LinksInv(t) && token in t.rows
    ensures token != 0 && CanonicalVector(t.rows[token].vector) && ValidBinding(t.rows[token].binding)
  {
    hide CanonicalVector, ValidBinding, VectorLineage, BookmarkTables.RowCaps;
    assert BookmarkTables.RowLinked(t, token);
  }

  class CursorStore {
    var sessions: map<nat, Session>
    var nodes: map<nat, Node>
    var supply: nat

    function Db(): Tables
      reads this
    {
      Tables(sessions, nodes, supply)
    }

    constructor ()
      ensures Db() == EMPTY
    {
      sessions, nodes, supply := map[], map[], 1;
    }

    /** Open a session on page 0, clearing at most one expired session first; a refusal rolls back. */
    method CreateIncidentCursor(b: Binding, frame: CursorFrame, now: int)
      returns (out: Answer<nat>, ghost victim: Option<nat>)
      modifies this
      ensures (Db(), out) == Create(old(Db()), b, frame, now, victim)
      ensures RightVictim(old(Db()), now, victim)
      ensures TablesInv(old(Db())) ==> TablesInv(Db())
      ensures TablesInv(old(Db())) && out.Ok? ==>
                TableEffects.Opens(old(Db()), Db(), b, frame, now, TableEffects.AsSet(victim), out.value)
    {
      hide TablesInv, ValidFrame, ValidBinding, SessionRoom, NodeRoom, TableEffects.Opens, TableEffects.Gone,
        TableEffects.Caller, TableEffects.Acceptable, TableEffects.SessionsLeft, TableEffects.PagesLeft;
      var expiry := map k | k in sessions :: sessions[k].expires;
      var first := FirstExpired(expiry, now);
      victim := first;
      assert forall k :: k in sessions ==> k in expiry && expiry[k] == sessions[k].expires;
      if TablesInv(Db()) {
        CreateKeepsInv(Db(), b, frame, now, victim);
        TableEffects.CreateExactly(Db(), b, frame, now, victim);
      }
      if !ValidBinding(b) || frame.pageNumber != 0 || !ValidFrame(frame) {
        return Err(Conflict), victim;
      }
      var keptSessions, keptNodes := sessions, nodes;
      if first.Some? {
        keptSessions := keptSessions - {first.value};
        keptNodes := map k | k in keptNodes && keptNodes[k].session != first.value :: keptNodes[k];
      }
      var kept := Tables(keptSessions, keptNodes, supply);
      if !SessionRoom(kept, b) {
        return Err(Capacity), victim;
      }
      if !NodeRoom(kept, b) {
        return Err(Capacity), victim;
      }
      var token, session := supply, supply + 1;
      sessions := keptSessions[session := Session(b, now + LIFETIME)];
      nodes := keptNodes[token := Node(session, frame, 0, None, None)];
      supply := supply + 2;
      return Ok(token), victim;
    }

    method LoadIncidentCursor(token: nat, b: Binding, now: int) returns (out: Answer<Node>)
      ensures out == Load(Db(), token, b, now)
      ensures TablesInv(Db()) ==> out != Err(Conflict) && (out.Ok? <==> CursorHistory.LiveAt(Db(), token, b, now))
    {
      hide ValidFrame, ValidBinding, TablesInv;
      if TablesInv(Db()) && CursorHistory.LiveAt(Db(), token, b, now) {
        CursorHistory.LivePageLoads(Db(), token, b, now);
      }
      if TablesInv(Db()) && token in nodes {
        StoredFrameValid(Db(), token);
      }
      if !ValidBinding(b) || token == 0 {
        return Err(NotFound);
      }
      if token !in nodes || nodes[token].session !in sessions || sessions[nodes[token].session].binding != b {
        return Err(NotFound);
      }
      if sessions[nodes[token].session].expires <= now {
        return Err(Expired);
      }
      if !ValidFrame(nodes[token].frame) {
        return Err(Conflict);
      }
      return Ok(nodes[token]);
    }

    /** Fix a page's digest and successor once; later commits replay or are refused. */
    method CommitIncidentCursorPage(token: nat, b: Binding, digest: string, next: Option<CursorFrame>, now: int)
      returns (out: Answer<Option<nat>>)
      modifies this
      ensures (Db(), out) == Commit(old(Db()), token, b, digest, next, now)
      ensures TablesInv(old(Db())) ==> TablesInv(Db())
      ensures TablesInv(old(Db())) && out.Ok? ==>
                && token in old(nodes)
                && if old(nodes)[token].digest.Some? then Db() == old(Db()) && out.value == old(nodes)[token].next
                   else TableEffects.Fixes(old(Db()), Db(), token, digest, next, out.value)
    {
      hide TablesInv, ValidFrame, ValidBinding, NodeRoom, SameCursorScope, TableEffects.Fixes, TableEffects.Committable;
      if TablesInv(Db()) {
        CommitKeepsInv(Db(), token, b, digest, next, now);
        TableEffects.CommitExactly(Db(), token, b, digest, next, now);
      }
      if |digest| != 64 || !ValidBinding(b) {
        return Err(Conflict);
      }
      if next.Some? && !ValidFrame(next.value) {
        return Err(Conflict);
      }
      if token !in nodes || nodes[token].session !in sessions || sessions[nodes[token].session].binding != b ||
         sessions[nodes[token].session].expires <= now {
        return Err(NotFound);
      }
      var node := nodes[token];
      if node.digest.Some? {
        if node.digest.value != digest || next.None? != node.next.None? {
          return Err(Conflict);
        }
        if next.Some? {
          if node.next.value !in nodes || nodes[node.next.value].frame != next.value {
            return Err(Conflict);
          }
        }
        return Ok(node.next);
      }
      var child := node.next;
      if next.Some? {
        if next.value.pageNumber != node.number + 1 || !SameCursorScope(node.frame, next.value) {
          return Err(Conflict);
        }
        if !NodeRoom(Db(), b) {
          return Err(Capacity);
        }
        child := Some(supply);
        nodes := nodes[token := node.(digest := Some(digest), next := child)];
        nodes := nodes[supply := Node(node.session, next.value, next.value.pageNumber, None, None)];
        supply := supply + 1;
      } else {
        child := None;
        nodes := nodes[token := node.(digest := Some(digest))];
      }
      return Ok(child);
    }
  }

  class BookmarkStore {
    var rows: map<nat, BookmarkTables.Bookmark>
    var supply: nat

    function Db(): BookmarkTables.Bookmarks
      reads this
    {
      BookmarkTables.Bookmarks(rows, supply)
    }

    constructor ()
      ensures Db() == BookmarkTables.NO_BOOKMARKS
    {
      rows, supply := map[], 1;
    }

    method FindRow(token: nat, b: Binding, now: int) returns (out: Answer<BookmarkTables.Bookmark>)
      ensures out == BookmarkTables.Find(Db(), token, b, now)
    {
      if token !in rows || !BookmarkTables.SameIdentity(rows[token].binding, b) {
        return Err(NotFound);
      }
      var row := rows[token];
      if row.binding.policy != b.policy || row.binding.manifest != b.manifest {
        return Err(Conflict);
      }
      if row.expires <= now {
        return Err(Expired);
      }
      if !CanonicalVector(row.vector) {
        return Err(Conflict);
      }
      return Ok(row);
    }

    method LoadPublicationBookmark(token: nat, b: Binding, now: int) returns (out: Answer<BookmarkTables.Bookmark>)
      ensures out == BookmarkTables.LoadBookmark(Db(), token, b, now)
      ensures BookmarkTables.LinksInv(Db()) ==>
                (out.Ok? <==> token in rows && rows[token].binding == b && rows[token].expires > now)
      ensures BookmarkTables.LinksInv(Db()) && out == Err(Conflict) ==>
                token in rows && BookmarkTables.SameIdentity(rows[token].binding, b) && rows[token].binding != b
    {
      hide ValidBinding, CanonicalVector, BookmarkTables.LinksInv;
      if BookmarkTables.LinksInv(Db()) && token in rows {
        StoredVectorCanonical(Db(), token);
      }
      if !ValidBinding(b) || token == 0 {
        return Err(NotFound);
      }
      out := FindRow(token, b, now);
    }

    /** The oldest live bookmark equivalent to a vector. */
    method FindTwin(b: Binding, v: PublicationVector, parent: Option<nat>, now: int) returns (twin: Option<nat>)
      requires CanonicalVector(v)
      ensures BookmarkTables.RightTwin(Db(), b, v, parent, now, twin)
    {
      hide CanonicalVector, BookmarkTables.Equivalent;
      twin := None;
      ghost var twins := BookmarkTables.Twins(Db(), b, v, parent, now);
      var rest := rows.Keys;
      while rest != {}
        invariant rest <= rows.Keys
        invariant twin.None? ==> forall k :: k in twins ==> k in rest
        invariant twin.Some? ==>
                    && twin.value in twins
                    && forall k :: k in twins && k !in rest ==>
                         rows[twin.value].created < rows[k].created ||
                         (rows[twin.value].created == rows[k].created && twin.value <= k)
        decreases |rest|
      {
        var k :| k in rest;
        var row := rows[k];
        if CanonicalVector(row.vector) && row.expires > now && BookmarkTables.Equivalent(row, b, v, parent) {
          if twin.None? || row.created < rows[twin.value].created ||
             (row.created == rows[twin.value].created && k < twin.value) {
            twin := Some(k);
          }
        }
        rest := rest - {k};
      }
    }

    /** Store a vector: an idle resume answers its parent, an equivalent live bookmark is reused, a refusal rolls
        back. */
    method PutPublicationBookmark(b: Binding, v: PublicationVector, parent: Option<nat>, now: int)
      returns (out: Answer<nat>, ghost victim: Option<nat>, ghost twin: Option<nat>)
      modifies this
      ensures (Db(), out) == BookmarkTables.Put(old(Db()), b, v, parent, now, victim, twin)
      ensures BookmarkTables.OldestExpired(old(Db()), now, victim)
      ensures CanonicalVector(v) ==> BookmarkTables.RightTwin(old(Db()), b, v, parent, now, twin)
      ensures forall clock :: clock <= now && BookmarkTables.BookmarksInv(old(Db()), clock) ==>
                BookmarkTables.BookmarksInv(Db(), now)
      ensures BookmarkTables.LinksInv(old(Db())) && out.Ok? ==>
                && |v.owners| == 2
                && TableEffects.Answered(old(Db()), Db(), b, v, parent, now, TableEffects.AsSet(victim), out.value)
    {
      hide CanonicalVector, ValidBinding, VectorLineage, SameBoundaries, BookmarkTables.Room,
        BookmarkTables.BookmarksInv, BookmarkTables.RightTwin, BookmarkTables.Find, BookmarkTables.LinksInv,
        TableEffects.Answered, TableEffects.GoesOnFrom, TableEffects.Repeats, TableEffects.BookmarksLeft,
        TableEffects.Caller, TableEffects.Point, TableEffects.Scope, TableEffects.StandsStill, BookmarkTables.Twins;
      var expiry := map k | k in rows :: rows[k].expires;
      var first := FirstExpired(expiry, now);
      victim, twin := first, None;
      assert forall k :: k in rows ==> k in expiry && expiry[k] == rows[k].expires;
      var found: Option<nat> := None;
      if CanonicalVector(v) {
        found := FindTwin(b, v, parent, now);
      }
      twin := found;
      forall clock | clock <= now && BookmarkTables.BookmarksInv(Db(), clock)
        ensures BookmarkTables.BookmarksInv(BookmarkTables.Put(Db(), b, v, parent, now, victim, twin).0, now)
      {
        BookmarkHistory.PutKeepsInv(Db(), clock, b, v, parent, now, victim, twin);
      }
      if BookmarkTables.LinksInv(Db()) {
        TableEffects.PutExactly(Db(), b, v, parent, now, victim, twin);
      }
      if !ValidBinding(b) || parent == Some(0) || !CanonicalVector(v) {
        return Err(Conflict), victim, twin;
      }
      if parent.Some? {
        var old_ := FindRow(parent.value, b, now);
        if old_.Err? {
          return Err(old_.error), victim, twin;
        }
        if !VectorLineage(old_.value.vector, v) {
          return Err(Conflict), victim, twin;
        }
        if SameBoundaries(old_.value.vector, v) {
          return Ok(parent.value), victim, twin;
        }
      } else if HasOwnerParents(v) {
        return Err(Conflict), victim, twin;
      }
      if found.Some? {
        return Ok(found.value), victim, twin;
      }
      var kept := rows;
      if first.Some? {
        kept := kept - {first.value};
      }
      if !BookmarkTables.Room(BookmarkTables.Bookmarks(kept, supply), b) {
        return Err(Capacity), victim, twin;
      }
      var token := supply;
      rows := kept[token := BookmarkTables.Bookmark(b, v, parent, now, now + BookmarkTables.RETENTION)];
      supply := supply + 1;
      return Ok(token), victim, twin;
    }
  }

  predicate HasOwnerParents(v: PublicationVector)
    requires CanonicalVector(v)
  {
    v.owners[0].parent != NoToken || v.owners[1].parent != NoToken
  }
}
