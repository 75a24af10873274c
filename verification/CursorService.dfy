/** Starting, paging and finishing reads over the stores. */
module CursorService {
  import opened Options
  import opened IncidentOrder
  import opened CursorFrames
  import opened OwnerPages
  import opened OwnerSnapshots
  import opened CursorComposer
  import opened CursorRuns
  import opened CursorTables
  import opened PublicationVectors
  import opened OperationalStores
  import CursorChains
  import BookmarkTables
  import BookmarkHistory

  /** The server's own status as last read. */
  datatype SelfState = SelfState(status: string, action: bool)

  /** What a caller gets: the page and, when a publication read is complete, its bookmark. */
  datatype Reply = Reply(items: seq<Incident>, truncated: bool, scanPending: bool, calls: nat, bookmark: Option<nat>)

  // ---- Reading back.

  /** Read every owner's current page again and insist it is unchanged, even for owners that are done. */
  method ReadBack(f: CursorFrame, reader: Reader, now: int, ghost snap: Snapshot)
    returns (out: Answer<map<string, OwnerPage>>)
    requires ValidFrame(f)
    ensures out.Ok? ==> Readback(f, out.value)
    ensures out.Ok? && Honest(reader, now, snap) && FrameOn(f, snap) ==>
              BothOn(Opening(f, out.value), snap) && out.value == SnapshotPages(f, snap)
    ensures Serving(f, reader, now, snap) && FrameOn(f, snap) ==> out.Ok?
  {
    hide SoundPage, ValidPublicationPage, Honest, ServingOwner, ValidCapture, ValidQuery, ValidDigest, Fetch, At,
      OrderedTo, BothOn, SnapshotPages, FrameOn;
    var pages: map<string, OwnerPage> := map[];
    for i := 0 to 2
      invariant pages.Keys == set j | 0 <= j < i :: f.owners[j].name
      invariant forall j :: 0 <= j < i ==> ReadAt(f, pages, j)
      invariant Honest(reader, now, snap) && FrameOn(f, snap) ==>
                  forall j :: 0 <= j < i ==> OnSnapshotPage(f, pages, snap, j)
    {
      var p := f.owners[i];
      if Honest(reader, now, snap) && FrameOn(f, snap) {
        HonestPage(f, reader, now, snap, i);
      }
      var read := ReadPage(reader, p.name, p.cursor, now);
      if read.Err? {
        return Err(read.error);
      }
      if f.coverage && !ValidPublicationPage(read.value, f, p.name) {
        return Err(Conflict);
      }
      if !SameOwnerPage(p, read.value) {
        return Err(Conflict);
      }
      assert i > 0 ==> ReadAt(f, pages, 0);
      assert i > 0 && Honest(reader, now, snap) && FrameOn(f, snap) ==> OnSnapshotPage(f, pages, snap, 0);
      pages := pages[p.name := read.value];
    }
    assert ReadAt(f, pages, 0) && ReadAt(f, pages, 1);
    if Honest(reader, now, snap) && FrameOn(f, snap) {
      assert OnSnapshotPage(f, pages, snap, 0) && OnSnapshotPage(f, pages, snap, 1);
      StandsOnPages(f, pages, snap);
    }
    return Ok(pages);
  }

  lemma StandsOnPages(f: CursorFrame, pages: map<string, OwnerPage>, snap: Snapshot)
    requires FrameOn(f, snap) && OnSnapshotPage(f, pages, snap, 0) && OnSnapshotPage(f, pages, snap, 1)
    requires pages.Keys == {f.owners[0].name, f.owners[1].name}
    ensures BothOn(Opening(f, pages), snap) && pages == SnapshotPages(f, snap)
  {
    hide At, OrderedTo;
  }

  /** The snapshot pages a frame stands on. */
  function SnapshotPages(f: CursorFrame, snap: Snapshot): map<string, OwnerPage>
    requires FrameOn(f, snap)
  {
    map[f.owners[0].name := snap[f.owners[0].name][f.owners[0].pageIndex],
        f.owners[1].name := snap[f.owners[1].name][f.owners[1].pageIndex]]
  }

  predicate ReadAt(f: CursorFrame, pages: map<string, OwnerPage>, i: int)
    requires |f.owners| == 2 && 0 <= i < 2
  {
    && f.owners[i].name in pages && SoundPage(pages[f.owners[i].name], f.owners[i].name)
    && SameOwnerPage(f.owners[i], pages[f.owners[i].name])
    && (f.coverage ==> ValidPublicationPage(pages[f.owners[i].name], f, f.owners[i].name))
  }

  predicate OnSnapshotPage(f: CursorFrame, pages: map<string, OwnerPage>, snap: Snapshot, i: int)
    requires |f.owners| == 2 && 0 <= i < 2 && FrameOn(f, snap)
  {
    f.owners[i].name in pages && 0 <= f.owners[i].pageIndex < |snap[f.owners[i].name]| &&
    pages[f.owners[i].name] == snap[f.owners[i].name][f.owners[i].pageIndex]
  }

  /** What an honest owner answers for a frame's own cursor. */
  lemma HonestPage(f: CursorFrame, reader: Reader, now: int, snap: Snapshot, i: nat)
    requires i < 2 && FrameOn(f, snap) && Honest(reader, now, snap)
    requires f.owners[i].name == GATEWAY || f.owners[i].name == INGESTION
    ensures var p, pages := f.owners[i], snap[f.owners[i].name];
            var answer := Fetch(reader, p.name, p.cursor, now);
            && 0 <= p.pageIndex < |pages| && SameOwnerPage(p, pages[p.pageIndex])
            && (answer.Ok? ==> answer.value == pages[p.pageIndex])
            && (Serving(f, reader, now, snap) ==>
                  answer.Ok? && (f.coverage ==> ValidPublicationPage(answer.value, f, p.name)))
  {
    hide Fetch, ValidPublicationPage, SoundSnapshot, OrderedTo;
    var p := f.owners[i];
    assert OwnerOn(f, snap, i);
    assert HonestOwner(reader, now, snap[p.name], p.name);
    assert p.cursor == snap[p.name][p.pageIndex].cursor;
    if Serving(f, reader, now, snap) {
      assert ServingOwner(f, reader, now, snap[p.name], p.name);
    }
  }

  // ---- Composing.

  /** What a composed page promises about the page and the cursor store. */
  predicate Replied(f: CursorFrame, m: Merged, reply: Reply, next: Option<nat>, before: Tables, after: Tables) {
    && PageSound(f, m) && reply.items == m.items && reply.truncated == More(f, m) && reply.scanPending == m.scanPending
    && reply.calls == m.heads.calls <= 3 && (next.Some? <==> More(f, m))
    && (TablesSafe(before) && next.Some? ==>
          next.value in after.nodes && after.nodes[next.value].frame == NextFrame(f, m))
  }

  predicate TablesSafe(t: Tables) { forall k :: k in t.nodes ==> k < t.supply }

  /** A bookmark is issued only at the very end of a publication read, and names a stored vector with the read's
      filters and both owners' final bookmarks, which continues the bookmark the read resumed from. */
  predicate Bookmarked(f: CursorFrame, m: Merged, token: nat, b: Binding, t: BookmarkTables.Bookmarks) {
    && f.coverage && !More(f, m) && !m.scanPending && |m.heads.owners| == 2 && Finished(FrameAfter(f, m))
    && var v := VectorOf(FrameAfter(f, m));
       && CanonicalVector(v) && (f.base.Some? ==> VectorLineage(f.base.value, v))
       && token in t.rows && CanonicalVector(t.rows[token].vector) && t.rows[token].binding == b
       && t.rows[token].vector.filters == f.filters
       && t.rows[token].vector.owners[0].bookmark == v.owners[0].bookmark
       && t.rows[token].vector.owners[1].bookmark == v.owners[1].bookmark
       && (f.parent == Some(token) || t.rows[token].parent == f.parent)
  }

  /** A finished publication read. */
  predicate Complete(f: CursorFrame, m: Merged) {
    ValidFrame(f) && f.coverage && PageSound(f, m) && !More(f, m) && !m.scanPending
  }

  /** Store the final vector of a finished publication read; only the bookmark store can refuse it. */
  method Finalize(bookmarks: BookmarkStore, f: CursorFrame, m: Merged, b: Binding, now: int)
    returns (out: Answer<nat>, ghost victim: Option<nat>, ghost twin: Option<nat>)
    modifies bookmarks
    ensures Complete(f, m) ==>
              && |m.heads.owners| == 2
              && var v := VectorOf(FrameAfter(f, m));
                 && CanonicalVector(v) && BookmarkTables.RightTwin(old(bookmarks.Db()), b, v, f.parent, now, twin)
                 && BookmarkTables.OldestExpired(old(bookmarks.Db()), now, victim)
                 && (bookmarks.Db(), out) == BookmarkTables.Put(old(bookmarks.Db()), b, v, f.parent, now, victim, twin)
    ensures out.Ok? && Complete(f, m) ==> Bookmarked(f, m, out.value, b, bookmarks.Db())
    ensures forall clock :: clock <= now && BookmarkTables.BookmarksInv(old(bookmarks.Db()), clock) ==>
              BookmarkTables.BookmarksInv(bookmarks.Db(), now) || BookmarkTables.BookmarksInv(bookmarks.Db(), clock)
  {
    hide ValidFrame, PageSound, More, CanonicalVector, Finished, VectorLineage, BookmarkTables.BookmarksInv,
      BookmarkTables.Put, BookmarkTables.RightTwin;
    victim, twin := None, None;
    if Complete(f, m) {
      AfterIsValid(f, m);
      FinalVectorFits(f, m);
    }
    var after := FrameAfter(f, m);
    if !ValidFrame(after) {
      return Err(Conflict), victim, twin;
    }
    var positions := CollectPositions(after);
    if positions.Err? {
      return Err(positions.error), victim, twin;
    }
    var v := PublicationVector(VECTOR_PROFILE, after.filters, positions.value);
    ghost var before := bookmarks.Db();
    out, victim, twin := bookmarks.PutPublicationBookmark(b, v, after.parent, now);
    if CanonicalVector(v) {
      BookmarkHistory.PutAnswers(before, b, v, after.parent, now, victim, twin);
    }
  }

  // ---- Committing.

  /** The stored, live page of this binding that frame `f` was loaded from. */
  predicate LivePage(t: Tables, token: nat, b: Binding, f: CursorFrame, now: int) {
    && ValidBinding(b) && Visible(t, token, b) && t.sessions[t.nodes[token].session].expires > now
    && t.nodes[token].frame == f && t.nodes[token].number == f.pageNumber
  }

  /** No commit has fixed the page and there is room for its successor, or this very commit has. */
  predicate Unopposed(t: Tables, token: nat, b: Binding, digest: string, next: Option<CursorFrame>)
    requires token in t.nodes
  {
    var node := t.nodes[token];
    if node.digest.None? then next.Some? ==> NodeRoom(t, b)
    else
      && node.digest.value == digest && (next.Some? <==> node.next.Some?)
      && (next.Some? ==> node.next.value in t.nodes && t.nodes[node.next.value].frame == next.value)
  }

  function Continuation(f: CursorFrame, m: Merged): Option<CursorFrame> {
    if More(f, m) then Some(NextFrame(f, m)) else None
  }

  /** A plain read whose continuation was about to carry a publication bookmark. */
  predicate Spoiled(f: CursorFrame, pages: map<string, OwnerPage>, m: Merged, reader: Reader, now: int) {
    !f.coverage && More(f, m) && BookmarkServed(f, pages, reader, now)
  }

  /** When the store commits a page composed from a valid frame, first commit or replay: another commit or the
      capacity may stand in the way, and otherwise only a publication bookmark served to a plain read. */
  lemma CommitAccepts(t: Tables, token: nat, b: Binding, digest: string, f: CursorFrame, pages: map<string, OwnerPage>,
                      m: Merged, reader: Reader, now: int)
    requires ValidFrame(f) && Readback(f, pages) && PageSound(f, m) && RefillKnown(f, Opening(f, pages), m, reader, now)
    requires LivePage(t, token, b, f, now) && |digest| == 64 && (More(f, m) ==> f.pageNumber < 200)
    ensures Commit(t, token, b, digest, Continuation(f, m), now).1.Ok? <==>
            Unopposed(t, token, b, digest, Continuation(f, m)) && !Spoiled(f, pages, m, reader, now)
    ensures Spoiled(f, pages, m, reader, now) ==>
              Commit(t, token, b, digest, Continuation(f, m), now) == (t, Err(Conflict))
  {
    hide ValidFrame, PageSound, More, ValidBinding, NodeRoom, SameCursorScope, BookmarkServed, RefillKnown, Readback;
    if More(f, m) {
      ContinuationAccepted(f, pages, m, reader, now);
    }
  }

  ghost predicate Digests(hash: Reply -> string) { forall r :: |hash(r)| == 64 }

  /** An open cursor with room, short of the page cap, over owners that serve their snapshot. */
  predicate Unhindered(t: Tables, token: nat, b: Binding, f: CursorFrame, reader: Reader, now: int, snap: Snapshot) {
    && f.pageNumber < 200 && LivePage(t, token, b, f, now) && t.nodes[token].digest.None? && NodeRoom(t, b)
    && Serving(f, reader, now, snap)
  }

  lemma UnhinderedCommits(t: Tables, token: nat, b: Binding, digest: string, f: CursorFrame,
                          pages: map<string, OwnerPage>, m: Merged, reader: Reader, now: int, snap: Snapshot)
    requires ValidFrame(f) && Readback(f, pages) && PageSound(f, m) && RefillKnown(f, Opening(f, pages), m, reader, now)
    requires Unhindered(t, token, b, f, reader, now, snap) && |digest| == 64
    ensures var answer := Commit(t, token, b, digest, Continuation(f, m), now).1;
            if Spoiled(f, pages, m, reader, now) then answer == Err(Conflict) else answer.Ok?
  {
    hide ValidFrame, PageSound, Readback, RefillKnown, Serving, LivePage, Commit, Spoiled, NodeRoom, Continuation;
    CommitAccepts(t, token, b, digest, f, pages, m, reader, now);
    LivePageStored(t, token, b, f, now);
  }

  lemma LivePageStored(t: Tables, token: nat, b: Binding, f: CursorFrame, now: int)
    requires LivePage(t, token, b, f, now)
    ensures token in t.nodes
  {
  }

  /** How a page over cooperating owners ends: refused where a bookmark was served, and otherwise answered, except
      that the bookmark store may refuse the end of a publication read. */
  predicate Ends(f: CursorFrame, pages: map<string, OwnerPage>, m: Merged, reader: Reader, now: int,
                 out: Answer<(Reply, Option<nat>)>) {
    if Spoiled(f, pages, m, reader, now) then out == Err(Conflict) else out.Ok? || (f.coverage && !More(f, m))
  }

  /** Compose a page, store its bookmark if it completes a publication read, and commit it. */
  method Compose(cursors: CursorStore, bookmarks: BookmarkStore, b: Binding, pb: Binding, token: nat, f: CursorFrame,
                 pages: map<string, OwnerPage>, reader: Reader, hash: Reply -> string, now: int, ghost snap: Snapshot)
    returns (out: Answer<(Reply, Option<nat>)>, ghost m: Merged)
    requires ValidFrame(f) && Readback(f, pages)
    modifies cursors, bookmarks
    ensures out.Err? ==> cursors.Db() == old(cursors.Db())
    ensures TablesInv(old(cursors.Db())) ==> TablesInv(cursors.Db())
    ensures out.Ok? ==> Replied(f, m, out.value.0, out.value.1, old(cursors.Db()), cursors.Db())
    ensures out.Ok? ==> (cursors.Db(), Ok(out.value.1)) ==
                        Commit(old(cursors.Db()), token, b, hash(out.value.0), Continuation(f, m), now)
    ensures out.Ok? && out.value.0.bookmark.Some? ==> Bookmarked(f, m, out.value.0.bookmark.value, pb, bookmarks.Db())
    ensures out.Ok? && f.coverage && !More(f, m) && !m.scanPending ==> out.value.0.bookmark.Some?
    ensures out.Ok? && Honest(reader, now, snap) && BothOn(Opening(f, pages), snap) ==> Composes(f, m, snap)
    ensures Digests(hash) && Unhindered(old(cursors.Db()), token, b, f, reader, now, snap) &&
            BothOn(Opening(f, pages), snap) ==>
              Ends(f, pages, m, reader, now, out)
  {
    hide Working, Serving, LivePage, NodeRoom, PageSound, ValidFrame, Readback, Honest, BothOn, Conserves, TablesInv,
      Bookmarked, More, Composes, RefillKnown, BookmarkServed;
    m := Merged([], Opening(f, pages), false, false);
    ReadbackWorks(f, pages);
    LimitIsPositive(f);
    var merged := MergePage(f, Opening(f, pages), reader, now, snap);
    if merged.Err? {
      return Err(merged.error), m;
    }
    var page := merged.value;
    m := page;
    CallsBounded(f, page);
    if Honest(reader, now, snap) && BothOn(Opening(f, pages), snap) {
      PageComposes(f, pages, page, snap);
    }
    ghost var unhindered := Unhindered(cursors.Db(), token, b, f, reader, now, snap) && BothOn(Opening(f, pages), snap);
    var more := More(f, page);
    var reply := Reply(page.items, more, page.scanPending, page.heads.calls, None);
    if f.coverage && !more && !page.scanPending {
      var final, victim, twin := Finalize(bookmarks, f, page, pb, now);
      if final.Err? {
        return Err(final.error), m;
      }
      reply := reply.(bookmark := Some(final.value));
    }
    var next: Option<CursorFrame> := None;
    if more {
      if f.pageNumber >= 200 {
        return Err(Capacity), m;
      }
      next := Some(NextFrame(f, page));
    }
    ghost var before := cursors.Db();
    if unhindered && |hash(reply)| == 64 {
      UnhinderedCommits(before, token, b, hash(reply), f, pages, page, reader, now, snap);
    }
    var committed := cursors.CommitIncidentCursorPage(token, b, hash(reply), next, now);
    if committed.Err? {
      CommitRollsBack(before, token, b, hash(reply), next, now);
      return Err(committed.error), m;
    }
    CommitAnswers(before, token, b, hash(reply), next, now);
    return Ok((reply, committed.value)), m;
  }

  lemma ServingIsHonest(f: CursorFrame, reader: Reader, now: int, snap: Snapshot)
    requires Serving(f, reader, now, snap)
    ensures Honest(reader, now, snap)
  {
  }

  lemma LimitIsPositive(f: CursorFrame)
    requires ValidFrame(f)
    ensures 1 <= f.pageLimit
  {
  }

  lemma CallsBounded(f: CursorFrame, m: Merged)
    requires PageSound(f, m)
    ensures m.heads.calls <= 3
  {
  }

  lemma CommitRollsBack(t: Tables, token: nat, b: Binding, digest: string, next: Option<CursorFrame>, now: int)
    requires Commit(t, token, b, digest, next, now).1.Err?
    ensures Commit(t, token, b, digest, next, now).0 == t
  {
    hide ValidFrame, ValidBinding, SameCursorScope, NodeRoom;
  }

  lemma CommitAnswers(t: Tables, token: nat, b: Binding, digest: string, next: Option<CursorFrame>, now: int)
    requires Commit(t, token, b, digest, next, now).1.Ok?
    ensures var r := Commit(t, token, b, digest, next, now);
            && (r.1.value.Some? <==> next.Some?)
            && (TablesSafe(t) && next.Some? ==>
                  r.1.value.value in r.0.nodes && r.0.nodes[r.1.value.value].frame == next.value)
  {
    hide ValidFrame, ValidBinding, SameCursorScope, NodeRoom;
  }

  /** Continue a read from a stored cursor. */
  method Page(cursors: CursorStore, bookmarks: BookmarkStore, publishing: bool, b: Binding, pb: Binding, token: nat,
              reader: Reader, self: Answer<SelfState>, hash: Reply -> string, now: int, ghost snap: Snapshot)
    returns (out: Answer<(Reply, Option<nat>)>, ghost m: Merged)
    modifies cursors, bookmarks
    ensures out.Err? ==> cursors.Db() == old(cursors.Db())
    ensures TablesInv(old(cursors.Db())) ==> TablesInv(cursors.Db())
    ensures out.Ok? ==>
              && Load(old(cursors.Db()), token, b, now).Ok?
              && var f := Load(old(cursors.Db()), token, b, now).value.frame;
                 && f.coverage == publishing && self == Ok(SelfState(f.selfStatus, f.selfAction))
                 && Replied(f, m, out.value.0, out.value.1, old(cursors.Db()), cursors.Db())
                 && (out.value.0.bookmark.Some? ==> Bookmarked(f, m, out.value.0.bookmark.value, pb, bookmarks.Db()))
                 && (publishing && !More(f, m) ==> out.value.0.bookmark.Some?)
                 && (Honest(reader, now, snap) && FrameOn(f, snap) ==> Composes(f, m, snap))
    ensures Digests(hash) && Load(old(cursors.Db()), token, b, now).Ok? ==>
              var f := Load(old(cursors.Db()), token, b, now).value.frame;
              (f.coverage == publishing && self == Ok(SelfState(f.selfStatus, f.selfAction)) && FrameOn(f, snap) &&
               Unhindered(old(cursors.Db()), token, b, f, reader, now, snap)) ==>
                 Ends(f, SnapshotPages(f, snap), m, reader, now, out)
  {
    hide Replied, Bookmarked, ValidFrame, Readback, Honest, BothOn, Composes, TablesInv, FrameOn, Serving, LivePage,
      NodeRoom, Ends;
    m := Merged([], Heads([], map[], 0), false, false);
    var loaded := cursors.LoadIncidentCursor(token, b, now);
    if loaded.Err? {
      return Err(loaded.error), m;
    }
    var f := loaded.value.frame;
    if Serving(f, reader, now, snap) {
      ServingIsHonest(f, reader, now, snap);
    }
    if f.coverage != publishing {
      return Err(Conflict), m;
    }
    var pages := ReadBack(f, reader, now, snap);
    if pages.Err? {
      return Err(pages.error), m;
    }
    if self.Err? {
      return Err(Unavailable), m;
    }
    if self.value.status != f.selfStatus || self.value.action != f.selfAction {
      return Err(Conflict), m;
    }
    out, m := Compose(cursors, bookmarks, b, pb, token, f, pages.value, reader, hash, now, snap);
    if out.Ok? {
      RepliedIsSound(f, m, out.value.0, out.value.1, old(cursors.Db()), cursors.Db());
      PendingMeansMore(f, m);
    }
  }

  lemma RepliedIsSound(f: CursorFrame, m: Merged, reply: Reply, next: Option<nat>, before: Tables, after: Tables)
    requires Replied(f, m, reply, next, before, after)
    ensures PageSound(f, m)
  {
    hide PageSound, More;
  }

  /** Read both owners' first pages. */
  method FirstPages(base: CursorFrame, opener: string -> Answer<RawPage>, now: int, ghost snap: Snapshot)
    returns (out: Answer<map<string, OwnerPage>>)
    ensures out.Ok? ==>
              && GATEWAY in out.value && INGESTION in out.value
              && SoundPage(out.value[GATEWAY], GATEWAY) && SoundPage(out.value[INGESTION], INGESTION)
              && (base.coverage ==> ValidPublicationPage(out.value[GATEWAY], base, GATEWAY) &&
                                    ValidPublicationPage(out.value[INGESTION], base, INGESTION))
              && (Opens(opener, now, snap) ==>
                    out.value[GATEWAY] == snap[GATEWAY][0] && out.value[INGESTION] == snap[INGESTION][0])
    ensures out.Ok? ==> out.value.Keys == {GATEWAY, INGESTION}
    ensures Openable(base, opener, now, GATEWAY) && Openable(base, opener, now, INGESTION) ==> out.Ok?
  {
    hide SoundPage, ValidPublicationPage, Decode, SoundSnapshot;
    var pages: map<string, OwnerPage> := map[];
    var names := [GATEWAY, INGESTION];
    assert |GATEWAY| != |INGESTION|;
    for i := 0 to 2
      invariant forall j :: 0 <= j < i ==> names[j] in pages && FirstRead(base, opener, now, names[j], pages[names[j]])
      invariant pages.Keys == set j | 0 <= j < i :: names[j]
    {
      var reply := opener(names[i]);
      if reply.Err? {
        return Err(Unavailable);
      }
      DecodeIsSound(reply.value, names[i], now);
      var page := DecodePage(reply.value, names[i], now);
      if page.Err? {
        return Err(page.error);
      }
      if base.coverage && !ValidPublicationPage(page.value, base, names[i]) {
        return Err(Conflict);
      }
      pages := pages[names[i] := page.value];
    }
    assert names[0] == GATEWAY && names[1] == INGESTION;
    return Ok(pages);
  }

  /** The owner opens a read with a page this kind of read accepts. */
  predicate Openable(base: CursorFrame, opener: string -> Answer<RawPage>, now: int, name: string) {
    && opener(name).Ok? && Decode(opener(name).value, name, now).Ok?
    && (base.coverage ==> ValidPublicationPage(Decode(opener(name).value, name, now).value, base, name))
  }

  predicate FirstRead(base: CursorFrame, opener: string -> Answer<RawPage>, now: int, name: string, page: OwnerPage) {
    && opener(name).Ok? && Decode(opener(name).value, name, now) == Ok(page) && SoundPage(page, name)
    && (base.coverage ==> ValidPublicationPage(page, base, name))
  }

  /** Opening a read gives the first pages of the snapshot. */
  predicate Opens(opener: string -> Answer<RawPage>, now: int, snap: Snapshot) {
    && GATEWAY in snap && SoundSnapshot(snap[GATEWAY], GATEWAY) && INGESTION in snap &&
       SoundSnapshot(snap[INGESTION], INGESTION)
    && (opener(GATEWAY).Ok? && Decode(opener(GATEWAY).value, GATEWAY, now).Ok? ==>
          Decode(opener(GATEWAY).value, GATEWAY, now).value == snap[GATEWAY][0])
    && (opener(INGESTION).Ok? && Decode(opener(INGESTION).value, INGESTION, now).Ok? ==>
          Decode(opener(INGESTION).value, INGESTION, now).value == snap[INGESTION][0])
  }

  /** The frame a capture builds from the first pages. */
  function CapturedFrame(filters: Filters, limit: int, publishing: bool, parent: Option<nat>,
                         base: Option<PublicationVector>, self: SelfState, owners: seq<OwnerPosition>): CursorFrame
  {
    CursorFrame(CURSOR_PROFILE, filters, owners, limit, 0, self.status, self.action, false, false, publishing, parent,
                base)
  }

  /** The frame a read of the snapshot starts from. */
  function StartOf(filters: Filters, limit: int, publishing: bool, parent: Option<nat>,
                   base: Option<PublicationVector>, self: SelfState, snap: Snapshot): CursorFrame
    requires GATEWAY in snap && snap[GATEWAY] != [] && INGESTION in snap && snap[INGESTION] != []
  {
    CapturedFrame(filters, limit, publishing, parent, base, self, FirstPositions(snap))
  }

  /** The store takes a new session for the frame and has room for one more page. */
  ghost predicate Admits(t: Tables, b: Binding, f: CursorFrame, now: int) {
    ValidFrame(f) && forall victim: Option<nat> :: RightVictim(t, now, victim) ==>
      Create(t, b, f, now, victim).1.Ok? && NodeRoom(Create(t, b, f, now, victim).0, b)
  }

  lemma CreatedIsLive(t: Tables, b: Binding, f: CursorFrame, now: int, victim: Option<nat>)
    requires Create(t, b, f, now, victim).1.Ok?
    ensures var r := Create(t, b, f, now, victim);
            LivePage(r.0, r.1.value, b, f, now) && r.0.nodes[r.1.value].digest.None? && f.pageNumber == 0
  {
    hide ValidFrame, ValidBinding, SessionRoom, NodeRoom, Clear;
  }

  /** Everything a first page needs: owners that open and serve the snapshot, and a store that takes the read. */
  ghost predicate Startable(t: Tables, b: Binding, start: CursorFrame, opener: string -> Answer<RawPage>,
                            reader: Reader, hash: Reply -> string, now: int, snap: Snapshot) {
    && Openable(start, opener, now, GATEWAY) && Openable(start, opener, now, INGESTION) && Digests(hash)
    && Admits(t, b, start, now) && Serving(start, reader, now, snap)
  }

  /** Build the start frame from the owners' first pages. */
  method Draft(blank: CursorFrame, opener: string -> Answer<RawPage>, self: Answer<SelfState>, now: int,
               ghost snap: Snapshot)
    returns (out: Answer<(CursorFrame, map<string, OwnerPage>)>)
    ensures out.Ok? ==>
              && self.Ok? && Readback(out.value.0, out.value.1)
              && out.value.0 == blank.(owners := out.value.0.owners, selfStatus := self.value.status,
                                       selfAction := self.value.action)
              && (Opens(opener, now, snap) && !blank.selfConsumed ==>
                    && out.value.0.owners == FirstPositions(snap) && StartFrame(out.value.0, snap)
                    && BothOn(Opening(out.value.0, out.value.1), snap) && FrameOn(out.value.0, snap)
                    && out.value.1 == SnapshotPages(out.value.0, snap))
    ensures Openable(blank, opener, now, GATEWAY) && Openable(blank, opener, now, INGESTION) && self.Ok? ==> out.Ok?
  {
    hide Readback, BothOn, FrameOn, ValidPublicationPage, SoundPage, Opens, SoundSnapshot, Decode, StartFrame;
    var pages := FirstPages(blank, opener, now, snap);
    if pages.Err? {
      return Err(pages.error);
    }
    if self.Err? {
      return Err(Unavailable);
    }
    var owners := [PositionOf(pages.value[GATEWAY], GATEWAY, 0), PositionOf(pages.value[INGESTION], INGESTION, 0)];
    var frame := blank.(owners := owners, selfStatus := self.value.status, selfAction := self.value.action);
    CaptureReads(blank, frame, pages.value);
    if Opens(opener, now, snap) && !blank.selfConsumed {
      CaptureOnSnapshot(frame, pages.value, opener, now, snap);
    }
    return Ok((frame, pages.value));
  }

  function FirstPositions(snap: Snapshot): seq<OwnerPosition>
    requires GATEWAY in snap && snap[GATEWAY] != [] && INGESTION in snap && snap[INGESTION] != []
  {
    [PositionOf(snap[GATEWAY][0], GATEWAY, 0), PositionOf(snap[INGESTION][0], INGESTION, 0)]
  }

  /** Store a start frame as page 0 and compose it. */
  method OpenSession(cursors: CursorStore, bookmarks: BookmarkStore, b: Binding, pb: Binding, f: CursorFrame,
                     pages: map<string, OwnerPage>, reader: Reader, hash: Reply -> string, now: int,
                     ghost snap: Snapshot)
    returns (out: Answer<(Reply, Option<nat>)>, ghost m: Merged, ghost victim: Option<nat>)
    requires ValidFrame(f) && Readback(f, pages)
    modifies cursors, bookmarks
    ensures TablesInv(old(cursors.Db())) ==> TablesInv(cursors.Db())
    ensures out.Ok? ==> Begun(old(cursors.Db()), b, f, m, now, victim, hash(out.value.0), out.value.1, cursors.Db())
    ensures out.Ok? ==>
              && PageSound(f, m) && out.value.0.items == m.items && out.value.0.truncated == More(f, m)
              && (out.value.1.Some? <==> More(f, m))
              && (out.value.0.bookmark.Some? ==> Bookmarked(f, m, out.value.0.bookmark.value, pb, bookmarks.Db()))
              && (f.coverage && !More(f, m) ==> out.value.0.bookmark.Some?)
    ensures out.Ok? && TablesInv(old(cursors.Db())) && out.value.1.Some? ==>
              out.value.1.value in cursors.Db().nodes && cursors.Db().nodes[out.value.1.value].frame == NextFrame(f, m)
    ensures out.Ok? && Honest(reader, now, snap) && BothOn(Opening(f, pages), snap) ==> Composes(f, m, snap)
    ensures Digests(hash) && Admits(old(cursors.Db()), b, f, now) && Serving(f, reader, now, snap) &&
            BothOn(Opening(f, pages), snap) ==>
              Ends(f, pages, m, reader, now, out)
  {
    hide Bookmarked, ValidFrame, Readback, Honest, BothOn, Composes, TablesInv, PageSound, More, Serving, Create,
      Commit, RightVictim, LivePage, NodeRoom, Ends;
    m := Merged([], Heads([], map[], 0), false, false);
    var created;
    created, victim := cursors.CreateIncidentCursor(b, f, now);
    if created.Err? {
      return Err(created.error), m, victim;
    }
    CreatedIsLive(old(cursors.Db()), b, f, now, victim);
    if TablesInv(cursors.Db()) {
      InvIsSafe(cursors.Db());
    }
    out, m := Compose(cursors, bookmarks, b, pb, created.value, f, pages, reader, hash, now, snap);
    if out.Ok? {
      PendingMeansMore(f, m);
    }
  }

  /** The whole effect on the cursor store: page 0 is created and its first page committed. */
  predicate Begun(t: Tables, b: Binding, f: CursorFrame, m: Merged, now: int, victim: Option<nat>, digest: string,
                  next: Option<nat>, t': Tables) {
    && RightVictim(t, now, victim)
    && var created := Create(t, b, f, now, victim);
       created.1.Ok? && (t', Ok(next)) == Commit(created.0, created.1.value, b, digest, Continuation(f, m), now)
  }

  /** Start a read, or resume one from a bookmark: capture both owners' snapshots and compose the first page. */
  method Capture(cursors: CursorStore, bookmarks: BookmarkStore, publishing: bool, parent: Option<nat>,
                 base: Option<PublicationVector>, filters: Filters, limit: int, b: Binding, pb: Binding,
                 opener: string -> Answer<RawPage>, reader: Reader, self: Answer<SelfState>, hash: Reply -> string,
                 now: int, ghost snap: Snapshot)
    returns (out: Answer<(Reply, Option<nat>)>, ghost f: CursorFrame, ghost m: Merged, ghost victim: Option<nat>)
    modifies cursors, bookmarks
    ensures TablesInv(old(cursors.Db())) ==> TablesInv(cursors.Db())
    ensures out.Ok? ==> Begun(old(cursors.Db()), b, f, m, now, victim, hash(out.value.0), out.value.1, cursors.Db())
    ensures out.Ok? ==>
              && ValidFrame(f) && PageSound(f, m) && out.value.0.items == m.items && out.value.0.truncated == More(f, m)
              && (out.value.1.Some? <==> More(f, m))
              && (out.value.0.bookmark.Some? ==> Bookmarked(f, m, out.value.0.bookmark.value, pb, bookmarks.Db()))
              && f.filters == filters && f.pageLimit == limit && f.coverage == publishing && f.parent == parent
              && f.base == base && self == Ok(SelfState(f.selfStatus, f.selfAction)) && f.pageNumber == 0
              && !f.selfConsumed && (publishing && !More(f, m) ==> out.value.0.bookmark.Some?)
    ensures out.Ok? && TablesInv(old(cursors.Db())) && out.value.1.Some? ==>
              out.value.1.value in cursors.Db().nodes && cursors.Db().nodes[out.value.1.value].frame == NextFrame(f, m)
    ensures out.Ok? && Honest(reader, now, snap) && Opens(opener, now, snap) ==>
              StartFrame(f, snap) && Composes(f, m, snap)
    ensures Opens(opener, now, snap) && self.Ok? ==>
              var start := StartOf(filters, limit, publishing, parent, base, self.value, snap);
              Startable(old(cursors.Db()), b, start, opener, reader, hash, now, snap) ==>
                f == start && FrameOn(f, snap) && Ends(f, SnapshotPages(f, snap), m, reader, now, out)
  {
    hide Bookmarked, ValidFrame, Readback, Honest, BothOn, Composes, TablesInv, FrameOn, PageSound, More, Serving,
      Opens, SoundSnapshot, StartFrame, Ends, Openable, Admits, Begun, SnapshotPages;
    m, victim := Merged([], Heads([], map[], 0), false, false), None;
    var blank := CapturedFrame(filters, limit, publishing, parent, base, SelfState("", false), []);
    f := blank;
    if Opens(opener, now, snap) && self.Ok? {
      OpensBoth(opener, now, snap);
      SameOpening(StartOf(filters, limit, publishing, parent, base, self.value, snap), blank, opener, now);
      AdmitsValid(cursors.Db(), b, StartOf(filters, limit, publishing, parent, base, self.value, snap), now);
    }
    var draft := Draft(blank, opener, self, now, snap);
    if draft.Err? {
      return Err(draft.error), f, m, victim;
    }
    f := draft.value.0;
    if !ValidFrame(draft.value.0) {
      return Err(Conflict), f, m, victim;
    }
    out, m, victim := OpenSession(cursors, bookmarks, b, pb, draft.value.0, draft.value.1, reader, hash, now, snap);
  }

  lemma OpensBoth(opener: string -> Answer<RawPage>, now: int, snap: Snapshot)
    requires Opens(opener, now, snap)
    ensures GATEWAY in snap && snap[GATEWAY] != [] && INGESTION in snap && snap[INGESTION] != []
  {
    hide Decode;
  }

  lemma SameOpening(a: CursorFrame, b: CursorFrame, opener: string -> Answer<RawPage>, now: int)
    requires a.coverage == b.coverage && a.base == b.base
    ensures Openable(a, opener, now, GATEWAY) <==> Openable(b, opener, now, GATEWAY)
    ensures Openable(a, opener, now, INGESTION) <==> Openable(b, opener, now, INGESTION)
  {
    hide Decode;
    assert OwnerParent(a, GATEWAY) == OwnerParent(b, GATEWAY) && OwnerParent(a, INGESTION) == OwnerParent(b, INGESTION);
  }

  lemma AdmitsValid(t: Tables, b: Binding, f: CursorFrame, now: int)
    ensures Admits(t, b, f, now) ==> ValidFrame(f)
  {
    hide ValidFrame, Create, NodeRoom, RightVictim;
  }

  lemma InvIsSafe(t: Tables)
    requires TablesInv(t)
    ensures TablesSafe(t)
  {
    hide NodesSound, Chained, WithinCaps;
    CursorChains.TokensUsed(t);
  }

  lemma PendingMeansMore(f: CursorFrame, m: Merged)
    requires PageSound(f, m)
    ensures m.scanPending ==> More(f, m)
  {
    hide Working, More;
  }

  lemma CaptureReads(base: CursorFrame, f: CursorFrame, pages: map<string, OwnerPage>)
    requires GATEWAY in pages && INGESTION in pages && SoundPage(pages[GATEWAY], GATEWAY) &&
             SoundPage(pages[INGESTION], INGESTION)
    requires f.owners == [PositionOf(pages[GATEWAY], GATEWAY, 0), PositionOf(pages[INGESTION], INGESTION, 0)]
    requires f.coverage == base.coverage && f.base == base.base
    requires base.coverage ==>
               ValidPublicationPage(pages[GATEWAY], base, GATEWAY) &&
               ValidPublicationPage(pages[INGESTION], base, INGESTION)
    ensures Readback(f, pages)
  {
    hide SoundPage;
    assert OwnerParent(f, GATEWAY) == OwnerParent(base, GATEWAY) &&
           OwnerParent(f, INGESTION) == OwnerParent(base, INGESTION);
  }

  lemma CaptureOnSnapshot(f: CursorFrame, pages: map<string, OwnerPage>, opener: string -> Answer<RawPage>, now: int,
                          snap: Snapshot)
    requires Opens(opener, now, snap) && GATEWAY in pages && INGESTION in pages
    requires pages[GATEWAY] == snap[GATEWAY][0] && pages[INGESTION] == snap[INGESTION][0]
    requires f.owners == [PositionOf(pages[GATEWAY], GATEWAY, 0), PositionOf(pages[INGESTION], INGESTION, 0)] &&
             !f.selfConsumed
    ensures StartFrame(f, snap) && BothOn(Opening(f, pages), snap) && FrameOn(f, snap)
    ensures pages.Keys == {GATEWAY, INGESTION} ==> pages == SnapshotPages(f, snap)
  {
    hide SoundAt, Decode;
  }

  /** Resume a publication read from a live bookmark; the bookmark it ends in continues that one. */
  method Resume(cursors: CursorStore, bookmarks: BookmarkStore, token: nat, limit: int, b: Binding, pb: Binding,
                opener: string -> Answer<RawPage>, reader: Reader, self: Answer<SelfState>, hash: Reply -> string,
                now: int, ghost snap: Snapshot)
    returns (out: Answer<(Reply, Option<nat>)>, ghost f: CursorFrame, ghost m: Merged)
    modifies cursors, bookmarks
    ensures TablesInv(old(cursors.Db())) ==> TablesInv(cursors.Db())
    ensures out.Ok? ==>
              && BookmarkTables.LoadBookmark(old(bookmarks.Db()), token, pb, now).Ok?
              && var base := BookmarkTables.LoadBookmark(old(bookmarks.Db()), token, pb, now).value.vector;
                 && f.parent == Some(token) && f.base == Some(base) && f.filters == base.filters &&
                    |m.heads.owners| == 2
                 && (out.value.1.Some? && TablesInv(old(cursors.Db())) ==>
                       && out.value.1.value in cursors.Db().nodes
                       && cursors.Db().nodes[out.value.1.value].frame.base == Some(base)
                       && cursors.Db().nodes[out.value.1.value].frame.parent == Some(token))
                 && (out.value.0.bookmark.Some? ==> VectorLineage(base, VectorOf(FrameAfter(f, m))))
  {
    hide TablesInv, Honest, Composes, Opens, CanonicalVector, VectorLineage, Working;
    m := Merged([], Heads([], map[], 0), false, false);
    f := CapturedFrame(Filters(None, None, None), limit, true, None, None, SelfState("", false), []);
    var loaded := bookmarks.LoadPublicationBookmark(token, pb, now);
    if loaded.Err? {
      return Err(loaded.error), f, m;
    }
    var base := loaded.value.vector;
    ghost var victim;
    out, f, m, victim := Capture(cursors, bookmarks, true, Some(token), Some(base), base.filters, limit, b, pb, opener,
                                 reader, self, hash, now, snap);
    if out.Ok? {
      WorkingFacts(f, m.heads, 0);
    }
  }
}
