/** A whole read through the stores: start it, or resume it from a bookmark, and follow the next cursor to its end. */
module CursorReads {
  import opened Options
  import opened IncidentOrder
  import opened IncidentMerge
  import opened CursorFrames
  import opened OwnerPages
  import opened OwnerSnapshots
  import opened CursorComposer
  import opened CursorRuns
  import opened CursorTables
  import opened CursorService
  import opened OperationalStores
  import BookmarkTables

  // ---- The visits of a read.

  predicate Linked(visits: seq<Visit>) {
    && |visits| > 0
    && forall i :: 0 <= i < |visits| - 1 ==>
         More(visits[i].frame, visits[i].page) && visits[i + 1].frame == NextFrame(visits[i].frame, visits[i].page)
  }

  predicate AllCompose(visits: seq<Visit>, snap: Snapshot) {
    forall i :: 0 <= i < |visits| ==> 1 <= visits[i].frame.pageLimit && Composes(visits[i].frame, visits[i].page, snap)
  }

  lemma {:induction false} ItemsAppended(visits: seq<Visit>, v: Visit)
    ensures ItemsOf(visits + [v]) == ItemsOf(visits) + v.page.items
  {
    if visits == [] {
      assert ItemsOf([v][1..]) == [];
    } else {
      ItemsAppended(visits[1..], v);
      assert (visits + [v])[1..] == visits[1..] + [v];
    }
  }

  /** The read so far: visits linked from a first frame to a last visit and, over honest owners, all of one snapshot. */
  predicate ReadSoFar(visits: seq<Visit>, first: CursorFrame, last: Visit, honest: bool, snap: Snapshot) {
    && Linked(visits) && visits[0].frame == first && visits[|visits| - 1] == last
    && last.frame.base == first.base && last.frame.parent == first.parent && last.frame.filters == first.filters
    && last.frame.coverage == first.coverage
    && (honest ==> StartFrame(first, snap) && AllCompose(visits, snap))
  }

  lemma FirstVisit(v: Visit, honest: bool, snap: Snapshot)
    requires honest ==> StartFrame(v.frame, snap) && 1 <= v.frame.pageLimit && Composes(v.frame, v.page, snap)
    ensures ReadSoFar([v], v.frame, v, honest, snap) && ItemsOf([v]) == v.page.items
  {
    hide Composes, More, StartFrame;
    assert ItemsOf([v][1..]) == [];
  }

  lemma OneMore(visits: seq<Visit>, first: CursorFrame, last: Visit, v: Visit, honest: bool, snap: Snapshot)
    requires ReadSoFar(visits, first, last, honest, snap) && More(last.frame, last.page)
    requires v.frame == NextFrame(last.frame, last.page)
    requires honest ==> 1 <= v.frame.pageLimit && Composes(v.frame, v.page, snap)
    ensures ReadSoFar(visits + [v], first, v, honest, snap) && ItemsOf(visits + [v]) == ItemsOf(visits) + v.page.items
  {
    hide Composes, More, StartFrame, ItemsOf;
    ItemsAppended(visits, v);
  }

  lemma LastComposes(visits: seq<Visit>, first: CursorFrame, last: Visit, snap: Snapshot)
    requires ReadSoFar(visits, first, last, true, snap)
    ensures Composes(last.frame, last.page, snap)
  {
    hide Composes, More, StartFrame;
  }

  lemma ReadEnded(visits: seq<Visit>, first: CursorFrame, last: Visit, snap: Snapshot)
    requires ReadSoFar(visits, first, last, true, snap) && !More(last.frame, last.page)
    ensures StartFrame(first, snap)
    ensures var a, b, self := Flat(snap[GATEWAY]), Flat(snap[INGESTION]), SelfLeft(first);
            ItemsOf(visits) == OneShot(a, b, self) && Interleaves(ItemsOf(visits), a, b, self)
  {
    hide Composes, More, StartFrame, OneShot, Interleaves, ItemsOf, Flat, SelfLeft;
    PagingIsOneShot(visits, snap);
  }

  // ---- The stores and the caller.

  /** The caller's side of each page: what the owners answer, the own status and the time. */
  datatype Client = Client(opener: string -> Answer<RawPage>, readers: nat -> Reader, selves: nat -> Answer<SelfState>,
                           times: nat -> int)

  /** Every answer comes from the one snapshot the read opened. */
  ghost predicate HonestClient(c: Client, snap: Snapshot) {
    Opens(c.opener, c.times(0), snap) && forall i :: Honest(c.readers(i), c.times(i), snap)
  }

  lemma ClientIsHonest(c: Client, snap: Snapshot, i: nat)
    requires HonestClient(c, snap)
    ensures Opens(c.opener, c.times(0), snap) && Honest(c.readers(i), c.times(i), snap)
  {
    hide Opens, Honest;
  }

  /** The read stands after its last visit: a next cursor is handed out exactly when there is more, and it holds the
      continuation. */
  predicate Standing(t: Tables, last: Visit, next: Option<nat>) {
    && (next.Some? <==> More(last.frame, last.page))
    && (next.Some? ==> next.value in t.nodes && t.nodes[next.value].frame == NextFrame(last.frame, last.page))
  }

  lemma StandingBelowCap(t: Tables, last: Visit, next: Option<nat>)
    requires TablesInv(t) && Standing(t, last, next) && next.Some?
    ensures last.frame.pageNumber < 200
  {
    hide ValidFrame, SameCursorScope, Chained, WithinCaps, More;
    assert NodeSound(t, next.value);
  }

  /** The visit's answer: its items, and at the end of a publication read its bookmark. */
  predicate Answered(v: Visit, reply: Reply, pb: Binding, t: BookmarkTables.Bookmarks) {
    && reply.items == v.page.items
    && (v.frame.coverage && !More(v.frame, v.page) ==>
          reply.bookmark.Some? && Bookmarked(v.frame, v.page, reply.bookmark.value, pb, t))
  }

  /** Read one more page. */
  method Follow(cursors: CursorStore, bookmarks: BookmarkStore, publishing: bool, b: Binding, pb: Binding, token: nat,
                c: Client, i: nat, hash: Reply -> string, ghost last: Visit, ghost snap: Snapshot)
    returns (out: Answer<(Reply, Option<nat>)>, ghost v: Visit)
    requires TablesInv(cursors.Db()) && Standing(cursors.Db(), last, Some(token))
    modifies cursors, bookmarks
    ensures TablesInv(cursors.Db())
    ensures out.Ok? ==>
              && More(last.frame, last.page) && v.frame == NextFrame(last.frame, last.page) && 1 <= v.frame.pageLimit
              && Answered(v, out.value.0, pb, bookmarks.Db()) && Standing(cursors.Db(), v, out.value.1)
              && (HonestClient(c, snap) && Composes(last.frame, last.page, snap) ==> Composes(v.frame, v.page, snap))
  {
    hide TablesInv, TablesSafe, Composes, More, Bookmarked, HonestClient, Honest, PageSound, ValidFrame, FrameOn, Ends,
      Digests, Unhindered, FrameAfter;
    if HonestClient(c, snap) && Composes(last.frame, last.page, snap) {
      ClientIsHonest(c, snap, i);
      NextLeft(last.frame, last.page, snap);
    }
    StoredFrameValid(cursors.Db(), token);
    InvIsSafe(cursors.Db());
    LimitIsPositive(NextFrame(last.frame, last.page));
    ghost var m;
    out, m := Page(cursors, bookmarks, publishing, b, pb, token, c.readers(i), c.selves(i), hash, c.times(i), snap);
    v := Visit(NextFrame(last.frame, last.page), m);
  }

  /** Start the read. */
  method Begin(cursors: CursorStore, bookmarks: BookmarkStore, publishing: bool, parent: Option<nat>,
               base: Option<PublicationVector>, filters: Filters, limit: int, b: Binding, pb: Binding, c: Client,
               hash: Reply -> string, ghost snap: Snapshot)
    returns (out: Answer<(Reply, Option<nat>)>, ghost v: Visit)
    requires TablesInv(cursors.Db())
    modifies cursors, bookmarks
    ensures TablesInv(cursors.Db())
    ensures out.Ok? ==>
              && v.frame.base == base && v.frame.parent == parent && v.frame.filters == filters &&
                 v.frame.coverage == publishing
              && c.selves(0).Ok?
              && SelfLeft(v.frame) == SelfIncident(c.selves(0).value.status, c.selves(0).value.action)
              && Answered(v, out.value.0, pb, bookmarks.Db()) && Standing(cursors.Db(), v, out.value.1)
              && 1 <= v.frame.pageLimit
              && (HonestClient(c, snap) ==> StartFrame(v.frame, snap) && Composes(v.frame, v.page, snap))
  {
    hide TablesInv, Composes, More, Bookmarked, HonestClient, Honest, Opens, StartFrame, PageSound, ValidFrame,
      NextFrame;
    if HonestClient(c, snap) {
      ClientIsHonest(c, snap, 0);
    }
    ghost var f, m, victim;
    out, f, m, victim := Capture(cursors, bookmarks, publishing, parent, base, filters, limit, b, pb, c.opener,
                                 c.readers(0), c.selves(0), hash, c.times(0), snap);
    v := Visit(f, m);
    if out.Ok? {
      LimitIsPositive(f);
    }
  }

  /** Follow a read from its start to its end: it does end, and what it delivered is the whole interleaving. */
  method ReadToEnd(cursors: CursorStore, bookmarks: BookmarkStore, publishing: bool, parent: Option<nat>,
                   base: Option<PublicationVector>, filters: Filters, limit: int, b: Binding, pb: Binding, c: Client,
                   hash: Reply -> string, ghost snap: Snapshot)
    returns (out: Answer<seq<Incident>>, bookmark: Option<nat>, ghost last: Visit)
    requires TablesInv(cursors.Db())
    modifies cursors, bookmarks
    ensures TablesInv(cursors.Db())
    ensures out.Ok? && HonestClient(c, snap) ==>
              && c.selves(0).Ok? && GATEWAY in snap && INGESTION in snap
              && var a, b := Flat(snap[GATEWAY]), Flat(snap[INGESTION]);
                 var self := SelfIncident(c.selves(0).value.status, c.selves(0).value.action);
                 out.value == OneShot(a, b, self) && Interleaves(out.value, a, b, self)
    ensures out.Ok? && HonestClient(c, snap) && c.selves(0).Ok? && GATEWAY in snap && INGESTION in snap ==>
              && Prioritised(out.value)
              && Delivers(out.value, Flat(snap[GATEWAY]) + Flat(snap[INGESTION]), c.selves(0).value)
    ensures out.Ok? && publishing ==>
              && last.frame.base == base && last.frame.parent == parent && last.frame.filters == filters
              && bookmark.Some? && Bookmarked(last.frame, last.page, bookmark.value, pb, bookmarks.Db())
  {
    hide TablesInv, Composes, More, Bookmarked, HonestClient, OneShot, Interleaves, Linked, AllCompose, Standing, Flat,
      ItemsOf, SelfLeft, SelfIncident, SoundSnapshot;
    ghost var honest := HonestClient(c, snap);
    var answer, first := Begin(cursors, bookmarks, publishing, parent, base, filters, limit, b, pb, c, hash, snap);
    last := first;
    if answer.Err? {
      return Err(answer.error), None, last;
    }
    ghost var visits := [first];
    FirstVisit(first, honest, snap);
    var reply, next := answer.value.0, answer.value.1;
    var items, i := reply.items, 1;
    while next.Some?
      invariant TablesInv(cursors.Db()) && Standing(cursors.Db(), last, next)
      invariant ReadSoFar(visits, first.frame, last, honest, snap) && items == ItemsOf(visits)
      invariant Answered(last, reply, pb, bookmarks.Db())
      decreases 200 - last.frame.pageNumber
    {
      StandingBelowCap(cursors.Db(), last, next);
      if honest {
        LastComposes(visits, first.frame, last, snap);
      }
      ghost var v;
      answer, v := Follow(cursors, bookmarks, publishing, b, pb, next.value, c, i, hash, last, snap);
      if answer.Err? {
        return Err(answer.error), None, last;
      }
      OneMore(visits, first.frame, last, v, honest, snap);
      reply, next := answer.value.0, answer.value.1;
      items, i := items + reply.items, i + 1;
      last, visits := v, visits + [v];
    }
    Stopped(cursors.Db(), last);
    if honest {
      ReadEnded(visits, first.frame, last, snap);
      ReadMeans(items, Flat(snap[GATEWAY]), Flat(snap[INGESTION]), c.selves(0).value);
    }
    return Ok(items), reply.bookmark, last;
  }

  /** The owners' incidents, each as often as it was served, and one more unless the server itself is healthy: its own,
      an error when degraded and otherwise a warning, recovering or open. */
  ghost predicate Delivers(all: seq<Incident>, served: seq<Incident>, self: SelfState) {
    if self.status == "HEALTHY" then multiset(all) == multiset(served)
    else
      exists own: Incident ::
        && own.id == "mcp-operational-state" && own.module_ == "MCP" && own.action == self.action && own.time == 0
        && (own.severity == if self.status == "DEGRADED" then "ERROR" else "WARNING")
        && (own.state == if self.status == "RECOVERING" then "RECOVERING" else "OPEN")
        && multiset(all) == multiset(served) + multiset{own}
  }

  /** The interleaving in plain terms. */
  lemma ReadMeans(all: seq<Incident>, a: seq<Incident>, b: seq<Incident>, self: SelfState)
    requires Interleaves(all, a, b, SelfIncident(self.status, self.action))
    ensures Prioritised(all) && Delivers(all, a + b, self)
  {
    hide Sorted, Prioritised, OfModule;
    SortedMeans(all);
    var own := SelfIncident(self.status, self.action);
    assert multiset(a + b) == multiset(a) + multiset(b);
    if self.status != "HEALTHY" {
      assert multiset(all) == multiset(a + b) + multiset{own.value};
    }
  }

  lemma Stopped(t: Tables, last: Visit)
    requires Standing(t, last, None)
    ensures !More(last.frame, last.page)
  {
    hide More;
  }
}
