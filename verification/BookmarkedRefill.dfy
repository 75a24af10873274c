/** A plain read whose owner attaches a publication bookmark to a page: the continuation it composes is refused. */
module BookmarkedRefill {
  import opened Options
  import opened IncidentOrder
  import opened IncidentMerge
  import opened CursorFrames
  import opened OwnerPages
  import opened OwnerSnapshots
  import opened CursorComposer
  import opened CursorRuns
  import opened CursorTables
  import opened CursorService
  import opened OperationalStores
  import opened CursorChains

  const SNAPSHOT := Token(9, 0)

  function Digest(): string { seq(64, _ => '0') }

  /** The `k`-th incident of the gateway: ever older, so in priority order. */
  function Raw(k: nat): RawItem {
    RawItem({}, None, seq(k + 1, _ => 'a'), "OPEN", "INFO", Some(false), 0 - k, "")
  }

  function RawItems(from: nat, n: nat): seq<RawItem> { seq(n, i requires 0 <= i < n => Raw(from + i)) }

  function Items(from: nat, n: nat): seq<Incident> { AllDecoded(RawItems(from, n), GATEWAY) }

  /** A reply page; only its bookmark is out of place in a plain read. */
  function RawReply(items: seq<RawItem>, cursor: Token, next: Token, bookmark: Token): RawPage {
    RawPage(Some(items), Some(false), next != NoToken, cursor, next, SNAPSHOT, Digest(), 0, 0,
            "ouf.incident-priority.v1", "ouf.incident-owner-cursor.v1", false, "", bookmark, NoToken, None)
  }

  function PageOf(raw: RawPage, name: string): OwnerPage
    requires raw.items.Some?
  {
    OwnerPage(AllDecoded(raw.items.value, name), raw.cursor, raw.next, raw.snapshot, raw.digest, raw.bookmarkProfile,
              raw.bookmark, raw.parent, raw.noProgress)
  }

  /** The gateway's full first page, its bookmarked second page, and the empty page of the ingestion owner. */
  function First(): RawPage { RawReply(RawItems(0, 100), Token(1, 0), Token(2, 0), NoToken) }
  function Second(): RawPage { RawReply(RawItems(100, 30), Token(2, 0), NoToken, Token(7, 0)) }
  function Third(): RawPage { RawReply([], Token(3, 0), NoToken, NoToken) }

  function Owners(name: string, token: Token): Answer<RawPage> {
    if name == INGESTION then Ok(Third()) else if token == Token(2, 0) then Ok(Second()) else Ok(First())
  }

  function Pages(): map<string, OwnerPage> {
    map[GATEWAY := PageOf(First(), GATEWAY), INGESTION := PageOf(Third(), INGESTION)]
  }

  function Served(): Snapshot {
    map[GATEWAY := [PageOf(First(), GATEWAY), PageOf(Second(), GATEWAY)], INGESTION := [PageOf(Third(), INGESTION)]]
  }

  /** What the owners answer when a read is opened. */
  function Open(name: string): Answer<RawPage> { if name == INGESTION then Ok(Third()) else Ok(First()) }

  /** The start of a plain read of sixty items per page. */
  function Start(): CursorFrame {
    StartOf(Filters(None, None, None), 60, false, None, None, SelfState("HEALTHY", false), Served())
  }

  function Caller(): Binding { Binding("principal", "tenant", Digest(), "policy", Digest()) }

  // ---- The pages are sound.

  lemma ItemsSorted(from: nat, n: nat)
    ensures Sorted(Items(from, n)) && SoundItems(RawItems(from, n), GATEWAY) && AllOf(Items(from, n), GATEWAY)
  {
    var raw := RawItems(from, n);
    assert forall i :: 0 <= i < n ==> raw[i] == Raw(from + i) && |raw[i].id| == from + i + 1;
    assert SeverityRank("INFO") == 1;
    assert forall i, j :: 0 <= i < j < n ==> !Before(Items(from, n)[j], Items(from, n)[i]);
  }

  lemma DigestIsValid()
    ensures ValidDigest(Digest())
  {
  }

  lemma Fetches()
    ensures Fetch(Owners, GATEWAY, Token(1, 0), 0) == Ok(PageOf(First(), GATEWAY))
    ensures Fetch(Owners, GATEWAY, Token(2, 0), 0) == Ok(PageOf(Second(), GATEWAY))
    ensures Fetch(Owners, INGESTION, Token(3, 0), 0) == Ok(PageOf(Third(), INGESTION))
  {
    hide ValidDigest, SoundItems;
    assert |GATEWAY| != |INGESTION|;
    DigestIsValid();
    ItemsSorted(0, 100);
    ItemsSorted(100, 30);
    NothingIsSound();
  }

  lemma NothingIsSound()
    ensures SoundItems([], INGESTION)
  {
  }

  lemma PagesSound()
    ensures SoundPage(PageOf(First(), GATEWAY), GATEWAY) && SoundPage(PageOf(Second(), GATEWAY), GATEWAY)
    ensures SoundPage(PageOf(Third(), INGESTION), INGESTION)
  {
    hide SoundPage, Fetch;
    Fetches();
    FetchIsSound(Owners, GATEWAY, Token(1, 0), 0);
    FetchIsSound(Owners, GATEWAY, Token(2, 0), 0);
    FetchIsSound(Owners, INGESTION, Token(3, 0), 0);
  }

  lemma BoundaryInOrder()
    ensures BoundaryOrdered(PageOf(First(), GATEWAY), PageOf(Second(), GATEWAY))
  {
    assert PageOf(First(), GATEWAY).items[99] == Decoded(Raw(99), GATEWAY);
    assert PageOf(Second(), GATEWAY).items[0] == Decoded(Raw(100), GATEWAY);
  }

  lemma SnapshotSound()
    ensures SoundSnapshot(Served()[GATEWAY], GATEWAY) && SoundSnapshot(Served()[INGESTION], INGESTION)
  {
    hide SoundPage;
    PagesSound();
    assert |GATEWAY| != |INGESTION|;
    var pages := Served()[GATEWAY];
    assert SoundAt(pages, GATEWAY, 0) && SoundAt(pages, GATEWAY, 1);
    assert SoundAt(Served()[INGESTION], INGESTION, 0);
  }

  lemma OwnersServe(f: CursorFrame)
    requires !f.coverage
    ensures Serving(f, Owners, 0, Served())
  {
    hide SoundSnapshot, BoundaryOrdered, Fetch, PageOf;
    assert |GATEWAY| != |INGESTION|;
    Fetches();
    SnapshotSound();
    BoundaryInOrder();
    Cursors();
    assert HonestOwner(Owners, 0, Served()[GATEWAY], GATEWAY);
  }

  lemma Cursors()
    ensures PageOf(First(), GATEWAY).cursor == Token(1, 0) && PageOf(Second(), GATEWAY).cursor == Token(2, 0)
    ensures PageOf(Third(), INGESTION).cursor == Token(3, 0)
  {
  }

  lemma OwnersOpen()
    ensures Opens(Open, 0, Served()) && Openable(Start(), Open, 0, GATEWAY) && Openable(Start(), Open, 0, INGESTION)
  {
    hide SoundSnapshot, Decode, PageOf, First, Second, Third;
    assert |GATEWAY| != |INGESTION|;
    Fetches();
    SnapshotSound();
  }

  // ---- The first page.

  lemma StartIsValid()
    ensures ValidFrame(Start()) && Start().pageNumber == 0
  {
    hide ValidDigest;
    assert |GATEWAY| != |INGESTION|;
    DigestIsValid();
  }

  lemma StoreAdmits()
    ensures Admits(EMPTY, Caller(), Start(), 0)
  {
    hide ValidFrame, ValidDigest, Start;
    StartIsValid();
    DigestIsValid();
    forall victim: Option<nat> | RightVictim(EMPTY, 0, victim)
      ensures Create(EMPTY, Caller(), Start(), 0, victim).1.Ok?
      ensures NodeRoom(Create(EMPTY, Caller(), Start(), 0, victim).0, Caller())
    {
      EmptyHasRoom();
      var t := Create(EMPTY, Caller(), Start(), 0, None).0;
      FewNodes(t, Caller(), {1});
    }
  }

  lemma EmptyHasRoom()
    ensures SessionRoom(EMPTY, Caller()) && NodeRoom(EMPTY, Caller())
  {
    var b := Caller();
    assert SessionsOf(EMPTY, b.tenant) == {} && SessionsBy(EMPTY, b.tenant, b.principal) == {};
    assert NodesOf(EMPTY, b.tenant) == {} && NodesBy(EMPTY, b.tenant, b.principal) == {};
  }

  lemma FewNodes(t: Tables, b: Binding, tokens: set<nat>)
    requires t.nodes.Keys == tokens && |tokens| < 800
    ensures NodeRoom(t, b)
  {
    assert |t.nodes| == |t.nodes.Keys|;
    SubsetSize(NodesOf(t, b.tenant), tokens);
    SubsetSize(NodesBy(t, b.tenant, b.principal), tokens);
  }

  /** Enough items at hand for the page: no read. */
  lemma {:induction false} EnoughAtHand(a: seq<Incident>, more: bool, room: int)
    requires room <= |a|
    ensures FirstRefill(a, [], None, more, false, room) == None
    decreases |a|
  {
    if room > 0 {
      EnoughAtHand(a[1..], more, room - 1);
    }
  }

  /** Too few: the owner's next page is read. */
  lemma {:induction false} RunsShort(a: seq<Incident>, room: int)
    requires |a| < room
    ensures FirstRefill(a, [], None, true, false, room) == Some(0)
    decreases |a|
  {
    if a != [] {
      RunsShort(a[1..], room - 1);
    }
  }

  lemma StartNeedsNoRefill()
    requires FrameOn(Start(), Served())
    ensures !BookmarkServed(Start(), SnapshotPages(Start(), Served()), Owners, 0)
  {
    hide Fetch, FirstRefill, TakesSelf, TakesFirst;
    assert |GATEWAY| != |INGESTION|;
    var h := Opening(Start(), SnapshotPages(Start(), Served()));
    assert Tail(h, 1) == [];
    EnoughAtHand(Tail(h, 0), Unfinished(h, 0), 60);
  }

  /** What a position in the gateway's two pages has left. */
  lemma GatewayLeft(p: OwnerPosition)
    requires At(p, Served()[GATEWAY])
    ensures 0 <= p.pageIndex <= 1
    ensures |Rest(p, Served()[GATEWAY])| == (if p.pageIndex == 0 then 130 else 30) - p.offset
  {
    assert |GATEWAY| != |INGESTION|;
    var pages := Served()[GATEWAY];
    assert pages[2..] == [] && pages[1..] == [pages[1]] && [pages[1]][1..] == [];
    assert Flat(pages[1..]) == pages[1].items;
  }

  lemma IngestionLeft(p: OwnerPosition)
    requires At(p, Served()[INGESTION])
    ensures p.pageIndex == 0 && p.offset == 0 && Rest(p, Served()[INGESTION]) == []
  {
    assert |GATEWAY| != |INGESTION|;
    assert Served()[INGESTION][1..] == [];
  }

  predicate Healthy(f: CursorFrame) {
    && |f.owners| == 2 && f.owners[0].name == GATEWAY && f.owners[1].name == INGESTION
    && f.selfStatus == "HEALTHY" && FrameOn(f, Served())
  }

  lemma LeftLength(f: CursorFrame)
    requires Healthy(f)
    ensures f.owners[0].pageIndex == 0 ==> |Left(f, Served())| == 130 - f.owners[0].offset
    ensures f.owners[0].pageIndex != 0 ==> |Left(f, Served())| <= 30 && f.owners[0].pageIndex == 1
    ensures f.owners[1].pageIndex == 0
  {
    hide OneShot, Served, Rest, At;
    assert OwnerOn(f, Served(), 0) && OwnerOn(f, Served(), 1);
    GatewayLeft(f.owners[0]);
    IngestionLeft(f.owners[1]);
    OffsetSmall(f.owners[0], Served()[GATEWAY]);
    var a, b := OwnerLeft(f, Served(), 0), OwnerLeft(f, Served(), 1);
    MergeIsComplete(a, b, None);
    assert |multiset(OneShot(a, b, None))| == |OneShot(a, b, None)|;
  }

  lemma OffsetSmall(p: OwnerPosition, pages: seq<OwnerPage>)
    requires At(p, pages)
    ensures p.offset >= 0
  {
  }

  /** The first page holds sixty items and stops at offset sixty of the gateway's first page. */
  lemma FirstPage(m: Merged)
    requires PageSound(Start(), m) && Composes(Start(), m, Served())
    ensures var f := NextFrame(Start(), m);
            && More(Start(), m) && |m.items| == 60
            && Healthy(f) && f.owners[0].pageIndex == 0 && f.owners[0].offset == 60
  {
    hide Served, Left, Measure, FrameOn, OneShot;
    var f, f' := Start(), FrameAfter(Start(), m);
    StartHealthy();
    OwnerOfPage(f, m, 0);
    OwnerOfPage(f, m, 1);
    LeftLength(f);
    LeftLength(f');
    NextLeft(f, m, Served());
    if !More(f, m) {
      NoMoreMeansNothingLeft(f, m, Served());
    }
  }

  lemma StartHealthy()
    requires FrameOn(Start(), Served())
    ensures Healthy(Start()) && Start().pageLimit == 60 && !Start().coverage
    ensures Start().owners[0].pageIndex == Start().owners[1].pageIndex == Start().owners[0].offset == 0
  {
    hide FrameOn, PageOf;
  }

  // ---- The second page.

  lemma BookmarkIsServed(f: CursorFrame)
    requires Healthy(f) && f.owners[0].pageIndex == 0 && f.owners[0].offset == 60 && f.pageLimit == 60
    ensures BookmarkServed(f, SnapshotPages(f, Served()), Owners, 0)
  {
    hide Fetch, FirstRefill, TakesSelf, TakesFirst;
    assert |GATEWAY| != |INGESTION|;
    Fetches();
    IngestionLeft(f.owners[1]);
    var h := Opening(f, SnapshotPages(f, Served()));
    assert Tail(h, 1) == [] && !Unfinished(h, 1) && Unfinished(h, 0) && |Tail(h, 0)| == 40;
    RunsShort(Tail(h, 0), 60);
  }

  /** Seventy items are left, so a page of sixty cannot be the last. */
  lemma MoreToCome(f: CursorFrame, m: Merged)
    requires Healthy(f) && f.owners[0].pageIndex == 0 && f.owners[0].offset == 60 && f.pageLimit == 60
    requires PageSound(f, m) && Composes(f, m, Served())
    ensures More(f, m)
  {
    hide Served, Left, Measure, FrameOn, OneShot, Working;
    LeftLength(f);
    if !More(f, m) {
      NoMoreMeansNothingLeft(f, m, Served());
    }
  }

  /** The store after the first page: its continuation is stored, live and open, with room for another page. */
  lemma SecondStored(m: Merged, victim: Option<nat>, digest: string, next: Option<nat>, t: Tables)
    requires More(Start(), m) && Begun(EMPTY, Caller(), Start(), m, 0, victim, digest, next, t)
    ensures var f := NextFrame(Start(), m);
            && next.Some? && LivePage(t, next.value, Caller(), f, 0) && t.nodes[next.value].digest.None?
            && NodeRoom(t, Caller()) && Load(t, next.value, Caller(), 0) == Ok(t.nodes[next.value])
  {
    hide ValidFrame, ValidBinding, More, SameCursorScope, Start, SessionRoom, NodeRoom;
    FewNodes(t, Caller(), {1, 3});
  }

  lemma FirstAnswered(m: Merged, out: Answer<(Reply, Option<nat>)>)
    requires FrameOn(Start(), Served()) && Ends(Start(), SnapshotPages(Start(), Served()), m, Owners, 0, out)
    ensures out.Ok?
  {
    hide BookmarkServed, SnapshotPages, FrameOn, Served, More;
    StartNeedsNoRefill();
  }

  lemma SecondFails(f: CursorFrame, m: Merged, out: Answer<(Reply, Option<nat>)>)
    requires Healthy(f) && f.owners[0].pageIndex == 0 && f.owners[0].offset == 60 && f.pageLimit == 60 && !f.coverage
    requires Ends(f, SnapshotPages(f, Served()), m, Owners, 0, out)
    requires out.Ok? ==> PageSound(f, m) && Composes(f, m, Served())
    ensures out == Err(Conflict)
  {
    hide BookmarkServed, SnapshotPages, FrameOn, Served, More, PageSound, Composes;
    BookmarkIsServed(f);
    if out.Ok? {
      MoreToCome(f, m);
    }
  }

  lemma StartFields()
    ensures Start().pageLimit == 60 && !Start().coverage && Start().pageNumber == 0
    ensures Start().selfStatus == "HEALTHY" && !Start().selfAction
  {
    hide Served;
  }

  lemma HealthyStands(f: CursorFrame)
    requires Healthy(f)
    ensures FrameOn(f, Served())
  {
  }

  /** The whole story through the service and its stores: the first page is answered with a next cursor, and the page
      behind that cursor is refused, because the owner page it fetches carries a publication bookmark. */
  method ReadRefused(hash: Reply -> string)
    returns (first: Answer<(Reply, Option<nat>)>, second: Answer<(Reply, Option<nat>)>)
    requires Digests(hash)
    ensures first.Ok? && |first.value.0.items| == 60 && first.value.1.Some?
    ensures second == Err(Conflict)
  {
    hide ValidFrame, Opens, Openable, Admits, Serving, FrameOn, Ends, Start, Served, Composes, PageSound, More, Begun,
      LivePage, NodeRoom, Honest, Healthy, SnapshotPages, TablesInv, BookmarkServed, Load, StartOf, SoundSnapshot;
    var cursors := new CursorStore();
    var bookmarks := new BookmarkStore();
    var self := Ok(SelfState("HEALTHY", false));
    StartFields();
    OwnersOpen();
    OpensBoth(Open, 0, Served());
    StoreAdmits();
    OwnersServe(Start());
    ServingIsHonest(Start(), Owners, 0, Served());
    StartIs();
    ghost var f, m, victim;
    first, f, m, victim := Capture(cursors, bookmarks, false, None, None, Filters(None, None, None), 60, Caller(),
                                   Caller(), Open, Owners, self, hash, 0, Served());
    FirstAnswered(m, first);
    FirstPage(m);
    SecondStored(m, victim, hash(first.value.0), first.value.1, cursors.Db());
    ghost var f1 := NextFrame(Start(), m);
    LivePageStored(cursors.Db(), first.value.1.value, Caller(), f1, 0);
    LoadedFrame(cursors.Db(), first.value.1.value, f1);
    HealthyStands(f1);
    OwnersServe(f1);
    ghost var m1;
    label Second:
    second, m1 := Page(cursors, bookmarks, false, Caller(), Caller(), first.value.1.value, Owners, self, hash, 0,
                       Served());
    if second.Ok? {
      RepliedIsSound(f1, m1, second.value.0, second.value.1, old@Second(cursors.Db()), cursors.Db());
    }
    SecondFails(f1, m1, second);
  }

  lemma StartIs()
    requires GATEWAY in Served() && Served()[GATEWAY] != [] && INGESTION in Served() && Served()[INGESTION] != []
    ensures Start() == StartOf(Filters(None, None, None), 60, false, None, None, SelfState("HEALTHY", false), Served())
  {
    hide Served, StartOf;
  }

  lemma LoadedFrame(t: Tables, token: nat, f: CursorFrame)
    requires LivePage(t, token, Caller(), f, 0)
    ensures token in t.nodes && t.nodes[token].frame == f
  {
  }
}
