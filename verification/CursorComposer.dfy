/** Composing one page: a resumable merge of two paged owners and the server's own incident. */
module CursorComposer {
  import opened Options
  import opened IncidentOrder
  import opened IncidentMerge
  import opened CursorFrames
  import opened OwnerPages
  import opened OwnerSnapshots

  /** What an owner page of a publication read must carry: a bookmark on its last page only, continuing the resumed
      one. */
  predicate ValidPublicationPage(page: OwnerPage, frame: CursorFrame, name: string) {
    && page.profile == BOOKMARK_PROFILE && CanonicalToken(page.cursor) && CanonicalToken(page.snapshot)
    && (page.next != NoToken ==> CanonicalToken(page.next))
    && var expected := OwnerParent(frame, name);
       if page.next == NoToken then
         && CanonicalToken(page.bookmark) && page.parent == expected
         && page.noProgress == Some(expected != NoToken && page.bookmark == expected)
       else page.bookmark == NoToken && page.parent == NoToken && page.noProgress.None?
  }

  /** The incident the server reports about itself unless it is healthy. */
  function SelfIncident(status: string, action: bool): Option<Incident> {
    if status == "HEALTHY" then None
    else Some(Incident("mcp-operational-state", "MCP", if status == "RECOVERING" then "RECOVERING" else "OPEN",
                       if status == "DEGRADED" then "ERROR" else "WARNING", action, 0, status))
  }

  /** The server's own incident, while it is still to be emitted. */
  function SelfLeft(frame: CursorFrame): Option<Incident> {
    if frame.selfConsumed then None else SelfIncident(frame.selfStatus, frame.selfAction)
  }

  /** An owner that answers every read with its snapshot, in priority order and within the page cap. */
  predicate ServingOwner(f: CursorFrame, reader: Reader, now: int, pages: seq<OwnerPage>, name: string) {
    && |pages| <= 201 && OrderedTo(pages, |pages| - 1)
    && forall k :: 0 <= k < |pages| ==>
         Fetch(reader, name, pages[k].cursor, now).Ok? && (f.coverage ==> ValidPublicationPage(pages[k], f, name))
  }

  predicate Serving(f: CursorFrame, reader: Reader, now: int, snap: Snapshot) {
    && Honest(reader, now, snap)
    && ServingOwner(f, reader, now, snap[GATEWAY], GATEWAY) && ServingOwner(f, reader, now, snap[INGESTION], INGESTION)
  }

  /** The working state of one page: positions, their pages, and the owner reads made. */
  datatype Heads = Heads(owners: seq<OwnerPosition>, pages: map<string, OwnerPage>, calls: nat)

  /** Owner `i` of the working state stands on a sound page, at or one page past its position in frame `f`. */
  predicate Tracks(f: CursorFrame, h: Heads, i: int)
    requires |f.owners| == 2 && 0 <= i < 2
  {
    && |h.owners| == 2 && h.owners[i].name == f.owners[i].name && h.owners[i].name in h.pages
    && var p, page := h.owners[i], h.pages[h.owners[i].name];
       && SoundPage(page, p.name) && SameOwnerPage(p, page) && ValidPosition(p) && SameOwnerScope(f.owners[i], p)
       && (if f.coverage then ValidPublicationPage(page, f, p.name) && ValidOwnerCoverage(f, p)
           else f.owners[i].bookmark == NoToken)
  }

  predicate Working(f: CursorFrame, h: Heads) {
    && |f.owners| == 2 && f.owners[0].name != f.owners[1].name && Tracks(f, h, 0) && Tracks(f, h, 1)
    && h.calls == 2 + (h.owners[0].pageIndex - f.owners[0].pageIndex) + (h.owners[1].pageIndex - f.owners[1].pageIndex)
    && 2 <= h.calls <= 3
  }

  /** Owner `i` needs no refill: it is done or its next item is at hand. */
  predicate Settled(h: Heads, i: int)
    requires 0 <= i < |h.owners| && h.owners[i].name in h.pages
  {
    h.owners[i].done || h.owners[i].offset < |h.pages[h.owners[i].name].items|
  }

  /** Against a snapshot: owner `i` stands on its snapshot page. */
  predicate OnSnapshot(h: Heads, snap: Snapshot, i: int) {
    && 0 <= i < |h.owners| && h.owners[i].name in snap && At(h.owners[i], snap[h.owners[i].name])
    && h.owners[i].name in h.pages && h.pages[h.owners[i].name] == snap[h.owners[i].name][h.owners[i].pageIndex]
    && OrderedTo(snap[h.owners[i].name], h.owners[i].pageIndex)
  }

  function RestOf(h: Heads, snap: Snapshot, i: int): seq<Incident>
    requires OnSnapshot(h, snap, i)
  {
    Rest(h.owners[i], snap[h.owners[i].name])
  }

  function UnreadOf(h: Heads, snap: Snapshot, i: int): nat
    requires OnSnapshot(h, snap, i)
  {
    Unread(h.owners[i], snap[h.owners[i].name])
  }

  datatype Step = Ready(heads: Heads) | UnknownHead(heads: Heads)

  /** The governed read of an owner page. */
  method ReadPage(reader: Reader, name: string, token: Token, now: int) returns (out: Answer<OwnerPage>)
    ensures out == Fetch(reader, name, token, now)
    ensures out.Ok? ==> SoundPage(out.value, name)
  {
    hide Decode, SoundPage;
    FetchIsSound(reader, name, token, now);
    var reply := reader(name, token);
    if reply.Err? {
      return Err(Unavailable);
    }
    out := DecodePage(reply.value, name, now);
  }

  /** Nothing about owner `j` changed. */
  predicate SameOwner(h: Heads, h': Heads, j: int) {
    && 0 <= j < |h.owners| == |h'.owners| && h'.owners[j] == h.owners[j]
    && h.owners[j].name in h.pages && h.owners[j].name in h'.pages &&
       h'.pages[h.owners[j].name] == h.pages[h.owners[j].name]
  }

  /** Owner `i` at position `p` on page `page`, everything else as before. */
  function Place(h: Heads, i: nat, p: OwnerPosition, page: OwnerPage, calls: nat): Heads
    requires i < |h.owners|
  {
    Heads(h.owners[i := p], h.pages[p.name := page], calls)
  }

  /** Replacing one owner keeps the other and the call count in step. */
  lemma PlaceWorks(f: CursorFrame, h: Heads, i: nat, p: OwnerPosition, page: OwnerPage, calls: nat)
    requires i < 2 && Working(f, h) && p.name == h.owners[i].name
    requires 2 <= calls == h.calls + (p.pageIndex - h.owners[i].pageIndex) <= 3
    requires Tracks(f, Place(h, i, p, page, calls), i)
    ensures Working(f, Place(h, i, p, page, calls)) && SameOwner(h, Place(h, i, p, page, calls), 1 - i)
  {
    hide SoundPage, SameOwnerPage, ValidPosition, SameOwnerScope, ValidPublicationPage, ValidOwnerCoverage;
    var h' := Place(h, i, p, page, calls);
    assert h'.owners[1 - i] == h.owners[1 - i];
  }

  /** An exhausted owner without a next page is done. */
  lemma FinishTracks(f: CursorFrame, h: Heads, i: nat)
    requires i < 2 && Working(f, h)
    requires var p := h.owners[i]; p.offset >= |h.pages[p.name].items| && h.pages[p.name].next == NoToken
    ensures var p := h.owners[i]; Tracks(f, Place(h, i, p.(done := true), h.pages[p.name], h.calls), i)
  {
    hide SoundPage, ValidDigest;
  }

  lemma FinishOnSnapshot(h: Heads, i: nat, snap: Snapshot)
    requires OnSnapshot(h, snap, i)
    requires var p := h.owners[i]; p.offset >= |h.pages[p.name].items| && h.pages[p.name].next == NoToken
    requires SoundSnapshot(snap[h.owners[i].name], h.owners[i].name)
    ensures var p := h.owners[i];
            var h' := Place(h, i, p.(done := true), h.pages[p.name], h.calls);
            && OnSnapshot(h', snap, i) && RestOf(h', snap, i) == RestOf(h, snap, i) == []
            && UnreadOf(h', snap, i) == UnreadOf(h, snap, i)
  {
    hide SoundPage;
    var p := h.owners[i];
    LastPage(snap[p.name], p.name, p.pageIndex);
    RestEnds(p, snap[p.name]);
  }

  /** Only the last page names no successor. */
  lemma LastPage(pages: seq<OwnerPage>, name: string, k: nat)
    requires SoundSnapshot(pages, name) && k < |pages|
    ensures pages[k].next == NoToken <==> k == |pages| - 1
  {
    assert SoundAt(pages, name, k);
    if k + 1 < |pages| {
      assert SoundAt(pages, name, k + 1);
    }
  }

  /** The position a fetched page opens; an empty page is done at once. */
  function Opened(page: OwnerPage, name: string, index: int): OwnerPosition {
    PositionOf(page, name, index).(done := |page.items| == 0)
  }

  lemma TurnTracks(f: CursorFrame, h: Heads, i: nat, page: OwnerPage)
    requires i < 2 && Working(f, h) && h.calls == 2 && !h.owners[i].done && h.owners[i].pageIndex < 200
    requires var p := h.owners[i];
             && h.pages[p.name].next != NoToken && SoundPage(page, p.name) && page.snapshot == p.snapshot
             && (f.coverage ==> ValidPublicationPage(page, f, p.name))
    ensures var p := h.owners[i]; Tracks(f, Place(h, i, Opened(page, p.name, p.pageIndex + 1), page, 3), i)
  {
    hide ValidDigest, Sorted, AllOf;
  }

  lemma TurnOnSnapshot(h: Heads, i: nat, snap: Snapshot, page: OwnerPage)
    requires OnSnapshot(h, snap, i) && SoundSnapshot(snap[h.owners[i].name], h.owners[i].name)
    requires var p, pages := h.owners[i], snap[h.owners[i].name];
             && p.offset >= |h.pages[p.name].items| && h.pages[p.name].next != NoToken
             && (p.pageIndex + 1 < |pages| && pages[p.pageIndex + 1].cursor == h.pages[p.name].next ==>
                   page == pages[p.pageIndex + 1])
             && BoundaryOrdered(h.pages[p.name], page)
    ensures var p := h.owners[i];
            var h' := Place(h, i, Opened(page, p.name, p.pageIndex + 1), page, 3);
            && OnSnapshot(h', snap, i) && RestOf(h', snap, i) == RestOf(h, snap, i)
            && UnreadOf(h', snap, i) + 1 == UnreadOf(h, snap, i)
  {
    hide SoundPage, Before;
    var p := h.owners[i];
    var pages := snap[p.name];
    LastPage(pages, p.name, p.pageIndex);
    assert SoundAt(pages, p.name, p.pageIndex);
    var p' := PositionOf(page, p.name, p.pageIndex + 1);
    RestRefills(p, pages, p');
    if |page.items| == 0 {
      EmptyIsLast(pages, p.name, p'.pageIndex);
      RestEnds(p', pages);
    }
  }

  lemma EmptyIsLast(pages: seq<OwnerPage>, name: string, k: nat)
    requires SoundSnapshot(pages, name) && k < |pages| && pages[k].items == []
    ensures k == |pages| - 1
  {
    if k + 1 < |pages| {
      InnerPageFull(pages, name, k);
    }
  }

  /** Reading a snapshot page's successor gives the next snapshot page. */
  lemma HonestNext(reader: Reader, now: int, snap: Snapshot, name: string, k: nat)
    requires Honest(reader, now, snap) && name in snap && (name == GATEWAY || name == INGESTION) && k < |snap[name]|
    ensures SoundSnapshot(snap[name], name)
    ensures k + 1 < |snap[name]| && Fetch(reader, name, snap[name][k + 1].cursor, now).Ok? ==>
              Fetch(reader, name, snap[name][k + 1].cursor, now).value == snap[name][k + 1]
  {
    hide SoundSnapshot, Fetch;
  }

  lemma WorkingFacts(f: CursorFrame, h: Heads, i: nat)
    requires i < 2 && Working(f, h)
    ensures |h.owners| == 2 && h.owners[0].name != h.owners[1].name && 2 <= h.calls <= 3
    ensures h.owners[0].name in h.pages && h.owners[1].name in h.pages
    ensures var p := h.owners[i];
            (p.name == GATEWAY || p.name == INGESTION) && 0 <= p.offset <= |h.pages[p.name].items|
  {
    hide SoundPage, ValidDigest, ValidPublicationPage, ValidOwnerCoverage, SameOwnerScope;
  }

  /** What refilling owner `i` guarantees. */
  predicate Refilled(f: CursorFrame, h: Heads, i: nat, step: Step)
    requires i < 2
  {
    var h' := step.heads;
    && Working(f, h') && SameOwner(h, h', 1 - i) && h'.calls >= h.calls
    && h'.owners[i].name == h.owners[i].name && h'.owners[i].name in h'.pages
    && (step.Ready? ==> Settled(h', i))
    && (step.UnknownHead? ==> h' == h && h.calls == 3 && Unfinished(h, i))
  }

  /** Owner `i` has another page to read. */
  predicate Unfinished(h: Heads, i: int) {
    0 <= i < |h.owners| && h.owners[i].name in h.pages && !h.owners[i].done && h.pages[h.owners[i].name].next != NoToken
  }

  /** Against a snapshot, refilling loses no item and uses up one page per read. */
  predicate NothingLost(h: Heads, h': Heads, snap: Snapshot, i: nat)
    requires OnSnapshot(h, snap, i)
  {
    && OnSnapshot(h', snap, i) && RestOf(h', snap, i) == RestOf(h, snap, i)
    && UnreadOf(h', snap, i) + h'.calls == UnreadOf(h, snap, i) + h.calls
  }

  /** What a serving owner answers when its next page is read. */
  lemma ServedNext(f: CursorFrame, reader: Reader, now: int, snap: Snapshot, h: Heads, i: nat)
    requires i < 2 && Serving(f, reader, now, snap) && OnSnapshot(h, snap, i)
    requires h.owners[i].name == GATEWAY || h.owners[i].name == INGESTION
    requires h.pages[h.owners[i].name].next != NoToken
    ensures var p, page := h.owners[i], h.pages[h.owners[i].name];
            var answer := Fetch(reader, p.name, page.next, now);
            && p.pageIndex < 200 && answer.Ok? && answer.value.snapshot == p.snapshot &&
               answer.value.cursor == page.next
            && (f.coverage ==> ValidPublicationPage(answer.value, f, p.name)) && BoundaryOrdered(page, answer.value)
  {
    hide SoundPage, Fetch, Before, ValidPublicationPage;
    var p := h.owners[i];
    var pages, k := snap[p.name], p.pageIndex;
    HonestNext(reader, now, snap, p.name, k);
    LastPage(pages, p.name, k);
    assert SoundAt(pages, p.name, k) && SoundAt(pages, p.name, k + 1);
    assert ServingOwner(f, reader, now, pages, p.name);
    assert Fetch(reader, p.name, pages[k + 1].cursor, now).Ok?;
    assert BoundaryOrdered(pages[k], pages[k + 1]);
  }

  /** The items owner `i` still has on its page. */
  function Tail(h: Heads, i: int): seq<Incident> {
    if 0 <= i < |h.owners| && h.owners[i].name in h.pages && !h.owners[i].done &&
       0 <= h.owners[i].offset <= |h.pages[h.owners[i].name].items|
    then h.pages[h.owners[i].name].items[h.owners[i].offset..]
    else []
  }

  /** Owner `i` needs its next page before the merge can go on. */
  predicate Empty(h: Heads, i: int) { Tail(h, i) == [] && Unfinished(h, i) }

  /** The two working states offer the merge the same pages, items and pages to come. */
  predicate SameView(h: Heads, h': Heads) {
    && h'.pages == h.pages && h'.calls == h.calls
    && forall j :: 0 <= j < 2 ==> Tail(h', j) == Tail(h, j) && (Unfinished(h', j) <==> Unfinished(h, j))
  }

  /** Owner `i` moved to the page its owner answered for the cursor it had next; the other owner's page is the same. */
  predicate Fetched(h: Heads, h': Heads, i: int, reader: Reader, now: int) {
    && 0 <= i < 2 && |h.owners| == 2 && h.owners[0].name in h.pages && h.owners[1].name in h.pages
    && h.owners[0].name in h'.pages && h.owners[1].name in h'.pages
    && Fetch(reader, h.owners[i].name, h.pages[h.owners[i].name].next, now) == Ok(h'.pages[h.owners[i].name])
    && h'.pages[h.owners[1 - i].name] == h.pages[h.owners[1 - i].name]
  }

  /** Refilling owner `i` changes nothing the merge sees, or reads the page it was missing. */
  predicate RefillSeen(h: Heads, h': Heads, i: nat, reader: Reader, now: int) {
    if h'.calls == h.calls then SameView(h, h') else Empty(h, i) && Fetched(h, h', i, reader, now)
  }

  lemma FinishSeen(h: Heads, i: nat)
    requires i < 2 && |h.owners| == 2 && h.owners[i].name in h.pages && h.owners[0].name != h.owners[1].name
    requires h.owners[i].offset >= |h.pages[h.owners[i].name].items| && h.pages[h.owners[i].name].next == NoToken
    ensures SameView(h, Place(h, i, h.owners[i].(done := true), h.pages[h.owners[i].name], h.calls))
  {
    var h' := Place(h, i, h.owners[i].(done := true), h.pages[h.owners[i].name], h.calls);
    assert h'.pages == h.pages;
    assert h'.owners[1 - i] == h.owners[1 - i];
  }

  /** Read the next page of owner `i`. */
  method TurnPage(f: CursorFrame, h: Heads, i: nat, reader: Reader, now: int, ghost snap: Snapshot)
    returns (out: Answer<Heads>)
    requires i < 2 && Working(f, h)
    requires var p := h.owners[i];
             !p.done && p.offset >= |h.pages[p.name].items| && h.pages[p.name].next != NoToken && h.calls == 2
    ensures out.Ok? ==> Refilled(f, h, i, Ready(out.value)) && RefillSeen(h, out.value, i, reader, now)
    ensures out.Ok? && Honest(reader, now, snap) && OnSnapshot(h, snap, i) ==> NothingLost(h, out.value, snap, i)
    ensures Serving(f, reader, now, snap) && OnSnapshot(h, snap, i) ==> out.Ok?
  {
    hide SoundPage, Honest, ValidPublicationPage, SoundSnapshot, Fetch, Rest, Unread, OrderedTo, Working, Tracks, At,
      Serving, Before;
    WorkingFacts(f, h, i);
    var p := h.owners[i];
    var page := h.pages[p.name];
    if Serving(f, reader, now, snap) && OnSnapshot(h, snap, i) {
      ServedNext(f, reader, now, snap, h, i);
    }
    if p.pageIndex >= 200 {
      return Err(Capacity);
    }
    var next := ReadPage(reader, p.name, page.next, now);
    if next.Err? {
      return Err(next.error);
    }
    var fetched := next.value;
    if f.coverage && !ValidPublicationPage(fetched, f, p.name) {
      return Err(Conflict);
    }
    if fetched.snapshot != p.snapshot || fetched.cursor != page.next {
      return Err(Conflict);
    }
    if |page.items| > 0 && |fetched.items| > 0 && Before(fetched.items[0], page.items[|page.items| - 1]) {
      return Err(Conflict);
    }
    var p' := PositionOf(fetched, p.name, p.pageIndex + 1);
    if |fetched.items| == 0 {
      p' := p'.(done := true);
    }
    TurnTracks(f, h, i, fetched);
    PlaceWorks(f, h, i, p', fetched, 3);
    if Honest(reader, now, snap) && OnSnapshot(h, snap, i) {
      InSnapshot(h, snap, i);
      HonestNext(reader, now, snap, p.name, p.pageIndex);
      TurnOnSnapshot(h, i, snap, fetched);
    }
    return Ok(Place(h, i, p', fetched, h.calls + 1));
  }

  lemma InSnapshot(h: Heads, snap: Snapshot, i: int)
    requires OnSnapshot(h, snap, i)
    ensures 0 <= h.owners[i].pageIndex < |snap[h.owners[i].name]|
  {
  }

  /** Bring the head of owner `i` to hand, reading its next page when the current one is used up. */
  method Refill(f: CursorFrame, h: Heads, i: nat, reader: Reader, now: int, ghost snap: Snapshot)
    returns (out: Answer<Step>)
    requires i < 2 && Working(f, h)
    ensures out.Ok? ==> Refilled(f, h, i, out.value) && RefillSeen(h, out.value.heads, i, reader, now)
    ensures out.Ok? && Honest(reader, now, snap) && OnSnapshot(h, snap, i) ==> NothingLost(h, out.value.heads, snap, i)
    ensures Serving(f, reader, now, snap) && OnSnapshot(h, snap, i) ==> out.Ok?
  {
    hide Honest, Serving, SoundSnapshot, Fetch, Rest, Unread, OrderedTo, Working, Tracks, At;
    WorkingFacts(f, h, i);
    var p := h.owners[i];
    var page := h.pages[p.name];
    if p.done || p.offset < |page.items| {
      return Ok(Ready(h));
    }
    if page.next == NoToken {
      FinishTracks(f, h, i);
      PlaceWorks(f, h, i, p.(done := true), page, h.calls);
      FinishSeen(h, i);
      if Honest(reader, now, snap) && OnSnapshot(h, snap, i) {
        InSnapshot(h, snap, i);
        HonestNext(reader, now, snap, p.name, p.pageIndex);
        FinishOnSnapshot(h, i, snap);
      }
      return Ok(Ready(Place(h, i, p.(done := true), page, h.calls)));
    }
    if h.calls >= 3 {
      return Ok(UnknownHead(h));
    }
    var turned := TurnPage(f, h, i, reader, now, snap);
    if turned.Err? {
      return Err(turned.error);
    }
    return Ok(Ready(turned.value));
  }

  // ---- Both owners.

  predicate BothOn(h: Heads, snap: Snapshot) { OnSnapshot(h, snap, 0) && OnSnapshot(h, snap, 1) }

  function TotalUnread(h: Heads, snap: Snapshot): nat
    requires BothOn(h, snap)
  {
    UnreadOf(h, snap, 0) + UnreadOf(h, snap, 1)
  }

  /** What is left to emit, in order. */
  function Remaining(h: Heads, snap: Snapshot, self: Option<Incident>): seq<Incident>
    requires BothOn(h, snap)
  {
    OneShot(RestOf(h, snap, 0), RestOf(h, snap, 1), self)
  }

  /** Refilling keeps both remainders, and trades one unread page for each read. */
  predicate BothKept(h: Heads, h': Heads, snap: Snapshot)
    requires BothOn(h, snap)
  {
    && BothOn(h', snap) && RestOf(h', snap, 0) == RestOf(h, snap, 0) && RestOf(h', snap, 1) == RestOf(h, snap, 1)
    && TotalUnread(h', snap) + h'.calls == TotalUnread(h, snap) + h.calls
  }

  lemma OneKeepsBoth(h: Heads, h': Heads, snap: Snapshot, i: nat)
    requires i < 2 && BothOn(h, snap) && NothingLost(h, h', snap, i) && SameOwner(h, h', 1 - i)
    ensures BothKept(h, h', snap)
  {
    hide Rest, Unread, At, OrderedTo;
  }

  /** The owner whose page is missing, the first one first. */
  function Missing(h: Heads): Option<nat> {
    if Empty(h, 0) then Some(0) else if Empty(h, 1) then Some(1) else None
  }

  /** Refreshing changes nothing the merge sees, or reads the first missing page. */
  predicate RefreshSeen(h: Heads, h': Heads, reader: Reader, now: int) {
    if h'.calls == h.calls then SameView(h, h') else Missing(h).Some? && Fetched(h, h', Missing(h).value, reader, now)
  }

  lemma SameViewOfSame(h: Heads)
    ensures SameView(h, h)
  {
  }

  lemma FirstSeen(h: Heads, h': Heads, reader: Reader, now: int)
    requires RefillSeen(h, h', 0, reader, now)
    ensures RefreshSeen(h, h', reader, now)
  {
    hide SameView, Fetched;
  }

  /** Refilling the second owner after the first: a second read cannot happen, and a settled first owner misses
      nothing. */
  lemma SecondSeen(f: CursorFrame, h: Heads, h1: Heads, h2: Heads, reader: Reader, now: int)
    requires Working(f, h) && Working(f, h1) && Working(f, h2) && h1.calls >= h.calls
    requires Named(h1) && Settled(h1, 0) && SameOwner(h1, h2, 0) && h2.calls >= h1.calls
    requires RefreshSeen(h, h1, reader, now) && RefillSeen(h1, h2, 1, reader, now)
    ensures RefreshSeen(h, h2, reader, now)
  {
    hide Working;
    WorkingFacts(f, h, 0);
    WorkingFacts(f, h1, 0);
    WorkingFacts(f, h2, 0);
    NamesStay(f, h);
    NamesStay(f, h1);
    NamesStay(f, h2);
    if h1.calls == h.calls && h2.calls > h1.calls {
      assert !Empty(h1, 0);
      assert Tail(h, 0) == Tail(h1, 0) && Tail(h, 1) == Tail(h1, 1);
    }
  }

  lemma NamesStay(f: CursorFrame, h: Heads)
    requires Working(f, h)
    ensures |f.owners| == |h.owners| == 2 && h.owners[0].name == f.owners[0].name &&
            h.owners[1].name == f.owners[1].name
  {
    hide SoundPage, SameOwnerPage, ValidPosition, SameOwnerScope, ValidPublicationPage, ValidOwnerCoverage;
  }

  /** Bring both heads to hand; stop at a head that would take a fourth read. */
  method Refresh(f: CursorFrame, h: Heads, reader: Reader, now: int, ghost snap: Snapshot) returns (out: Answer<Step>)
    requires Working(f, h)
    ensures out.Ok? ==>
              && Working(f, out.value.heads) && |out.value.heads.owners| == 2 && Named(out.value.heads)
              && out.value.heads.calls >= h.calls
              && (out.value.Ready? ==> Settled(out.value.heads, 0) && Settled(out.value.heads, 1))
              && (out.value.UnknownHead? ==>
                    out.value.heads.calls == 3 &&
                    exists i :: 0 <= i < |out.value.heads.owners| && Unfinished(out.value.heads, i))
    ensures out.Ok? && Honest(reader, now, snap) && BothOn(h, snap) ==> BothKept(h, out.value.heads, snap)
    ensures Serving(f, reader, now, snap) && BothOn(h, snap) ==> out.Ok?
    ensures out.Ok? ==> RefreshSeen(h, out.value.heads, reader, now)
  {
    hide Working, Honest, OnSnapshot, RestOf, UnreadOf, ServingOwner, SameView, Fetched, Tail, Unfinished;
    WorkingFacts(f, h, 0);
    var h' := h;
    SameViewOfSame(h);
    for i := 0 to 2
      invariant i == 0 ==> h' == h
      invariant RefreshSeen(h, h', reader, now)
      invariant Working(f, h') && |h'.owners| == 2 && Named(h') && h'.calls >= h.calls
      invariant forall j :: 0 <= j < i ==> Settled(h', j)
      invariant Honest(reader, now, snap) && BothOn(h, snap) ==> BothKept(h, h', snap)
    {
      var step := Refill(f, h', i, reader, now, snap);
      if step.Err? {
        return Err(step.error);
      }
      WorkingFacts(f, step.value.heads, 0);
      if Honest(reader, now, snap) && BothOn(h, snap) {
        OneKeepsBoth(h', step.value.heads, snap, i);
      }
      if i == 0 {
        FirstSeen(h, step.value.heads, reader, now);
      } else {
        SecondSeen(f, h, h', step.value.heads, reader, now);
      }
      if step.value.UnknownHead? {
        return step;
      }
      assert i == 1 ==> Settled(h', 0) && SameOwner(h', step.value.heads, 0);
      h' := step.value.heads;
    }
    return Ok(Ready(h'));
  }

  predicate Named(h: Heads) {
    |h.owners| == 2 && h.owners[0].name in h.pages && h.owners[1].name in h.pages
  }

  /** The items at hand of owner `i`. */
  function AtHand(h: Heads, i: int): seq<Incident>
    requires Named(h) && 0 <= i < 2 && 0 <= h.owners[i].offset <= |h.pages[h.owners[i].name].items|
  {
    if h.owners[i].done then [] else h.pages[h.owners[i].name].items[h.owners[i].offset..]
  }

  /** The index of the next owner item, or -1 when both owners are done. */
  method Pick(h: Heads) returns (winner: int)
    requires Named(h) && Settled(h, 0) && Settled(h, 1)
    requires forall i :: 0 <= i < 2 ==> 0 <= h.owners[i].offset <= |h.pages[h.owners[i].name].items|
    ensures var a, b := AtHand(h, 0), AtHand(h, 1);
            winner == if a == [] && b == [] then -1 else if TakesFirst(a, b) then 0 else 1
  {
    hide Before;
    winner := -1;
    var candidate: Option<Incident> := None;
    for i := 0 to 2
      invariant i == 0 ==> winner == -1 && candidate.None?
      invariant i == 1 ==> (if AtHand(h, 0) == [] then winner == -1 && candidate.None?
                            else winner == 0 && candidate == Some(AtHand(h, 0)[0]))
      invariant i == 2 ==> winner == if AtHand(h, 0) == [] && AtHand(h, 1) == [] then -1
                                     else if TakesFirst(AtHand(h, 0), AtHand(h, 1)) then 0 else 1
    {
      var p := h.owners[i];
      if !p.done {
        var item := h.pages[p.name].items[p.offset];
        if candidate.None? || Before(item, candidate.value) {
          candidate, winner := Some(item), i;
        }
      }
    }
  }

  /** Once settled, the item at hand is the head of the remainder. */
  lemma HeadAtHand(h: Heads, snap: Snapshot, i: int)
    requires 0 <= i < 2 && Named(h) && Settled(h, i) && OnSnapshot(h, snap, i)
    requires 0 <= h.owners[i].offset <= |h.pages[h.owners[i].name].items|
    ensures AtHand(h, i) == [] <==> RestOf(h, snap, i) == []
    ensures AtHand(h, i) != [] ==> AtHand(h, i)[0] == RestOf(h, snap, i)[0]
  {
    hide OrderedTo;
    if h.owners[i].done {
      RestEnds(h.owners[i], snap[h.owners[i].name]);
    }
  }

  /** Emit the head of owner `i`. */
  function Emit(h: Heads, i: nat): Heads
    requires Named(h) && i < 2
  {
    h.(owners := h.owners[i := h.owners[i].(offset := h.owners[i].offset + 1)])
  }

  lemma EmitWorks(f: CursorFrame, h: Heads, i: nat)
    requires i < 2 && Working(f, h) && Named(h) && !h.owners[i].done &&
             h.owners[i].offset < |h.pages[h.owners[i].name].items|
    ensures Working(f, Emit(h, i))
  {
    hide ValidDigest, Sorted, AllOf, ValidPublicationPage;
    var h' := Emit(h, i);
    assert h'.owners[1 - i] == h.owners[1 - i];
  }

  lemma EmitOnSnapshot(h: Heads, i: nat, snap: Snapshot)
    requires i < 2 && Named(h) && BothOn(h, snap) && h.owners[0].name != h.owners[1].name
    requires !h.owners[i].done && h.owners[i].offset < |h.pages[h.owners[i].name].items|
    ensures var h' := Emit(h, i);
            && BothOn(h', snap) && RestOf(h', snap, 1 - i) == RestOf(h, snap, 1 - i)
            && RestOf(h, snap, i) == [h.pages[h.owners[i].name].items[h.owners[i].offset]] + RestOf(h', snap, i)
            && TotalUnread(h', snap) + 1 == TotalUnread(h, snap)
  {
    hide OrderedTo;
    RestAdvances(h.owners[i], snap[h.owners[i].name]);
    var h' := Emit(h, i);
    assert h'.owners[1 - i] == h.owners[1 - i];
  }

  // ---- Foreseeing the refill.

  /** Which owner's page the merge will be missing first, before `room` more items are emitted: decided by the items
      at hand, the own incident and whether the owners have more pages. */
  function FirstRefill(a: seq<Incident>, b: seq<Incident>, self: Option<Incident>, moreA: bool, moreB: bool, room: int)
    : (first: Option<nat>)
    ensures first.Some? ==> first.value < 2
    decreases if room < 0 then 0 else room
  {
    if room <= 0 then None
    else if a == [] && moreA then Some(0)
    else if b == [] && moreB then Some(1)
    else if TakesSelf(a, b, self) then FirstRefill(a, b, None, moreA, moreB, room - 1)
    else if a == [] && b == [] then None
    else if TakesFirst(a, b) then FirstRefill(a[1..], b, self, moreA, moreB, room - 1)
    else FirstRefill(a, b[1..], self, moreA, moreB, room - 1)
  }

  function Foresee(h: Heads, self: Option<Incident>, room: int): Option<nat> {
    FirstRefill(Tail(h, 0), Tail(h, 1), self, Unfinished(h, 0), Unfinished(h, 1), room)
  }

  /** What was foreseen when the page began is still ahead, or has happened. */
  predicate Foreseen(f: CursorFrame, h0: Heads, h: Heads, consumed: bool, room: int, reader: Reader, now: int) {
    var start := Foresee(h0, SelfLeft(f), f.pageLimit);
    if h.calls == 2 then h.pages == h0.pages && start == Foresee(h, SelfAt(f, consumed), room)
    else start.Some? && Fetched(h0, h, start.value, reader, now)
  }

  lemma ForeseenStart(f: CursorFrame, h0: Heads, reader: Reader, now: int)
    requires h0.calls == 2
    ensures Foreseen(f, h0, h0, f.selfConsumed, f.pageLimit, reader, now)
  {
    hide FirstRefill;
    assert f.(selfConsumed := f.selfConsumed) == f;
  }

  lemma MissingIsFirst(h: Heads, self: Option<Incident>, room: int)
    requires room > 0 && Missing(h).Some?
    ensures Foresee(h, self, room) == Missing(h)
  {
    hide Tail, Unfinished, Before;
  }

  lemma ForeseenRefresh(f: CursorFrame, h0: Heads, h: Heads, h': Heads, consumed: bool, room: int, reader: Reader,
                        now: int)
    requires Working(f, h0) && Working(f, h) && Working(f, h') && h'.calls >= h.calls && room > 0
    requires Foreseen(f, h0, h, consumed, room, reader, now) && RefreshSeen(h, h', reader, now)
    ensures Foreseen(f, h0, h', consumed, room, reader, now)
  {
    hide Working, FirstRefill, Tail, Unfinished, Fetch;
    NamesStay(f, h0);
    NamesStay(f, h);
    WorkingFacts(f, h0, 0);
    WorkingFacts(f, h, 0);
    WorkingFacts(f, h', 0);
    if h'.calls == h.calls {
      SameForesight(h, h', SelfAt(f, consumed), room);
    } else {
      MissingIsFirst(h, SelfAt(f, consumed), room);
    }
  }

  lemma SameForesight(h: Heads, h': Heads, self: Option<Incident>, room: int)
    requires SameView(h, h')
    ensures Foresee(h', self, room) == Foresee(h, self, room)
  {
    hide Tail, Unfinished, FirstRefill;
    assert Tail(h', 0) == Tail(h, 0) && Tail(h', 1) == Tail(h, 1);
  }

  /** The turn takes the item the merge of the tails takes, or stops where nothing is left. */
  predicate Chosen(h: Heads, self: Option<Incident>, turn: Turn) {
    var a, b := Tail(h, 0), Tail(h, 1);
    match turn
    case Stop(_, heads) => heads == h && self.None? && a == [] && b == []
    case Emitted(_, heads, own) =>
      if own then heads == h && TakesSelf(a, b, self)
      else !TakesSelf(a, b, self) && ChosenOwner(h, heads, if TakesFirst(a, b) then 0 else 1)
  }

  predicate ChosenOwner(h: Heads, h': Heads, i: nat) { HasItem(h, i) && h' == Emit(h, i) }

  lemma EmitTails(h: Heads, i: nat)
    requires HasItem(h, i) && h.owners[0].name != h.owners[1].name
    ensures var h' := Emit(h, i);
            && Tail(h, i) != [] && Tail(h', i) == Tail(h, i)[1..] && Tail(h', 1 - i) == Tail(h, 1 - i)
            && (Unfinished(h', 0) <==> Unfinished(h, 0)) && (Unfinished(h', 1) <==> Unfinished(h, 1))
  {
    var h' := Emit(h, i);
    assert h'.owners[1 - i] == h.owners[1 - i];
  }

  /** Emitting the chosen item uses one place of the page and moves the foresight along. */
  lemma ForeseenEmit(h: Heads, self: Option<Incident>, turn: Turn, room: int)
    requires room > 0 && Missing(h).None? && Chosen(h, self, turn) && Named(h) && h.owners[0].name != h.owners[1].name
    ensures turn.Emitted? ==> Foresee(h, self, room) == Foresee(turn.heads, if turn.self then None else self, room - 1)
    ensures turn.Stop? ==> Foresee(h, self, room).None?
  {
    hide Tail, Unfinished, Before, HasItem;
    if turn.Emitted? && !turn.self {
      EmitTails(h, if TakesFirst(Tail(h, 0), Tail(h, 1)) then 0 else 1);
    }
  }

  lemma SettledMissesNothing(h: Heads)
    requires Named(h) && Settled(h, 0) && Settled(h, 1)
    requires forall i :: 0 <= i < 2 ==> 0 <= h.owners[i].offset <= |h.pages[h.owners[i].name].items|
    ensures Missing(h).None?
    ensures Tail(h, 0) == AtHand(h, 0) && Tail(h, 1) == AtHand(h, 1)
  {
  }

  // ---- One page.

  /** A composed page: its items, the working state it ends in, and whether a head was left unread. */
  datatype Merged = Merged(items: seq<Incident>, heads: Heads, selfConsumed: bool, scanPending: bool)

  function FrameAfter(f: CursorFrame, m: Merged): CursorFrame {
    f.(owners := m.heads.owners, selfConsumed := m.selfConsumed)
  }

  /** More to come: an owner that is not done, or the server's own incident. */
  predicate More(f: CursorFrame, m: Merged) {
    SelfLeft(FrameAfter(f, m)).Some? || exists i :: 0 <= i < |m.heads.owners| && !m.heads.owners[i].done
  }

  function SelfAt(f: CursorFrame, consumed: bool): Option<Incident> { SelfLeft(f.(selfConsumed := consumed)) }

  /** The emitted items followed by what is left are exactly what there was. */
  predicate Conserves(f: CursorFrame, h0: Heads, m: Merged, snap: Snapshot)
    requires BothOn(h0, snap)
  {
    && BothOn(m.heads, snap)
    && Remaining(h0, snap, SelfLeft(f)) == m.items + Remaining(m.heads, snap, SelfAt(f, m.selfConsumed))
    && TotalUnread(h0, snap) + |AsSeq(SelfLeft(f))| + h0.calls
       == |m.items| + TotalUnread(m.heads, snap) + |AsSeq(SelfAt(f, m.selfConsumed))| + m.heads.calls
  }

  lemma ConservesRefresh(f: CursorFrame, h0: Heads, m: Merged, h': Heads, snap: Snapshot)
    requires BothOn(h0, snap) && Conserves(f, h0, m, snap) && BothKept(m.heads, h', snap)
    ensures Conserves(f, h0, m.(heads := h'), snap)
  {
    hide OneShot, OnSnapshot;
  }

  lemma ConservesSelf(f: CursorFrame, h0: Heads, m: Merged, snap: Snapshot)
    requires BothOn(h0, snap) && Conserves(f, h0, m, snap) && !m.selfConsumed
    requires TakesSelf(RestOf(m.heads, snap, 0), RestOf(m.heads, snap, 1), SelfAt(f, false))
    ensures Conserves(f, h0, m.(items := m.items + [SelfAt(f, false).value], selfConsumed := true), snap)
  {
    hide OnSnapshot, RestOf, UnreadOf;
    var a, b := RestOf(m.heads, snap, 0), RestOf(m.heads, snap, 1);
    assert OneShot(a, b, SelfAt(f, false)) == [SelfAt(f, false).value] + OneShot(a, b, None);
    assert SelfAt(f, true) == None;
  }

  /** Owner `i` has an item at hand. */
  predicate HasItem(h: Heads, i: nat) {
    i < 2 && Named(h) && !h.owners[i].done && 0 <= h.owners[i].offset < |h.pages[h.owners[i].name].items|
  }

  function EmitItem(m: Merged, i: nat): Merged
    requires HasItem(m.heads, i)
  {
    m.(items := m.items + [m.heads.pages[m.heads.owners[i].name].items[m.heads.owners[i].offset]],
       heads := Emit(m.heads, i))
  }

  /** The merge takes owner `i`'s head next. */
  predicate Takes(h: Heads, snap: Snapshot, self: Option<Incident>, i: nat)
    requires BothOn(h, snap)
  {
    var a, b := RestOf(h, snap, 0), RestOf(h, snap, 1);
    !TakesSelf(a, b, self) && (if i == 0 then TakesFirst(a, b) else !TakesFirst(a, b))
  }

  lemma EmitRemaining(h: Heads, snap: Snapshot, self: Option<Incident>, i: nat)
    requires HasItem(h, i) && h.owners[0].name != h.owners[1].name && BothOn(h, snap) && Takes(h, snap, self, i)
    ensures BothOn(Emit(h, i), snap) && TotalUnread(Emit(h, i), snap) + 1 == TotalUnread(h, snap)
    ensures Remaining(h, snap, self) == [h.pages[h.owners[i].name].items[h.owners[i].offset]] +
              Remaining(Emit(h, i), snap, self)
  {
    hide OnSnapshot, RestOf, UnreadOf, OneShot, TakesSelf, TakesFirst;
    EmitOnSnapshot(h, i, snap);
    var a, b := RestOf(h, snap, 0), RestOf(h, snap, 1);
    if i == 0 {
      OneShotFirst(a, b, self);
      assert a[1..] == RestOf(Emit(h, i), snap, 0);
    } else {
      OneShotSecond(a, b, self);
      assert b[1..] == RestOf(Emit(h, i), snap, 1);
    }
  }

  lemma ConservesEmit(f: CursorFrame, h0: Heads, m: Merged, snap: Snapshot, i: nat)
    requires HasItem(m.heads, i) && m.heads.owners[0].name != m.heads.owners[1].name
    requires BothOn(h0, snap) && BothOn(m.heads, snap) && Conserves(f, h0, m, snap)
    requires Takes(m.heads, snap, SelfAt(f, m.selfConsumed), i)
    ensures Conserves(f, h0, EmitItem(m, i), snap)
  {
    hide BothOn, Remaining, TotalUnread, SelfAt, Takes;
    EmitRemaining(m.heads, snap, SelfAt(f, m.selfConsumed), i);
  }

  /** The merge decision on the items at hand is the decision on everything left. */
  lemma DecisionsAgree(h: Heads, snap: Snapshot, self: Option<Incident>)
    requires Named(h) && Settled(h, 0) && Settled(h, 1) && BothOn(h, snap)
    requires forall i :: 0 <= i < 2 ==> 0 <= h.owners[i].offset <= |h.pages[h.owners[i].name].items|
    ensures var a, b, a', b' := AtHand(h, 0), AtHand(h, 1), RestOf(h, snap, 0), RestOf(h, snap, 1);
            && (a == [] <==> a' == []) && (b == [] <==> b' == [])
            && (TakesFirst(a, b) <==> TakesFirst(a', b')) && (TakesSelf(a, b, self) <==> TakesSelf(a', b', self))
  {
    hide Before, OnSnapshot;
    HeadAtHand(h, snap, 0);
    HeadAtHand(h, snap, 1);
  }

  lemma OffsetsInRange(f: CursorFrame, h: Heads)
    requires Working(f, h)
    ensures Named(h) && h.owners[0].name != h.owners[1].name
    ensures forall i :: 0 <= i < 2 ==> 0 <= h.owners[i].offset <= |h.pages[h.owners[i].name].items|
  {
    hide Working;
    WorkingFacts(f, h, 0);
    WorkingFacts(f, h, 1);
  }

  datatype Turn = Stop(pending: bool, heads: Heads) | Emitted(item: Incident, heads: Heads, self: bool)

  /** Append the turn to the page. */
  function Extend(m: Merged, turn: Turn): Merged {
    match turn
    case Stop(pending, heads) => m.(heads := heads, scanPending := pending)
    case Emitted(item, heads, self) =>
      m.(items := m.items + [item], heads := heads, selfConsumed := m.selfConsumed || self)
  }

  /** What ends a page early: an unread head after three reads, or nothing left at all. */
  predicate StopsRightly(f: CursorFrame, m: Merged, turn: Turn) {
    turn.Stop? ==>
      if turn.pending then
        turn.heads.calls == 3 && exists i :: 0 <= i < |turn.heads.owners| && Unfinished(turn.heads, i)
      else SelfAt(f, m.selfConsumed).None? && |turn.heads.owners| == 2 && turn.heads.owners[0].done &&
           turn.heads.owners[1].done
  }

  lemma ConservesMeans(f: CursorFrame, h0: Heads, m: Merged, snap: Snapshot, pending: bool)
    requires BothOn(h0, snap) && Conserves(f, h0, m, snap)
    ensures BothOn(m.heads, snap) && Conserves(f, h0, m.(scanPending := pending), snap)
  {
    hide BothOn, OneShot;
  }

  /** Choose the next item among the heads at hand and the server's own incident. */
  method Choose(f: CursorFrame, m: Merged, ghost h0: Heads, ghost snap: Snapshot) returns (turn: Turn)
    requires Working(f, m.heads) && Named(m.heads) && Settled(m.heads, 0) && Settled(m.heads, 1)
    ensures Working(f, turn.heads) && StopsRightly(f, m, turn) && (turn.Stop? ==> !turn.pending)
    ensures BothOn(h0, snap) && Conserves(f, h0, m, snap) ==> Conserves(f, h0, Extend(m, turn), snap)
    ensures Missing(m.heads).None? && Chosen(m.heads, SelfAt(f, m.selfConsumed), turn)
  {
    hide Working, OnSnapshot, Conserves, Before, RestOf, BothOn, Missing, Tail;
    var h := m.heads;
    OffsetsInRange(f, h);
    SettledMissesNothing(h);
    var winner := Pick(h);
    var self := SelfAt(f, m.selfConsumed);
    ghost var follows := BothOn(h0, snap) && Conserves(f, h0, m, snap);
    if follows {
      ConservesMeans(f, h0, m, snap, false);
      BothOnMeans(h, snap);
      DecisionsAgree(h, snap, self);
    }
    var selfFirst := self.Some?;
    if selfFirst && winner >= 0 {
      var p := h.owners[winner];
      selfFirst := Before(self.value, h.pages[p.name].items[p.offset]);
    }
    if selfFirst {
      if follows {
        ConservesSelf(f, h0, m, snap);
      }
      return Emitted(self.value, h, true);
    }
    if winner < 0 {
      return Stop(false, h);
    }
    EmitWorks(f, h, winner);
    if follows {
      ConservesEmit(f, h0, m, snap, winner);
    }
    return Emitted(h.pages[h.owners[winner].name].items[h.owners[winner].offset], Emit(h, winner), false);
  }

  lemma BothOnMeans(h: Heads, snap: Snapshot)
    requires BothOn(h, snap)
    ensures OnSnapshot(h, snap, 0) && OnSnapshot(h, snap, 1)
  {
  }

  predicate StillForeseen(f: CursorFrame, h0: Heads, m: Merged, reader: Reader, now: int) {
    Foreseen(f, h0, m.heads, m.selfConsumed, f.pageLimit - |m.items|, reader, now)
  }

  /** A page that stops without a read was foreseen to need none. */
  predicate NothingMissed(f: CursorFrame, h0: Heads, turn: Turn) {
    turn.Stop? && turn.heads.calls == 2 ==> Foresee(h0, SelfLeft(f), f.pageLimit).None?
  }

  lemma PendingMissesNothing(f: CursorFrame, h0: Heads, h: Heads)
    requires h.calls == 3
    ensures NothingMissed(f, h0, Stop(true, h))
  {
    hide Foresee;
  }

  lemma ForeseenTurn(f: CursorFrame, h0: Heads, m: Merged, turn: Turn, reader: Reader, now: int)
    requires Working(f, m.heads) && |m.items| < f.pageLimit && StillForeseen(f, h0, m, reader, now)
    requires Missing(m.heads).None? && Chosen(m.heads, SelfAt(f, m.selfConsumed), turn)
    ensures StillForeseen(f, h0, Extend(m, turn), reader, now) && NothingMissed(f, h0, turn)
  {
    hide Working, Foresee, Missing, TakesSelf, TakesFirst, Tail, Fetch;
    OffsetsInRange(f, m.heads);
    ForeseenEmit(m.heads, SelfAt(f, m.selfConsumed), turn, f.pageLimit - |m.items|);
    assert SelfAt(f, true) == None;
  }

  /** One round of the merge loop: bring the heads to hand and choose the next item. */
  method NextItem(f: CursorFrame, m: Merged, reader: Reader, now: int, ghost h0: Heads, ghost snap: Snapshot)
    returns (out: Answer<Turn>)
    requires Working(f, m.heads)
    ensures out.Ok? ==> Working(f, out.value.heads) && StopsRightly(f, m, out.value)
    ensures out.Ok? && Honest(reader, now, snap) && BothOn(h0, snap) && Conserves(f, h0, m, snap) ==>
              Conserves(f, h0, Extend(m, out.value), snap)
    ensures Serving(f, reader, now, snap) && BothOn(h0, snap) && Conserves(f, h0, m, snap) ==> out.Ok?
    ensures out.Ok? && Working(f, h0) && |m.items| < f.pageLimit && StillForeseen(f, h0, m, reader, now) ==>
              StillForeseen(f, h0, Extend(m, out.value), reader, now) && NothingMissed(f, h0, out.value)
  {
    hide Working, Honest, ServingOwner, Conserves, BothKept, BothOn, Settled, Foreseen, Chosen, RefreshSeen,
      NothingMissed;
    if BothOn(h0, snap) && Conserves(f, h0, m, snap) {
      ConservesMeans(f, h0, m, snap, true);
    }
    var step := Refresh(f, m.heads, reader, now, snap);
    if step.Err? {
      return Err(step.error);
    }
    var m' := m.(heads := step.value.heads);
    if Honest(reader, now, snap) && BothOn(h0, snap) && Conserves(f, h0, m, snap) {
      ConservesRefresh(f, h0, m, m'.heads, snap);
      ConservesMeans(f, h0, m', snap, true);
    }
    ghost var foreseen := Working(f, h0) && |m.items| < f.pageLimit && StillForeseen(f, h0, m, reader, now);
    if foreseen {
      ForeseenRefresh(f, h0, m.heads, m'.heads, m.selfConsumed, f.pageLimit - |m.items|, reader, now);
    }
    if step.value.UnknownHead? {
      PendingMissesNothing(f, h0, m'.heads);
      return Ok(Stop(true, m'.heads));
    }
    var turn := Choose(f, m', h0, snap);
    if foreseen {
      ForeseenTurn(f, h0, m', turn, reader, now);
    }
    return Ok(turn);
  }

  /** Owner `i` is marked done exactly when its last page is used up; nothing else changes. */
  predicate Marked(h: Heads, h': Heads, i: int)
    requires Named(h) && 0 <= i < 2
  {
    && h'.pages == h.pages && h'.calls == h.calls && |h'.owners| == 2 && h'.owners[1 - i] == h.owners[1 - i]
    && var p, page := h.owners[i], h.pages[h.owners[i].name];
       h'.owners[i] == if p.offset == |page.items| && page.next == NoToken then p.(done := true) else p
  }

  method MarkDone(f: CursorFrame, h: Heads, i: nat, reader: Reader, now: int, ghost snap: Snapshot) returns (h': Heads)
    requires i < 2 && Working(f, h) && Named(h)
    ensures Working(f, h') && Marked(h, h', i)
    ensures Honest(reader, now, snap) && BothOn(h, snap) ==> BothKept(h, h', snap)
  {
    hide Honest, SoundSnapshot, Fetch, Rest, Unread, OrderedTo, Working, Tracks, At;
    WorkingFacts(f, h, i);
    var p := h.owners[i];
    var page := h.pages[p.name];
    if p.offset == |page.items| && page.next == NoToken {
      FinishTracks(f, h, i);
      PlaceWorks(f, h, i, p.(done := true), page, h.calls);
      if Honest(reader, now, snap) && BothOn(h, snap) {
        InSnapshot(h, snap, i);
        HonestNext(reader, now, snap, p.name, p.pageIndex);
        FinishOnSnapshot(h, i, snap);
        OneKeepsBoth(h, Place(h, i, p.(done := true), page, h.calls), snap, i);
      }
      assert h.pages[p.name := page] == h.pages;
      return Place(h, i, p.(done := true), page, h.calls);
    }
    return h;
  }

  /** Mark each used-up owner done. */
  method MarkBoth(f: CursorFrame, h: Heads, reader: Reader, now: int, ghost snap: Snapshot) returns (h': Heads)
    requires Working(f, h)
    ensures Working(f, h') && |h'.owners| == |h.owners| == 2 && h'.calls == h.calls && h'.pages == h.pages
    ensures forall i :: 0 <= i < 2 ==>
              (h.owners[i].done ==> h'.owners[i].done) && (Unfinished(h, i) ==> Unfinished(h', i))
    ensures Honest(reader, now, snap) && BothOn(h, snap) ==> BothKept(h, h', snap)
  {
    hide Working, Honest, OnSnapshot, RestOf, UnreadOf;
    OffsetsInRange(f, h);
    var h1 := MarkDone(f, h, 0, reader, now, snap);
    OffsetsInRange(f, h1);
    h' := MarkDone(f, h1, 1, reader, now, snap);
  }

  /** What holds of every page that composes without error, whatever the owners answer. */
  predicate PageSound(f: CursorFrame, m: Merged) {
    && Working(f, m.heads) && |m.items| <= f.pageLimit && (f.selfConsumed ==> m.selfConsumed)
    && (m.scanPending ==> m.heads.calls == 3 && More(f, m))
    && (!m.scanPending && More(f, m) ==> |m.items| == f.pageLimit)
  }

  /** The page that is read, if any, is the one foreseen from the frame and its pages before the composition. */
  predicate RefillKnown(f: CursorFrame, h0: Heads, m: Merged, reader: Reader, now: int) {
    var start := Foresee(h0, SelfLeft(f), f.pageLimit);
    if start.None? then m.heads.calls == 2 && m.heads.pages == h0.pages
    else m.heads.calls == 3 && Fetched(h0, m.heads, start.value, reader, now)
  }

  lemma ForeseenEnds(f: CursorFrame, h0: Heads, m: Merged, closed: Heads, reader: Reader, now: int)
    requires StillForeseen(f, h0, m, reader, now) && closed.pages == m.heads.pages && closed.calls == m.heads.calls
    requires 2 <= m.heads.calls <= 3
    requires |m.items| >= f.pageLimit || NothingMissed(f, h0, Stop(m.scanPending, m.heads))
    ensures RefillKnown(f, h0, m.(heads := closed), reader, now)
  {
    hide Fetch;
  }

  /** Compose one page from the working state of a loaded frame. */
  method MergePage(f: CursorFrame, h0: Heads, reader: Reader, now: int, ghost snap: Snapshot)
    returns (out: Answer<Merged>)
    requires Working(f, h0) && 1 <= f.pageLimit
    ensures out.Ok? ==> PageSound(f, out.value)
    ensures out.Ok? && Honest(reader, now, snap) && BothOn(h0, snap) ==> Conserves(f, h0, out.value, snap)
    ensures Serving(f, reader, now, snap) && BothOn(h0, snap) ==> out.Ok?
    ensures out.Ok? && h0.calls == 2 ==> RefillKnown(f, h0, out.value, reader, now)
  {
    hide Working, Honest, ServingOwner, Conserves, BothOn, BothKept, StillForeseen, NothingMissed, RefillKnown;
    var m := Merged([], h0, f.selfConsumed, false);
    var stopped := false;
    ConservesStart(f, h0, snap);
    if h0.calls == 2 {
      ForeseenFromStart(f, h0, reader, now);
    }
    while |m.items| < f.pageLimit && !stopped
      invariant Working(f, m.heads) && |m.items| <= f.pageLimit && (f.selfConsumed ==> m.selfConsumed)
      invariant Honest(reader, now, snap) && BothOn(h0, snap) ==> Conserves(f, h0, m, snap)
      invariant h0.calls == 2 ==> StillForeseen(f, h0, m, reader, now)
      invariant h0.calls == 2 && stopped ==> NothingMissed(f, h0, Stop(m.scanPending, m.heads))
      invariant !stopped ==> !m.scanPending
      invariant stopped ==> StopsRightly(f, m, Stop(m.scanPending, m.heads))
      decreases f.pageLimit - |m.items|, !stopped
    {
      var turn := NextItem(f, m, reader, now, h0, snap);
      if turn.Err? {
        return Err(turn.error);
      }
      m, stopped := Extend(m, turn.value), turn.value.Stop?;
    }
    var closed := MarkBoth(f, m.heads, reader, now, snap);
    if Honest(reader, now, snap) && BothOn(h0, snap) {
      ConservesMeans(f, h0, m, snap, m.scanPending);
      ConservesRefresh(f, h0, m, closed, snap);
    }
    WorkingFacts(f, m.heads, 0);
    if h0.calls == 2 {
      ForeseenEnds(f, h0, m, closed, reader, now);
    }
    return Ok(m.(heads := closed));
  }

  lemma ForeseenFromStart(f: CursorFrame, h0: Heads, reader: Reader, now: int)
    requires h0.calls == 2
    ensures StillForeseen(f, h0, Merged([], h0, f.selfConsumed, false), reader, now)
  {
    hide Foreseen;
    ForeseenStart(f, h0, reader, now);
  }

  lemma ConservesStart(f: CursorFrame, h0: Heads, snap: Snapshot)
    ensures BothOn(h0, snap) ==> Conserves(f, h0, Merged([], h0, f.selfConsumed, false), snap)
  {
    hide OnSnapshot, OneShot;
    assert f.(selfConsumed := f.selfConsumed) == f;
  }
}
