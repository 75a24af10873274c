/** Owner snapshots: the fixed pages an owner serves, and what a position in them has left. */
module OwnerSnapshots {
  import opened IncidentOrder
  import opened IncidentMerge
  import opened CursorFrames
  import opened OwnerPages

  /** The governed owner call: a reply for an owner's cursor, or no answer. */
  type Reader = (string, Token) -> Answer<RawPage>

  function Fetch(reader: Reader, name: string, token: Token, now: int): Answer<OwnerPage> {
    var reply := reader(name, token);
    if reply.Err? then Err(Unavailable) else Decode(reply.value, name, now)
  }

  lemma FetchIsSound(reader: Reader, name: string, token: Token, now: int)
    ensures Fetch(reader, name, token, now).Ok? ==> SoundPage(Fetch(reader, name, token, now).value, name)
  {
    hide Decode, SoundPage;
    var reply := reader(name, token);
    if reply.Ok? {
      DecodeIsSound(reply.value, name, now);
    }
  }

  /** Page `k` is sound, belongs to the snapshot and names its successor. */
  predicate SoundAt(pages: seq<OwnerPage>, name: string, k: nat)
    requires k < |pages|
  {
    && SoundPage(pages[k], name) && pages[k].snapshot == pages[0].snapshot
    && pages[k].next == if k + 1 < |pages| then pages[k + 1].cursor else NoToken
  }

  predicate SoundSnapshot(pages: seq<OwnerPage>, name: string) {
    |pages| >= 1 && forall k :: 0 <= k < |pages| ==> SoundAt(pages, name, k)
  }

  type Snapshot = map<string, seq<OwnerPage>>

  /** Whenever the owner answers, it answers from the snapshot. */
  predicate HonestOwner(reader: Reader, now: int, pages: seq<OwnerPage>, name: string) {
    SoundSnapshot(pages, name) &&
    forall k :: 0 <= k < |pages| ==>
      Fetch(reader, name, pages[k].cursor, now).Ok? ==> Fetch(reader, name, pages[k].cursor, now).value == pages[k]
  }

  predicate Honest(reader: Reader, now: int, snap: Snapshot) {
    && GATEWAY in snap && HonestOwner(reader, now, snap[GATEWAY], GATEWAY)
    && INGESTION in snap && HonestOwner(reader, now, snap[INGESTION], INGESTION)
  }

  /** The position stands on its page of the snapshot, and is done only at the very end. */
  predicate At(p: OwnerPosition, pages: seq<OwnerPage>) {
    && 0 <= p.pageIndex < |pages| && 0 <= p.offset && SameOwnerPage(p, pages[p.pageIndex])
    && (p.done ==> p.offset == |pages[p.pageIndex].items| && p.pageIndex == |pages| - 1)
  }

  function Flat(pages: seq<OwnerPage>): seq<Incident> {
    if pages == [] then [] else pages[0].items + Flat(pages[1..])
  }

  /** The items a position has not emitted. */
  function Rest(p: OwnerPosition, pages: seq<OwnerPage>): seq<Incident>
    requires At(p, pages)
  {
    pages[p.pageIndex].items[p.offset..] + Flat(pages[p.pageIndex + 1..])
  }

  /** Items and pages not yet read. */
  function Unread(p: OwnerPosition, pages: seq<OwnerPage>): nat
    requires At(p, pages)
  {
    |Rest(p, pages)| + (|pages| - 1 - p.pageIndex)
  }

  /** The boundary before page `k` keeps priority order. */
  predicate BoundaryOrdered(page: OwnerPage, next: OwnerPage) {
    page.items != [] && next.items != [] ==> !Before(next.items[0], page.items[|page.items| - 1])
  }

  predicate OrderedTo(pages: seq<OwnerPage>, k: int) {
    forall j :: 0 < j <= k && j < |pages| ==> BoundaryOrdered(pages[j - 1], pages[j])
  }

  lemma {:induction false} FlatHead(pages: seq<OwnerPage>, name: string)
    requires |pages| > 0 && pages[0].items != []
    ensures Flat(pages) != [] && Flat(pages)[0] == pages[0].items[0]
  {
  }

  /** A snapshot whose boundaries are all in order is one sorted stream. */
  lemma {:induction false} OrderedFlat(pages: seq<OwnerPage>, name: string)
    requires SoundSnapshot(pages, name) && OrderedTo(pages, |pages| - 1)
    ensures Sorted(Flat(pages))
    decreases |pages|
  {
    hide Before;
    if |pages| == 1 {
      assert SoundAt(pages, name, 0);
      assert Flat(pages) == pages[0].items;
    } else {
      var tail := pages[1..];
      TailIsSound(pages, name);
      assert OrderedTo(tail, |tail| - 1) by {
        forall j | 0 < j <= |tail| - 1 && j < |tail| ensures BoundaryOrdered(tail[j - 1], tail[j]) {
          assert BoundaryOrdered(pages[j], pages[j + 1]);
        }
      }
      OrderedFlat(tail, name);
      assert BoundaryOrdered(pages[0], pages[1]);
      FirstPageFull(pages, name);
      SortedJoin(pages[0].items, Flat(tail));
    }
  }

  lemma TailIsSound(pages: seq<OwnerPage>, name: string)
    requires SoundSnapshot(pages, name) && |pages| > 1
    ensures SoundSnapshot(pages[1..], name)
  {
    hide SoundPage;
    var tail := pages[1..];
    forall k | 0 <= k < |tail| ensures SoundAt(tail, name, k) {
      assert SoundAt(pages, name, k + 1) && SoundAt(pages, name, 1);
    }
  }

  lemma InnerPageFull(pages: seq<OwnerPage>, name: string, k: nat)
    requires SoundSnapshot(pages, name) && k + 1 < |pages|
    ensures pages[k].next != NoToken && |pages[k].items| == 100 && Sorted(pages[k].items)
  {
    hide Sorted, AllOf;
    assert SoundAt(pages, name, k) && SoundAt(pages, name, k + 1);
  }

  /** A page with a successor is full, so only the last page can be empty and joins line up. */
  lemma FirstPageFull(pages: seq<OwnerPage>, name: string)
    requires SoundSnapshot(pages, name) && |pages| > 1 && BoundaryOrdered(pages[0], pages[1])
    ensures Sorted(pages[0].items) && pages[0].items != []
    ensures Flat(pages[1..]) != [] ==> !Before(Flat(pages[1..])[0], pages[0].items[|pages[0].items| - 1])
  {
    hide Before;
    var tail := pages[1..];
    InnerPageFull(pages, name, 0);
    if |pages| > 2 {
      InnerPageFull(pages, name, 1);
    }
    if pages[1].items == [] {
      assert tail == [pages[1]];
      assert Flat(tail[1..]) == [];
    } else {
      FlatHead(tail, name);
    }
  }

  lemma {:induction false} FlatOwned(pages: seq<OwnerPage>, name: string)
    requires forall k :: 0 <= k < |pages| ==> SoundPage(pages[k], name)
    ensures AllOf(Flat(pages), name)
  {
    if pages != [] {
      FlatOwned(pages[1..], name);
      assert SoundPage(pages[0], name);
    }
  }

  // ---- Moving a position.

  /** One item further. */
  lemma RestAdvances(p: OwnerPosition, pages: seq<OwnerPage>)
    requires At(p, pages) && p.offset < |pages[p.pageIndex].items|
    ensures var p' := p.(offset := p.offset + 1);
            At(p', pages) && Rest(p, pages) == [pages[p.pageIndex].items[p.offset]] + Rest(p', pages)
  {
  }

  /** One page further, from the end of a page. */
  lemma RestRefills(p: OwnerPosition, pages: seq<OwnerPage>, p': OwnerPosition)
    requires At(p, pages) && p.offset == |pages[p.pageIndex].items| && p.pageIndex + 1 < |pages|
    requires p' == PositionOf(pages[p.pageIndex + 1], p.name, p.pageIndex + 1)
    ensures At(p', pages) && Rest(p', pages) == Rest(p, pages) && Unread(p', pages) == Unread(p, pages) - 1
  {
    var tail := pages[p.pageIndex + 1..];
    assert tail[1..] == pages[p'.pageIndex + 1..];
  }

  lemma RestEnds(p: OwnerPosition, pages: seq<OwnerPage>)
    requires At(p, pages) && p.offset == |pages[p.pageIndex].items| && p.pageIndex == |pages| - 1
    ensures Rest(p, pages) == [] && At(p.(done := true), pages) && Rest(p.(done := true), pages) == []
    ensures Unread(p.(done := true), pages) == Unread(p, pages) == 0
  {
  }
}
