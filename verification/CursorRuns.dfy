/** Following a cursor from its first page to its last. */
module CursorRuns {
  import opened Options
  import opened IncidentOrder
  import opened IncidentMerge
  import opened CursorFrames
  import opened OwnerPages
  import opened OwnerSnapshots
  import opened CursorComposer

  // ---- Frames and working states.

  /** The owner pages read back for a frame, each matching its position. */
  predicate Readback(f: CursorFrame, pages: map<string, OwnerPage>) {
    |f.owners| == 2 &&
    forall i :: 0 <= i < 2 ==>
      && f.owners[i].name in pages && SoundPage(pages[f.owners[i].name], f.owners[i].name)
      && SameOwnerPage(f.owners[i], pages[f.owners[i].name])
      && (f.coverage ==> ValidPublicationPage(pages[f.owners[i].name], f, f.owners[i].name))
  }

  function Opening(f: CursorFrame, pages: map<string, OwnerPage>): Heads { Heads(f.owners, pages, 2) }

  /** A valid frame with its pages read back is a state to compose from. */
  lemma ReadbackWorks(f: CursorFrame, pages: map<string, OwnerPage>)
    requires ValidFrame(f) && Readback(f, pages)
    ensures Working(f, Opening(f, pages))
  {
    hide SoundPage, ValidPublicationPage, SameOwnerPage, ValidDigest, ValidQuery, PublicationFilters, CanonicalVector;
    var h := Opening(f, pages);
    forall i | 0 <= i < 2 ensures Tracks(f, h, i) {
    }
  }

  function NextFrame(f: CursorFrame, m: Merged): CursorFrame {
    FrameAfter(f, m).(pageNumber := f.pageNumber + 1)
  }

  predicate NoBookmarks(owners: seq<OwnerPosition>) {
    forall i :: 0 <= i < |owners| ==> owners[i].bookmark == NoToken && owners[i].parent == NoToken
  }

  lemma ScopeKept(f: CursorFrame, m: Merged)
    requires Working(f, m.heads) && (f.selfConsumed ==> m.selfConsumed)
    ensures SameCursorScope(f, NextFrame(f, m))
  {
    hide SoundPage, ValidPublicationPage, ValidOwnerCoverage, SameOwnerPage, ValidPosition, SameOwnerScope;
    var owners := m.heads.owners;
    assert owners[..1] == [owners[0]] && owners[..1][..0] == [];
    assert OwnerFound(f.owners[1], owners);
    assert OwnerFound(f.owners[0], owners[..1]);
  }

  lemma CaptureKept(f: CursorFrame, m: Merged)
    requires ValidFrame(f) && Working(f, m.heads)
    ensures ValidCapture(NextFrame(f, m)) <==> f.coverage || NoBookmarks(m.heads.owners)
  {
    hide SoundPage, ValidPublicationPage, SameOwnerPage, ValidPosition, SameOwnerScope, ValidQuery, PublicationFilters,
      CanonicalVector;
    var next := NextFrame(f, m);
    forall i | 0 <= i < 2 && f.coverage ensures ValidOwnerCoverage(next, next.owners[i]) {
      assert OwnerParent(next, next.owners[i].name) == OwnerParent(f, next.owners[i].name);
    }
  }

  /** Composing from these pages will read an owner's next page, and that owner answers with a publication bookmark or
      parent. All of it can be told before composing. */
  predicate BookmarkServed(f: CursorFrame, pages: map<string, OwnerPage>, reader: Reader, now: int) {
    var first := Foresee(Opening(f, pages), SelfLeft(f), f.pageLimit);
    first.Some? && first.value < |f.owners| && f.owners[first.value].name in pages &&
    var name := f.owners[first.value].name;
    var answer := Fetch(reader, name, pages[name].next, now);
    answer.Ok? && (answer.value.bookmark != NoToken || answer.value.parent != NoToken)
  }

  lemma OwnerOfPage(f: CursorFrame, m: Merged, i: nat)
    requires Working(f, m.heads) && i < 2
    ensures |f.owners| == |m.heads.owners| == 2 && f.owners[i].name == m.heads.owners[i].name &&
            f.owners[i].name in m.heads.pages
    ensures m.heads.owners[i].bookmark == m.heads.pages[f.owners[i].name].bookmark
    ensures m.heads.owners[i].parent == m.heads.pages[f.owners[i].name].parent
  {
    hide SoundPage, ValidPublicationPage, ValidOwnerCoverage, ValidPosition, SameOwnerScope;
  }

  lemma PlainReadback(f: CursorFrame, pages: map<string, OwnerPage>, i: nat)
    requires ValidFrame(f) && !f.coverage && Readback(f, pages) && i < 2
    ensures pages[f.owners[i].name].bookmark == NoToken && pages[f.owners[i].name].parent == NoToken
  {
    hide SoundPage, ValidQuery, ValidPosition;
  }

  /** A plain page ends on bookmarks exactly when the page it refilled carries one. */
  lemma BookmarksAreServed(f: CursorFrame, pages: map<string, OwnerPage>, m: Merged, reader: Reader, now: int)
    requires ValidFrame(f) && !f.coverage && Readback(f, pages) && Working(f, m.heads)
    requires RefillKnown(f, Opening(f, pages), m, reader, now)
    ensures NoBookmarks(m.heads.owners) <==> !BookmarkServed(f, pages, reader, now)
  {
    hide ValidFrame, Working, Foresee, Fetch, SelfLeft, SoundPage, SameOwnerPage;
    OwnerOfPage(f, m, 0);
    OwnerOfPage(f, m, 1);
    PlainReadback(f, pages, 0);
    PlainReadback(f, pages, 1);
  }

  /** A continuation composed from a valid frame is in scope, and valid unless a plain read was about to be served a
      publication bookmark. */
  lemma ContinuationAccepted(f: CursorFrame, pages: map<string, OwnerPage>, m: Merged, reader: Reader, now: int)
    requires ValidFrame(f) && Readback(f, pages) && f.pageNumber < 200
    requires PageSound(f, m) && RefillKnown(f, Opening(f, pages), m, reader, now)
    ensures SameCursorScope(f, NextFrame(f, m))
    ensures ValidFrame(NextFrame(f, m)) <==> f.coverage || !BookmarkServed(f, pages, reader, now)
  {
    hide SoundPage, ValidPublicationPage, ValidOwnerCoverage, SameOwnerPage, ValidPosition, SameOwnerScope,
      ValidCapture, ValidQuery, SameCursorScope, More, OwnerFound, BookmarkServed, RefillKnown, NoBookmarks, Readback;
    ScopeKept(f, m);
    CaptureKept(f, m);
    if !f.coverage {
      BookmarksAreServed(f, pages, m, reader, now);
    }
  }

  // ---- What a frame has left.

  /** Owner `i` of a frame stands in the snapshot, with every boundary it crossed in order. */
  predicate OwnerOn(f: CursorFrame, snap: Snapshot, i: int) {
    && 0 <= i < |f.owners| && f.owners[i].name in snap && At(f.owners[i], snap[f.owners[i].name])
    && OrderedTo(snap[f.owners[i].name], f.owners[i].pageIndex)
  }

  predicate FrameOn(f: CursorFrame, snap: Snapshot) { |f.owners| == 2 && OwnerOn(f, snap, 0) && OwnerOn(f, snap, 1) }

  function OwnerLeft(f: CursorFrame, snap: Snapshot, i: int): seq<Incident>
    requires OwnerOn(f, snap, i)
  {
    Rest(f.owners[i], snap[f.owners[i].name])
  }

  function Left(f: CursorFrame, snap: Snapshot): seq<Incident>
    requires FrameOn(f, snap)
  {
    OneShot(OwnerLeft(f, snap, 0), OwnerLeft(f, snap, 1), SelfLeft(f))
  }

  /** Unread items, unread owner pages and the unemitted own incident. */
  function Measure(f: CursorFrame, snap: Snapshot): nat
    requires FrameOn(f, snap)
  {
    Unread(f.owners[0], snap[f.owners[0].name]) + Unread(f.owners[1], snap[f.owners[1].name]) + |AsSeq(SelfLeft(f))|
  }

  /** One composed page of a run over the snapshot. */
  predicate Composes(f: CursorFrame, m: Merged, snap: Snapshot) {
    && PageSound(f, m) && FrameOn(f, snap) && FrameOn(FrameAfter(f, m), snap)
    && Left(f, snap) == m.items + Left(FrameAfter(f, m), snap)
    && Measure(f, snap) == |m.items| + Measure(FrameAfter(f, m), snap) + (m.heads.calls - 2)
  }

  /** What the composer's page does to the frame. */
  lemma PageComposes(f: CursorFrame, pages: map<string, OwnerPage>, m: Merged, snap: Snapshot)
    requires PageSound(f, m) && BothOn(Opening(f, pages), snap) && Conserves(f, Opening(f, pages), m, snap)
    ensures Composes(f, m, snap)
  {
    hide OneShot, At, Rest, Unread, OrderedTo, Tracks, More;
    WorkingFacts(f, m.heads, 0);
    var h0, f' := Opening(f, pages), FrameAfter(f, m);
    assert OnSnapshot(h0, snap, 0) && OnSnapshot(h0, snap, 1);
    assert OnSnapshot(m.heads, snap, 0) && OnSnapshot(m.heads, snap, 1);
    assert SelfLeft(f') == SelfAt(f, m.selfConsumed);
  }

  /** A page with a continuation reads or emits something, and one without items has just refilled. */
  lemma EveryPageProgresses(f: CursorFrame, m: Merged, snap: Snapshot)
    requires Composes(f, m, snap) && More(f, m) && 1 <= f.pageLimit
    ensures FrameOn(NextFrame(f, m), snap) && Measure(NextFrame(f, m), snap) < Measure(f, snap)
    ensures m.heads.calls <= 3 && (m.items == [] ==> m.heads.calls == 3)
  {
    hide OneShot, Rest, Unread, At, OrderedTo, More, Tracks;
  }

  /** Without a continuation nothing is left. */
  lemma NoMoreMeansNothingLeft(f: CursorFrame, m: Merged, snap: Snapshot)
    requires Composes(f, m, snap) && !More(f, m)
    ensures Left(FrameAfter(f, m), snap) == [] && Measure(FrameAfter(f, m), snap) == 0
  {
    hide Rest, Unread, At, OrderedTo, Tracks, Before;
    var f' := FrameAfter(f, m);
    forall i | 0 <= i < 2
      ensures OwnerLeft(f', snap, i) == [] && Unread(f'.owners[i], snap[f'.owners[i].name]) == 0
    {
      DoneIsEmpty(f'.owners[i], snap[f'.owners[i].name]);
    }
  }

  lemma DoneIsEmpty(p: OwnerPosition, pages: seq<OwnerPage>)
    requires At(p, pages) && p.done
    ensures Rest(p, pages) == [] && Unread(p, pages) == 0
  {
    RestEnds(p, pages);
  }

  // ---- Whole runs.

  datatype Visit = Visit(frame: CursorFrame, page: Merged)

  /** Pages followed one by one, each from the continuation of the one before; only the last has none. */
  predicate Followed(visits: seq<Visit>, snap: Snapshot) {
    && |visits| > 0
    && (forall i :: 0 <= i < |visits| ==>
          1 <= visits[i].frame.pageLimit && Composes(visits[i].frame, visits[i].page, snap))
    && (forall i :: 0 <= i < |visits| - 1 ==>
          More(visits[i].frame, visits[i].page) && visits[i + 1].frame == NextFrame(visits[i].frame, visits[i].page))
    && !More(visits[|visits| - 1].frame, visits[|visits| - 1].page)
  }

  function ItemsOf(visits: seq<Visit>): seq<Incident> {
    if visits == [] then [] else visits[0].page.items + ItemsOf(visits[1..])
  }

  lemma FollowedTail(visits: seq<Visit>, snap: Snapshot)
    requires Followed(visits, snap) && |visits| > 1
    ensures Followed(visits[1..], snap) && visits[1..][0].frame == NextFrame(visits[0].frame, visits[0].page)
  {
    hide Composes, More;
    var tail := visits[1..];
    assert forall i :: 0 <= i < |tail| ==> tail[i] == visits[i + 1];
    forall i | 0 <= i < |tail| - 1
      ensures More(tail[i].frame, tail[i].page) && tail[i + 1].frame == NextFrame(tail[i].frame, tail[i].page)
    {
      assert visits[i + 1 + 1].frame == NextFrame(visits[i + 1].frame, visits[i + 1].page);
    }
  }

  lemma NextLeft(f: CursorFrame, m: Merged, snap: Snapshot)
    requires Composes(f, m, snap)
    ensures FrameOn(NextFrame(f, m), snap) && Left(NextFrame(f, m), snap) == Left(FrameAfter(f, m), snap)
    ensures Measure(NextFrame(f, m), snap) == Measure(FrameAfter(f, m), snap)
  {
    hide OneShot, Rest, Unread, At, OrderedTo, PageSound;
  }

  /** Whatever the page limit and wherever refills break pages, a followed cursor emits the one-shot merge, in at most
      as many pages as there is left to read. */
  lemma {:induction false} FollowingIsOneShot(visits: seq<Visit>, snap: Snapshot)
    requires Followed(visits, snap)
    ensures FrameOn(visits[0].frame, snap) && ItemsOf(visits) == Left(visits[0].frame, snap)
    ensures |visits| <= Measure(visits[0].frame, snap) + 1
    ensures FrameOn(FrameAfter(visits[|visits| - 1].frame, visits[|visits| - 1].page), snap)
    decreases |visits|
  {
    hide Left, Measure, FrameOn, PageSound, More;
    var f, m := visits[0].frame, visits[0].page;
    assert Composes(f, m, snap);
    if |visits| == 1 {
      NoMoreMeansNothingLeft(f, m, snap);
      assert ItemsOf(visits[1..]) == [];
    } else {
      assert More(f, m);
      FollowedTail(visits, snap);
      FollowingIsOneShot(visits[1..], snap);
      NextLeft(f, m, snap);
      EveryPageProgresses(f, m, snap);
      assert visits[1..][|visits| - 2] == visits[|visits| - 1];
    }
  }

  lemma {:induction false} NamesKept(visits: seq<Visit>, snap: Snapshot, i: nat)
    requires Followed(visits, snap) && i < 2
    ensures var last := visits[|visits| - 1];
            |visits[0].frame.owners| == |last.page.heads.owners| == 2 &&
            last.page.heads.owners[i].name == visits[0].frame.owners[i].name
    decreases |visits|
  {
    hide Left, Measure, FrameOn, More;
    assert Composes(visits[0].frame, visits[0].page, snap);
    if |visits| > 1 {
      FollowedTail(visits, snap);
      NamesKept(visits[1..], snap, i);
      assert visits[1..][|visits| - 2] == visits[|visits| - 1];
    }
  }

  /** A run that ended crossed every page boundary, so the owner's whole stream is in order. */
  lemma WholeStreamSorted(visits: seq<Visit>, snap: Snapshot, i: nat)
    requires Followed(visits, snap) && i < 2 && |visits[0].frame.owners| == 2
    requires visits[0].frame.owners[i].name in snap
    requires SoundSnapshot(snap[visits[0].frame.owners[i].name], visits[0].frame.owners[i].name)
    ensures Sorted(Flat(snap[visits[0].frame.owners[i].name]))
  {
    hide Left, Measure, Rest, Unread, SoundSnapshot, Flat, Sorted;
    var last := visits[|visits| - 1];
    NamesKept(visits, snap, i);
    assert Composes(last.frame, last.page, snap);
    assert last.page.heads.owners[i].done;
    assert OwnerOn(FrameAfter(last.frame, last.page), snap, i);
    OrderedFlat(snap[visits[0].frame.owners[i].name], visits[0].frame.owners[i].name);
  }

  /** The frame a fresh read starts from: both owners at the start of their first page. */
  predicate StartFrame(f: CursorFrame, snap: Snapshot) {
    && GATEWAY in snap && SoundSnapshot(snap[GATEWAY], GATEWAY) && INGESTION in snap &&
       SoundSnapshot(snap[INGESTION], INGESTION)
    && f.owners == [PositionOf(snap[GATEWAY][0], GATEWAY, 0), PositionOf(snap[INGESTION][0], INGESTION, 0)]
    && !f.selfConsumed
  }

  lemma WholeStreamLeft(name: string, pages: seq<OwnerPage>)
    requires |pages| > 0
    ensures At(PositionOf(pages[0], name, 0), pages) && Rest(PositionOf(pages[0], name, 0), pages) == Flat(pages)
  {
  }

  lemma StreamOwned(pages: seq<OwnerPage>, name: string)
    requires SoundSnapshot(pages, name)
    ensures AllOf(Flat(pages), name)
  {
    hide SoundPage, Flat;
    forall k | 0 <= k < |pages| ensures SoundPage(pages[k], name) {
      assert SoundAt(pages, name, k);
    }
    FlatOwned(pages, name);
  }

  lemma StartLeft(f: CursorFrame, snap: Snapshot)
    requires StartFrame(f, snap) && FrameOn(f, snap)
    ensures Left(f, snap) == OneShot(Flat(snap[GATEWAY]), Flat(snap[INGESTION]), SelfLeft(f))
  {
    hide OneShot, Flat, SoundSnapshot, At, Rest, OrderedTo;
    NonEmpty(snap[GATEWAY], GATEWAY);
    NonEmpty(snap[INGESTION], INGESTION);
    WholeStreamLeft(GATEWAY, snap[GATEWAY]);
    WholeStreamLeft(INGESTION, snap[INGESTION]);
  }

  /** The sorted interleaving of both owners and the own incident, complete and without repetition. */
  predicate Interleaves(all: seq<Incident>, a: seq<Incident>, b: seq<Incident>, self: Option<Incident>) {
    && multiset(all) == multiset(a) + multiset(b) + multiset(AsSeq(self)) && Sorted(all)
    && OfModule(all, GATEWAY) == a && OfModule(all, INGESTION) == b
  }

  lemma OneShotInterleaves(a: seq<Incident>, b: seq<Incident>, f: CursorFrame)
    requires Sorted(a) && Sorted(b) && AllOf(a, GATEWAY) && AllOf(b, INGESTION)
    ensures Interleaves(OneShot(a, b, SelfLeft(f)), a, b, SelfLeft(f))
  {
    hide OneShot, Sorted, OfModule, AllOf;
    MergeIsComplete(a, b, SelfLeft(f));
    MergeIsSorted(a, b, SelfLeft(f));
    MergeKeepsOwners(a, b, SelfLeft(f), GATEWAY, INGESTION);
  }

  /** A read followed from its start to its end without error emits every owner item and the own incident exactly
      once, in priority order, each owner's items in the owner's order: the one-shot merge of the two streams. */
  lemma PagingIsOneShot(visits: seq<Visit>, snap: Snapshot)
    requires |visits| > 0 && Followed(visits, snap) && StartFrame(visits[0].frame, snap)
    ensures var a, b, self := Flat(snap[GATEWAY]), Flat(snap[INGESTION]), SelfLeft(visits[0].frame);
            ItemsOf(visits) == OneShot(a, b, self) && Interleaves(ItemsOf(visits), a, b, self)
  {
    hide Followed, OneShot, Flat, SoundSnapshot, Sorted, Interleaves, FrameOn, Left, Measure, SelfLeft;
    FollowingIsOneShot(visits, snap);
    StartLeft(visits[0].frame, snap);
    WholeStreamSorted(visits, snap, 0);
    WholeStreamSorted(visits, snap, 1);
    StreamOwned(snap[GATEWAY], GATEWAY);
    StreamOwned(snap[INGESTION], INGESTION);
    OneShotInterleaves(Flat(snap[GATEWAY]), Flat(snap[INGESTION]), visits[0].frame);
  }

  lemma NonEmpty(pages: seq<OwnerPage>, name: string)
    requires SoundSnapshot(pages, name)
    ensures |pages| > 0
  {
  }
}
