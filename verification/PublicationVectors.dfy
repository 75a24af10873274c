/** The vector a finished publication read is stored as, and why it continues the bookmark it resumed from. */
module PublicationVectors {
  import opened Options
  import opened CursorFrames
  import opened OwnerPages
  import opened CursorComposer
  import opened CursorRuns

  function PositionFor(p: OwnerPosition): PublicationPosition {
    PublicationPosition(p.name, p.bookmark, p.parent, p.snapshot, p.digest)
  }

  /** Both owners' final positions, the gateway first. */
  function VectorOf(f: CursorFrame): PublicationVector
    requires |f.owners| == 2
  {
    var a, b := PositionFor(f.owners[0]), PositionFor(f.owners[1]);
    PublicationVector(VECTOR_PROFILE, f.filters, if a.name == GATEWAY then [a, b] else [b, a])
  }

  /** Every owner is done with a bookmark. */
  predicate Finished(f: CursorFrame) {
    forall i :: 0 <= i < |f.owners| ==> f.owners[i].done && f.owners[i].bookmark != NoToken
  }

  /** Collect the final positions by owner name; refuse an unfinished owner. */
  method CollectPositions(f: CursorFrame) returns (out: Answer<seq<PublicationPosition>>)
    requires ValidFrame(f)
    ensures out.Ok? <==> Finished(f)
    ensures out.Ok? ==> out.value == VectorOf(f).owners
    ensures out.Err? ==> out.error == Conflict
  {
    hide ValidDigest, ValidCapture, ValidQuery;
    var names := [GATEWAY, INGESTION];
    var positions := [];
    for n := 0 to 2
      invariant forall i :: 0 <= i < 2 && f.owners[i].name in names[..n] ==>
                  f.owners[i].done && f.owners[i].bookmark != NoToken
      invariant n == 0 ==> positions == []
      invariant n > 0 ==> |positions| == n && positions == VectorOf(f).owners[..n]
    {
      for i := 0 to 2
        invariant forall j :: 0 <= j < 2 && f.owners[j].name in names[..n] ==>
                    f.owners[j].done && f.owners[j].bookmark != NoToken
        invariant forall j :: 0 <= j < i && f.owners[j].name == names[n] ==>
                    f.owners[j].done && f.owners[j].bookmark != NoToken
        invariant positions ==
                  if exists j :: 0 <= j < i && f.owners[j].name == names[n] then VectorOf(f).owners[..n + 1]
                  else VectorOf(f).owners[..n]
      {
        if f.owners[i].name == names[n] {
          if !f.owners[i].done || f.owners[i].bookmark == NoToken {
            return Err(Conflict);
          }
          positions := positions + [PositionFor(f.owners[i])];
        }
      }
    }
    assert names[..2] == names && GATEWAY == names[0] && INGESTION == names[1];
    assert VectorOf(f).owners[..2] == VectorOf(f).owners;
    return Ok(positions);
  }

  /** The frame a finished page ends in is still valid. */
  lemma AfterIsValid(f: CursorFrame, m: Merged)
    requires ValidFrame(f) && PageSound(f, m) && f.coverage
    ensures ValidFrame(FrameAfter(f, m))
  {
    hide SoundPage, ValidPublicationPage, SameOwnerPage, SameOwnerScope, ValidQuery, ValidPosition, ValidCapture, More;
    CaptureKept(f, m);
    SameCapture(FrameAfter(f, m), NextFrame(f, m));
  }

  lemma SameCapture(a: CursorFrame, b: CursorFrame)
    requires b == a.(pageNumber := b.pageNumber)
    ensures ValidCapture(a) <==> ValidCapture(b)
  {
    hide CanonicalVector, PublicationFilters;
    forall i | 0 <= i < |a.owners| ensures ValidOwnerCoverage(a, a.owners[i]) <==> ValidOwnerCoverage(b, b.owners[i]) {
    }
  }

  lemma FinalPosition(f: CursorFrame, m: Merged, i: nat)
    requires Working(f, m.heads) && f.coverage && i < 2 && m.heads.owners[i].done
    requires f.base.Some? ==> CanonicalVector(f.base.value)
    ensures var p := PositionFor(m.heads.owners[i]);
            && CanonicalToken(p.bookmark) && CanonicalToken(p.snapshot) && ValidDigest(p.digest)
            && p.parent == OwnerParent(f, p.name) && (p.name == GATEWAY || p.name == INGESTION)
  {
    hide SoundPage, SameOwnerScope, PublicationFilters, CanonicalVector;
  }

  lemma BaseBookmarks(v: PublicationVector, f: CursorFrame)
    requires CanonicalVector(v) && f.base == Some(v)
    ensures OwnerParent(f, GATEWAY) == v.owners[0].bookmark && OwnerParent(f, INGESTION) == v.owners[1].bookmark
  {
    hide CanonicalPosition, PublicationFilters;
    assert |GATEWAY| != |INGESTION|;
    assert BookmarkOf(v.owners, INGESTION) == BookmarkOf(v.owners[1..], INGESTION);
  }

  /** When nothing more is to come, the vector is canonical and continues the resumed bookmark, or starts a fresh
      chain. */
  lemma FinalVectorFits(f: CursorFrame, m: Merged)
    requires ValidFrame(f) && PageSound(f, m) && f.coverage && !More(f, m)
    ensures var f' := FrameAfter(f, m);
            && |f'.owners| == 2 && Finished(f') && CanonicalVector(VectorOf(f'))
            && (f.base.Some? ==> VectorLineage(f.base.value, VectorOf(f')))
            && (f.base.None? ==> VectorOf(f').owners[0].parent == VectorOf(f').owners[1].parent == NoToken)
  {
    hide Tracks, ValidDigest, ValidQuery, ValidPosition, PublicationFilters, CanonicalVector, SelfLeft;
    var owners := m.heads.owners;
    WorkingFacts(f, m.heads, 0);
    WorkingFacts(f, m.heads, 1);
    FinalPosition(f, m, 0);
    FinalPosition(f, m, 1);
    if f.base.Some? {
      BaseBookmarks(f.base.value, f);
    }
    FinalVectorCanonical(f, owners);
  }

  lemma FinalVectorCanonical(f: CursorFrame, owners: seq<OwnerPosition>)
    requires |owners| == 2 && owners[0].name != owners[1].name && PublicationFilters(f.filters)
    requires f.base.Some? ==> CanonicalVector(f.base.value) && f.filters == f.base.value.filters
    requires forall i :: 0 <= i < 2 ==>
               && (owners[i].name == GATEWAY || owners[i].name == INGESTION) && CanonicalToken(owners[i].bookmark)
               && CanonicalToken(owners[i].snapshot) && ValidDigest(owners[i].digest) &&
                  owners[i].parent == OwnerParent(f, owners[i].name)
    ensures CanonicalVector(VectorOf(f.(owners := owners)))
    ensures f.base.Some? ==> VectorLineage(f.base.value, VectorOf(f.(owners := owners)))
  {
    hide ValidDigest, PublicationFilters;
    if f.base.Some? {
      BaseBookmarks(f.base.value, f);
    }
  }
}
