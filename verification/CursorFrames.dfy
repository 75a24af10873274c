/** Cursor frames: where a paged read of the two owners stands, and which frames the store accepts. */
module CursorFrames {
  import opened Options
  import opened IncidentOrder

  datatype CursorError = Unavailable | Conflict | NotFound | Expired | Capacity
  datatype Answer<+T> = Ok(value: T) | Err(error: CursorError)

  /** Token text: absent, not a uuid, or a uuid in some spelling; spelling 0 is the canonical one and id 0 the nil
      uuid. */
  datatype Token = NoToken | Malformed | Token(id: nat, spelling: nat)

  predicate ValidToken(t: Token) { t.Token? && t.id != 0 }
  predicate CanonicalToken(t: Token) { ValidToken(t) && t.spelling == 0 }

  predicate ValidDigest(d: string) {
    |d| == 64 && forall i :: 0 <= i < |d| ==> '0' <= d[i] <= '9' || 'a' <= d[i] <= 'f'
  }

  predicate ValidStatus(status: string) {
    status == "HEALTHY" || status == "RECOVERING" || status == "DEGRADED"
  }

  /** The decoded query filters. A `since` filter is the instant it parses to. */
  datatype Filters = Filters(source: Option<string>, state: Option<string>, since: Option<int>)

  predicate ValidState(state: string) { state == "OPEN" || state == "RECOVERING" || state == "RESOLVED" }

  predicate ValidQuery(f: Filters) {
    && (f.source.Some? ==> 1 <= |f.source.value| <= 200)
    && (f.state.Some? ==> ValidState(f.state.value))
  }

  predicate IsSpace(c: char) {
    c in {' ', '\t', '\n', '\U{B}', '\U{C}', '\r', '\U{85}', '\U{A0}', '\U{1680}', '\U{2028}', '\U{2029}', '\U{202F}',
          '\U{205F}', '\U{3000}'}
    || '\U{2000}' <= c <= '\U{200A}'
  }

  predicate Blank(text: string) { forall i :: 0 <= i < |text| ==> IsSpace(text[i]) }

  /** Publication filters name a source and a state only. */
  predicate PublicationFilters(f: Filters) {
    && (f.source.Some? ==> !Blank(f.source.value) && |f.source.value| <= 200)
    && (f.state.Some? ==> ValidState(f.state.value))
    && f.since.None?
  }

  // ---- Owners.

  const GATEWAY := "GATEWAY"
  const INGESTION := "INGESTION"

  /** A decoded owner page. A digest over items is modelled by the items, as digests do not collide. */
  datatype OwnerPage = OwnerPage(
    items: seq<Incident>, cursor: Token, next: Token, snapshot: Token, digest: string,
    profile: string, bookmark: Token, parent: Token, noProgress: Option<bool>)

  datatype OwnerPosition = OwnerPosition(
    name: string, cursor: Token, offset: int, pageIndex: int, items: seq<Incident>, digest: string, snapshot: Token,
    done: bool, bookmark: Token, parent: Token)

  /** The position at the start of a page. */
  function PositionOf(page: OwnerPage, name: string, index: int): OwnerPosition {
    OwnerPosition(name, page.cursor, 0, index, page.items, page.digest, page.snapshot, false, page.bookmark,
                  page.parent)
  }

  /** A page read again is the page the position was taken on. */
  predicate SameOwnerPage(p: OwnerPosition, page: OwnerPage) {
    && p.cursor == page.cursor && p.snapshot == page.snapshot && p.items == page.items && p.digest == page.digest
    && p.offset <= |page.items| && p.bookmark == page.bookmark && p.parent == page.parent
  }

  // ---- Publication vectors.

  const VECTOR_PROFILE := "ouf.operational-publication-vector.v1"
  const BOOKMARK_PROFILE := "ouf.owner-publication-bookmark.v1"

  datatype PublicationPosition = PublicationPosition(name: string, bookmark: Token, parent: Token, snapshot: Token,
                                                     digest: string)
  datatype PublicationVector = PublicationVector(profile: string, filters: Filters, owners: seq<PublicationPosition>)

  predicate CanonicalPosition(p: PublicationPosition) {
    CanonicalToken(p.bookmark) && CanonicalToken(p.snapshot) && (p.parent != NoToken ==> CanonicalToken(p.parent)) &&
    ValidDigest(p.digest)
  }

  /** The vectors that have a canonical encoding. */
  predicate CanonicalVector(v: PublicationVector) {
    && v.profile == VECTOR_PROFILE && |v.owners| == 2 && v.owners[0].name == GATEWAY && v.owners[1].name == INGESTION
    && PublicationFilters(v.filters) && CanonicalPosition(v.owners[0]) && CanonicalPosition(v.owners[1])
  }

  /** `next` continues `previous`: same filters, and each owner's parent is the previous bookmark. */
  predicate VectorLineage(previous: PublicationVector, next: PublicationVector) {
    && CanonicalVector(previous) && CanonicalVector(next) && previous.filters == next.filters
    && next.owners[0].parent == previous.owners[0].bookmark && next.owners[1].parent == previous.owners[1].bookmark
  }

  predicate SameBoundaries(previous: PublicationVector, next: PublicationVector) {
    && VectorLineage(previous, next)
    && previous.owners[0].bookmark == next.owners[0].bookmark && previous.owners[1].bookmark == next.owners[1].bookmark
  }

  // ---- Frames.

  const CURSOR_PROFILE := "ouf.operational-owner-vector.v1"

  datatype CursorFrame = CursorFrame(
    profile: string, filters: Filters, owners: seq<OwnerPosition>, pageLimit: int, pageNumber: int,
    selfStatus: string, selfAction: bool, selfConsumed: bool, partial: bool,
    coverage: bool, parent: Option<nat>, base: Option<PublicationVector>)

  /** The bookmark an owner must continue: its position in the resumed vector, if any. */
  function OwnerParent(frame: CursorFrame, name: string): Token {
    if frame.base.None? then NoToken else BookmarkOf(frame.base.value.owners, name)
  }

  function BookmarkOf(owners: seq<PublicationPosition>, name: string): Token {
    if owners == [] then NoToken
    else if owners[0].name == name then owners[0].bookmark
    else BookmarkOf(owners[1..], name)
  }

  predicate ValidOwnerCoverage(frame: CursorFrame, p: OwnerPosition) {
    if p.bookmark != NoToken then CanonicalToken(p.bookmark) && p.parent == OwnerParent(frame, p.name)
    else !p.done && p.parent == NoToken
  }

  predicate ValidCapture(frame: CursorFrame) {
    if !frame.coverage then
      && frame.parent.None? && frame.base.None?
      && forall i :: 0 <= i < |frame.owners| ==>
           frame.owners[i].bookmark == NoToken && frame.owners[i].parent == NoToken
    else
      && PublicationFilters(frame.filters)
      && (frame.parent.None? <==> frame.base.None?)
      && (frame.parent.Some? ==>
            frame.parent.value != 0 && CanonicalVector(frame.base.value) && frame.filters == frame.base.value.filters)
      && forall i :: 0 <= i < |frame.owners| ==> ValidOwnerCoverage(frame, frame.owners[i])
  }

  predicate ValidPosition(p: OwnerPosition) {
    && (p.name == GATEWAY || p.name == INGESTION)
    && 0 <= p.offset <= 100 && 0 <= p.pageIndex <= 200
    && ValidDigest(p.digest) && ValidToken(p.cursor) && ValidToken(p.snapshot)
  }

  predicate ValidFrame(frame: CursorFrame) {
    && frame.profile == CURSOR_PROFILE && 1 <= frame.pageLimit <= 100 && 0 <= frame.pageNumber <= 200
    && ValidStatus(frame.selfStatus) && |frame.owners| == 2
    && ValidQuery(frame.filters) && ValidCapture(frame)
    && ValidPosition(frame.owners[0]) && ValidPosition(frame.owners[1]) && frame.owners[0].name != frame.owners[1].name
  }

  /** One owner's position moved forward at most one page, within one snapshot. */
  predicate SameOwnerScope(previous: OwnerPosition, current: OwnerPosition) {
    && current.snapshot == previous.snapshot && (previous.done ==> current.done)
    && (previous.bookmark == NoToken || (previous.bookmark == current.bookmark && previous.parent == current.parent))
    && previous.pageIndex <= current.pageIndex <= previous.pageIndex + 1
    && (current.pageIndex == previous.pageIndex ==>
          current.cursor == previous.cursor && current.items == previous.items && current.digest == previous.digest &&
          current.offset >= previous.offset)
  }

  /** The last owner of that name decides, as in the loop over owners. */
  predicate OwnerFound(previous: OwnerPosition, owners: seq<OwnerPosition>) {
    if owners == [] then false
    else if owners[|owners| - 1].name == previous.name then SameOwnerScope(previous, owners[|owners| - 1])
    else OwnerFound(previous, owners[..|owners| - 1])
  }

  predicate SameCursorScope(old_: CursorFrame, next: CursorFrame) {
    && old_.coverage == next.coverage && old_.parent == next.parent && old_.base == next.base &&
       old_.filters == next.filters
    && old_.profile == next.profile && old_.pageLimit == next.pageLimit && old_.selfStatus == next.selfStatus
    && old_.selfAction == next.selfAction && (old_.partial ==> next.partial) &&
       (old_.selfConsumed ==> next.selfConsumed)
    && forall i :: 0 <= i < |old_.owners| ==> OwnerFound(old_.owners[i], next.owners)
  }
}
