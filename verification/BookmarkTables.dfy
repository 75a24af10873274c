/** The publication bookmark table as a value, and what Put and Load do. */
module BookmarkTables {
  import opened Options
  import opened CursorFrames
  import opened CursorTables

  datatype Bookmark = Bookmark(binding: Binding, vector: PublicationVector, parent: Option<nat>, created: int,
                               expires: int)

  /** `supply` is the next unused token: tokens are never reused. */
  datatype Bookmarks = Bookmarks(rows: map<nat, Bookmark>, supply: nat)

  const NO_BOOKMARKS := Bookmarks(map[], 1)
  const RETENTION := 90 * 24 * 60 * 60_000_000_000

  // ---- Reading.

  predicate SameIdentity(a: Binding, b: Binding) {
    a.principal == b.principal && a.tenant == b.tenant && a.fingerprint == b.fingerprint
  }

  function Find(t: Bookmarks, token: nat, b: Binding, now: int): Answer<Bookmark> {
    if token !in t.rows || !SameIdentity(t.rows[token].binding, b) then Err(NotFound)
    else if t.rows[token].binding != b then Err(Conflict)
    else if t.rows[token].expires <= now then Err(Expired)
    else if !CanonicalVector(t.rows[token].vector) then Err(Conflict)
    else Ok(t.rows[token])
  }

  function LoadBookmark(t: Bookmarks, token: nat, b: Binding, now: int): Answer<Bookmark> {
    if !ValidBinding(b) || token == 0 then Err(NotFound) else Find(t, token, b, now)
  }

  // ---- Equivalence.

  /** Same scope, same boundaries, same parent. */
  predicate Equivalent(r: Bookmark, b: Binding, v: PublicationVector, parent: Option<nat>)
    requires CanonicalVector(v) && CanonicalVector(r.vector)
  {
    && r.binding == b && r.parent == parent && r.vector.filters == v.filters
    && r.vector.owners[0].bookmark == v.owners[0].bookmark && r.vector.owners[1].bookmark == v.owners[1].bookmark
  }

  function Twins(t: Bookmarks, b: Binding, v: PublicationVector, parent: Option<nat>, now: int): set<nat>
    requires CanonicalVector(v)
  {
    set k | k in t.rows && CanonicalVector(t.rows[k].vector) && t.rows[k].expires > now &&
    Equivalent(t.rows[k], b, v, parent)
  }

  /** The oldest live equivalent bookmark, if any. */
  predicate RightTwin(t: Bookmarks, b: Binding, v: PublicationVector, parent: Option<nat>, now: int, twin: Option<nat>)
    requires CanonicalVector(v)
  {
    var twins := Twins(t, b, v, parent, now);
    if twin.None? then twins == {}
    else
      && twin.value in twins
      && forall k :: k in twins ==>
           t.rows[twin.value].created < t.rows[k].created ||
           (t.rows[twin.value].created == t.rows[k].created && twin.value <= k)
  }

  // ---- Writing.

  /** The bookmark a Put may clear: the one that expired first, if any has. */
  predicate OldestExpired(t: Bookmarks, now: int, victim: Option<nat>) {
    match victim
    case None => forall k :: k in t.rows ==> t.rows[k].expires > now
    case Some(v) =>
      && v in t.rows && t.rows[v].expires <= now
      && forall k :: k in t.rows ==> t.rows[v].expires <= t.rows[k].expires
  }

  function ClearOne(t: Bookmarks, victim: Option<nat>): Bookmarks {
    if victim.None? then t else t.(rows := t.rows - {victim.value})
  }

  function RowsOf(t: Bookmarks, tenant: string): set<nat> {
    set k | k in t.rows && t.rows[k].binding.tenant == tenant
  }

  function RowsBy(t: Bookmarks, tenant: string, principal: string): set<nat> {
    set k | k in t.rows && t.rows[k].binding.tenant == tenant && t.rows[k].binding.principal == principal
  }

  predicate Room(t: Bookmarks, b: Binding) {
    |t.rows| < 32768 && |RowsOf(t, b.tenant)| < 4096 && |RowsBy(t, b.tenant, b.principal)| < 512
  }

  /** Why a vector may not be stored under this parent, or the parent itself when nothing moved. */
  function CheckParent(t: Bookmarks, b: Binding, v: PublicationVector, parent: Option<nat>,
                       now: int): Answer<Option<nat>>
    requires CanonicalVector(v)
  {
    if parent.None? then
      if v.owners[0].parent != NoToken || v.owners[1].parent != NoToken then Err(Conflict) else Ok(None)
    else
      var old_ := Find(t, parent.value, b, now);
      if old_.Err? then Err(old_.error)
      else if !VectorLineage(old_.value.vector, v) then Err(Conflict)
      else if SameBoundaries(old_.value.vector, v) then Ok(parent)
      else Ok(None)
  }

  /** Store a vector under its parent; answers the token of the stored, equivalent or unchanged bookmark. */
  function Put(t: Bookmarks, b: Binding, v: PublicationVector, parent: Option<nat>, now: int, victim: Option<nat>,
               twin: Option<nat>)
    : (Bookmarks, Answer<nat>)
  {
    if !ValidBinding(b) || parent == Some(0) || !CanonicalVector(v) then (t, Err(Conflict))
    else
      var checked := CheckParent(t, b, v, parent, now);
      if checked.Err? then (t, Err(checked.error))
      else if checked.value.Some? then (t, Ok(checked.value.value))
      else if twin.Some? then (t, Ok(twin.value))
      else
        var c := ClearOne(t, victim);
        if !Room(c, b) then (t, Err(Capacity))
        else (Bookmarks(c.rows[t.supply := Bookmark(b, v, parent, now, now + RETENTION)], t.supply + 1), Ok(t.supply))
  }

  // ---- The invariant.

  /** A row's parent link: roots have no owner parents; a stored parent has the same scope and the owner parents'
      bookmarks. */
  predicate RowLinked(t: Bookmarks, k: nat)
    requires k in t.rows
  {
    var r := t.rows[k];
    && CanonicalVector(r.vector) && ValidBinding(r.binding) && 0 < k < t.supply
    && (r.parent.None? ==> r.vector.owners[0].parent == NoToken && r.vector.owners[1].parent == NoToken)
    && (r.parent.Some? ==> 0 < r.parent.value < k)
    && (r.parent.Some? && r.parent.value in t.rows ==>
          t.rows[r.parent.value].binding == r.binding && VectorLineage(t.rows[r.parent.value].vector, r.vector))
  }

  predicate LinkedRows(t: Bookmarks) { forall k :: k in t.rows ==> RowLinked(t, k) }

  /** No two live bookmarks are equivalent. */
  predicate LiveDiffer(t: Bookmarks, now: int) {
    forall j, k :: j in t.rows && k in t.rows && j != k && t.rows[j].expires > now && t.rows[k].expires > now ==>
      && CanonicalVector(t.rows[j].vector) && CanonicalVector(t.rows[k].vector)
      && !Equivalent(t.rows[j], t.rows[k].binding, t.rows[k].vector, t.rows[k].parent)
  }

  ghost predicate RowCaps(t: Bookmarks) {
    && |t.rows| <= 32768 && (forall tenant: string :: |RowsOf(t, tenant)| <= 4096)
    && (forall tenant: string, principal: string :: |RowsBy(t, tenant, principal)| <= 512)
  }

  /** What holds whatever the clock does. */
  ghost predicate LinksInv(t: Bookmarks) { t.supply > 0 && LinkedRows(t) && RowCaps(t) }

  ghost predicate BookmarksInv(t: Bookmarks, clock: int) { LinksInv(t) && LiveDiffer(t, clock) }
}
