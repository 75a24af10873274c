/** What every run of the bookmark table keeps, on a clock that does not go back. */
module BookmarkHistory {
  import opened Options
  import opened CursorFrames
  import opened CursorTables
  import opened CursorChains
  import opened BookmarkTables

  lemma ClearLinked(t: Bookmarks, victim: Option<nat>)
    requires LinkedRows(t)
    ensures LinkedRows(ClearOne(t, victim))
  {
    hide CanonicalVector, VectorLineage, ValidBinding;
    forall k | k in ClearOne(t, victim).rows ensures RowLinked(ClearOne(t, victim), k) {
      assert RowLinked(t, k);
    }
  }

  lemma ClearCaps(t: Bookmarks, victim: Option<nat>)
    requires RowCaps(t)
    ensures RowCaps(ClearOne(t, victim))
  {
    var c := ClearOne(t, victim);
    SubsetSize(c.rows.Keys, t.rows.Keys);
    forall tenant: string ensures |RowsOf(c, tenant)| <= 4096 {
      SubsetSize(RowsOf(c, tenant), RowsOf(t, tenant));
    }
    forall tenant: string, principal: string ensures |RowsBy(c, tenant, principal)| <= 512 {
      SubsetSize(RowsBy(c, tenant, principal), RowsBy(t, tenant, principal));
    }
  }

  lemma AddCaps(t: Bookmarks, k: nat, r: Bookmark, supply: nat)
    requires RowCaps(t) && Room(t, r.binding)
    ensures RowCaps(Bookmarks(t.rows[k := r], supply))
  {
    var s := Bookmarks(t.rows[k := r], supply);
    GrowOne(s.rows.Keys, t.rows.Keys, k, 32768);
    forall tenant: string ensures |RowsOf(s, tenant)| <= 4096 {
      GrowOne(RowsOf(s, tenant), RowsOf(t, tenant), k, 4096);
    }
    forall tenant: string, principal: string ensures |RowsBy(s, tenant, principal)| <= 512 {
      GrowOne(RowsBy(s, tenant, principal), RowsBy(t, tenant, principal), k, 512);
    }
  }

  /** A new row under a checked parent is linked, and links nobody else's parent. */
  lemma AddLinked(t: Bookmarks, k: nat, r: Bookmark)
    requires LinkedRows(t) && k == t.supply > 0 && CanonicalVector(r.vector) && ValidBinding(r.binding)
    requires r.parent.None? ==> r.vector.owners[0].parent == NoToken && r.vector.owners[1].parent == NoToken
    requires r.parent.Some? ==>
               0 < r.parent.value < k &&
               (r.parent.value in t.rows ==>
                  t.rows[r.parent.value].binding == r.binding && VectorLineage(t.rows[r.parent.value].vector, r.vector))
    ensures LinkedRows(Bookmarks(t.rows[k := r], t.supply + 1))
  {
    hide CanonicalVector, VectorLineage, ValidBinding;
    var s := Bookmarks(t.rows[k := r], t.supply + 1);
    forall j | j in s.rows ensures RowLinked(s, j) {
      if j != k {
        assert RowLinked(t, j);
      }
    }
  }

  lemma AddDiffers(t: Bookmarks, k: nat, r: Bookmark, clock: int, now: int, supply: nat)
    requires LinkedRows(t) && LiveDiffer(t, clock) && clock <= now && CanonicalVector(r.vector) && k !in t.rows
    requires Twins(t, r.binding, r.vector, r.parent, now) == {}
    ensures LiveDiffer(Bookmarks(t.rows[k := r], supply), now)
  {
    var s := Bookmarks(t.rows[k := r], supply);
    forall i, j | i in s.rows && j in s.rows && i != j && s.rows[i].expires > now && s.rows[j].expires > now
      ensures CanonicalVector(s.rows[i].vector) && CanonicalVector(s.rows[j].vector)
      ensures !Equivalent(s.rows[i], s.rows[j].binding, s.rows[j].vector, s.rows[j].parent)
    {
      if i == k {
        assert RowLinked(t, j);
        assert j !in Twins(t, r.binding, r.vector, r.parent, now);
      } else if j == k {
        assert RowLinked(t, i);
        assert i !in Twins(t, r.binding, r.vector, r.parent, now);
      }
    }
  }

  lemma LaterDiffers(t: Bookmarks, clock: int, now: int)
    requires LiveDiffer(t, clock) && clock <= now
    ensures LiveDiffer(t, now)
  {
    hide Equivalent, CanonicalVector;
  }

  lemma ClearDiffers(t: Bookmarks, victim: Option<nat>, clock: int)
    requires LiveDiffer(t, clock)
    ensures LiveDiffer(ClearOne(t, victim), clock)
  {
    hide Equivalent, CanonicalVector;
  }

  lemma ClearTwins(t: Bookmarks, victim: Option<nat>, b: Binding, v: PublicationVector, parent: Option<nat>, now: int)
    requires CanonicalVector(v) && Twins(t, b, v, parent, now) == {}
    ensures Twins(ClearOne(t, victim), b, v, parent, now) == {}
  {
    hide Equivalent, CanonicalVector;
    var c := ClearOne(t, victim);
    forall k ensures k !in Twins(c, b, v, parent, now) {
      assert k !in Twins(t, b, v, parent, now);
    }
  }

  lemma ParentFits(t: Bookmarks, b: Binding, v: PublicationVector, parent: Option<nat>, now: int)
    requires LinkedRows(t) && CanonicalVector(v) && parent != Some(0) && CheckParent(t, b, v, parent, now) == Ok(None)
    ensures parent.None? ==> v.owners[0].parent == NoToken && v.owners[1].parent == NoToken
    ensures parent.Some? ==>
              && 0 < parent.value < t.supply && parent.value in t.rows && t.rows[parent.value].binding == b
              && VectorLineage(t.rows[parent.value].vector, v)
  {
    hide VectorLineage, SameBoundaries;
    if parent.Some? {
      assert RowLinked(t, parent.value);
    }
  }

  /** Storing a bookmark keeps the links and the caps, whatever the clock says. */
  lemma PutKeepsLinks(t: Bookmarks, b: Binding, v: PublicationVector, parent: Option<nat>, now: int,
                      victim: Option<nat>, twin: Option<nat>)
    requires LinksInv(t)
    ensures LinksInv(Put(t, b, v, parent, now, victim, twin).0)
  {
    hide LinkedRows, RowCaps, Room, CanonicalVector, ValidBinding, CheckParent, ClearOne;
    var r := Put(t, b, v, parent, now, victim, twin);
    if r.0 != t {
      var c := ClearOne(t, victim);
      ParentFits(t, b, v, parent, now);
      ClearLinked(t, victim);
      ClearCaps(t, victim);
      ClearShrinks(t, victim);
      var row := Bookmark(b, v, parent, now, now + RETENTION);
      AddLinked(c, t.supply, row);
      AddCaps(c, t.supply, row, t.supply + 1);
    }
  }

  /** Storing a bookmark keeps live bookmarks different, as time moves on. */
  lemma PutKeepsInv(t: Bookmarks, clock: int, b: Binding, v: PublicationVector, parent: Option<nat>, now: int,
                    victim: Option<nat>, twin: Option<nat>)
    requires BookmarksInv(t, clock) && clock <= now
    requires CanonicalVector(v) ==> RightTwin(t, b, v, parent, now, twin)
    ensures BookmarksInv(Put(t, b, v, parent, now, victim, twin).0, now)
  {
    hide LinkedRows, LiveDiffer, RowCaps, Room, CanonicalVector, ValidBinding, CheckParent, Twins, ClearOne;
    var r := Put(t, b, v, parent, now, victim, twin);
    PutKeepsLinks(t, b, v, parent, now, victim, twin);
    LaterDiffers(t, clock, now);
    if r.0 != t {
      var c := ClearOne(t, victim);
      ClearLinked(t, victim);
      ClearDiffers(t, victim, now);
      ClearTwins(t, victim, b, v, parent, now);
      ClearShrinks(t, victim);
      AddDiffers(c, t.supply, Bookmark(b, v, parent, now, now + RETENTION), now, now, t.supply + 1);
    }
  }

  lemma ClearShrinks(t: Bookmarks, victim: Option<nat>)
    requires LinkedRows(t)
    ensures ClearOne(t, victim).supply == t.supply && t.supply !in ClearOne(t, victim).rows
    ensures forall k :: k in ClearOne(t, victim).rows ==> k in t.rows && ClearOne(t, victim).rows[k] == t.rows[k]
  {
    hide CanonicalVector, VectorLineage, ValidBinding;
    forall k | k in t.rows ensures k < t.supply {
      assert RowLinked(t, k);
    }
  }

  // ---- Runs.

  datatype Op = Op(binding: Binding, vector: PublicationVector, parent: Option<nat>, now: int, victim: Option<nat>,
                   twin: Option<nat>)

  function Apply(t: Bookmarks, op: Op): Bookmarks {
    Put(t, op.binding, op.vector, op.parent, op.now, op.victim, op.twin).0
  }

  function Run(t: Bookmarks, ops: seq<Op>): Bookmarks {
    if ops == [] then t else Apply(Run(t, ops[..|ops| - 1]), ops[|ops| - 1])
  }

  function ClockAfter(ops: seq<Op>, clock: int): int { if ops == [] then clock else ops[|ops| - 1].now }

  /** The Put sees the oldest live equivalent bookmark, and the clock has not gone back. */
  predicate TimelyPut(t: Bookmarks, clock: int, op: Op) {
    && clock <= op.now
    && (CanonicalVector(op.vector) ==> RightTwin(t, op.binding, op.vector, op.parent, op.now, op.twin))
  }

  predicate Timely(t: Bookmarks, ops: seq<Op>, clock: int) {
    forall k :: 0 <= k < |ops| ==> TimelyPut(Run(t, ops[..k]), ClockAfter(ops[..k], clock), ops[k])
  }

  lemma EmptyBookmarksInv(clock: int)
    ensures BookmarksInv(NO_BOOKMARKS, clock)
  {
    assert forall tenant: string :: RowsOf(NO_BOOKMARKS, tenant) == {};
    assert forall tenant: string, principal: string :: RowsBy(NO_BOOKMARKS, tenant, principal) == {};
  }

  lemma {:induction false} RunKeepsInv(t: Bookmarks, ops: seq<Op>, clock: int)
    requires BookmarksInv(t, clock) && Timely(t, ops, clock)
    ensures BookmarksInv(Run(t, ops), ClockAfter(ops, clock))
  {
    hide BookmarksInv, Put, RightTwin, CanonicalVector;
    if ops != [] {
      var before, op := ops[..|ops| - 1], ops[|ops| - 1];
      assert forall k :: 0 <= k < |before| ==> before[..k] == ops[..k];
      assert TimelyPut(Run(t, before), ClockAfter(before, clock), op);
      RunKeepsInv(t, before, clock);
      PutKeepsInv(Run(t, before), ClockAfter(before, clock), op.binding, op.vector, op.parent, op.now, op.victim,
                  op.twin);
    }
  }

  /** In every run on a clock that does not go back, live bookmarks differ in scope, boundaries or parent. */
  lemma LiveBookmarksDiffer(ops: seq<Op>, clock: int)
    requires Timely(NO_BOOKMARKS, ops, clock)
    ensures LiveDiffer(Run(NO_BOOKMARKS, ops), ClockAfter(ops, clock))
  {
    hide LiveDiffer, LinksInv;
    EmptyBookmarksInv(clock);
    RunKeepsInv(NO_BOOKMARKS, ops, clock);
  }

  lemma {:induction false} RunKeepsLinks(t: Bookmarks, ops: seq<Op>)
    requires LinksInv(t)
    ensures LinksInv(Run(t, ops))
  {
    hide LinksInv, Put;
    if ops != [] {
      var before, op := ops[..|ops| - 1], ops[|ops| - 1];
      RunKeepsLinks(t, before);
      PutKeepsLinks(Run(t, before), op.binding, op.vector, op.parent, op.now, op.victim, op.twin);
    }
  }

  /** In every run, whatever the clock does: a stored parent has the child's scope and filters and the bookmarks its
      owners continue; roots continue nothing; the caps hold. */
  lemma BookmarksAlwaysLinked(ops: seq<Op>, k: nat)
    requires k in Run(NO_BOOKMARKS, ops).rows
    ensures var t := Run(NO_BOOKMARKS, ops);
            var r := t.rows[k];
            && RowCaps(t) && CanonicalVector(r.vector)
            && (r.parent.None? ==> r.vector.owners[0].parent == r.vector.owners[1].parent == NoToken)
            && (r.parent.Some? && r.parent.value in t.rows ==>
                  var p := t.rows[r.parent.value];
                  && p.binding == r.binding && CanonicalVector(p.vector) && p.vector.filters == r.vector.filters
                  && r.vector.owners[0].parent == p.vector.owners[0].bookmark
                  && r.vector.owners[1].parent == p.vector.owners[1].bookmark)
  {
    hide Run, RowCaps, CanonicalPosition, PublicationFilters, LiveDiffer;
    EmptyBookmarksInv(0);
    RunKeepsLinks(NO_BOOKMARKS, ops);
    assert RowLinked(Run(NO_BOOKMARKS, ops), k);
  }

  /** The bookmark `steps` generations up, while it is stored. */
  function Ancestor(t: Bookmarks, k: nat, steps: nat): Option<nat>
    decreases steps
  {
    if k !in t.rows then None
    else if steps == 0 then Some(k)
    else if t.rows[k].parent.None? then None
    else Ancestor(t, t.rows[k].parent.value, steps - 1)
  }

  /** Filters and scope are constant along a chain. */
  lemma {:induction false} ChainsShareFilters(t: Bookmarks, k: nat, steps: nat)
    requires LinkedRows(t) && Ancestor(t, k, steps).Some?
    ensures k in t.rows && Ancestor(t, k, steps).value in t.rows
    ensures var a := t.rows[Ancestor(t, k, steps).value];
            a.vector.filters == t.rows[k].vector.filters && a.binding == t.rows[k].binding
    decreases steps
  {
    hide CanonicalVector, ValidBinding;
    if steps > 0 {
      assert RowLinked(t, k);
      ChainsShareFilters(t, t.rows[k].parent.value, steps - 1);
    }
  }

  lemma RunsShareFilters(ops: seq<Op>, k: nat, steps: nat)
    requires Ancestor(Run(NO_BOOKMARKS, ops), k, steps).Some?
    ensures var t := Run(NO_BOOKMARKS, ops);
            var a := Ancestor(t, k, steps).value;
            k in t.rows && a in t.rows && t.rows[a].vector.filters == t.rows[k].vector.filters
  {
    hide Run, RowCaps, LinkedRows, Ancestor, LiveDiffer;
    EmptyBookmarksInv(0);
    RunKeepsLinks(NO_BOOKMARKS, ops);
    ChainsShareFilters(Run(NO_BOOKMARKS, ops), k, steps);
  }

  // ---- Loading what was stored.

  /** A successful Put answers a stored bookmark with the vector's scope and boundaries, under the given parent unless
      it is that parent. */
  lemma PutAnswers(t: Bookmarks, b: Binding, v: PublicationVector, parent: Option<nat>, now: int, victim: Option<nat>,
                   twin: Option<nat>)
    requires CanonicalVector(v) && RightTwin(t, b, v, parent, now, twin)
    ensures var r := Put(t, b, v, parent, now, victim, twin);
            r.1.Ok? ==>
              && ValidBinding(b) && r.1.value in r.0.rows
              && var row := r.0.rows[r.1.value];
                 && CanonicalVector(row.vector) && row.binding == b && row.vector.filters == v.filters
                 && row.vector.owners[0].bookmark == v.owners[0].bookmark &&
                    row.vector.owners[1].bookmark == v.owners[1].bookmark
                 && (parent == Some(r.1.value) || row.parent == parent)
  {
    hide CanonicalPosition, PublicationFilters, ValidBinding, Room;
  }

  /** The Put clears no bookmark that is still live at its own time, and its time is not after `now`. */
  predicate SparesLive(t: Bookmarks, op: Op, now: int) {
    op.now <= now && (op.victim.Some? && op.victim.value in t.rows ==> t.rows[op.victim.value].expires <= op.now)
  }

  lemma PutSpares(t: Bookmarks, op: Op, k: nat, now: int)
    requires LinksInv(t) && k in t.rows && t.rows[k].expires > now && SparesLive(t, op, now)
    ensures k in Apply(t, op).rows && Apply(t, op).rows[k] == t.rows[k]
  {
    hide LinkedRows, RowCaps, CanonicalVector, ValidBinding, CheckParent, Room;
    ClearShrinks(t, op.victim);
  }

  lemma {:induction false} LiveBookmarkStays(t: Bookmarks, ops: seq<Op>, k: nat, now: int)
    requires LinksInv(t) && k in t.rows && t.rows[k].expires > now
    requires forall i :: 0 <= i < |ops| ==> SparesLive(Run(t, ops[..i]), ops[i], now)
    ensures k in Run(t, ops).rows && Run(t, ops).rows[k] == t.rows[k]
  {
    hide LinksInv, SparesLive, Apply;
    if ops != [] {
      var before, op := ops[..|ops| - 1], ops[|ops| - 1];
      assert forall i :: 0 <= i < |before| ==> before[..i] == ops[..i];
      LiveBookmarkStays(t, before, k, now);
      RunKeepsLinks(t, before);
      assert SparesLive(Run(t, ops[..|before|]), ops[|before|], now);
      PutSpares(Run(t, before), op, k, now);
    }
  }

  /** A bookmark that Put answered can be loaded, unchanged, as long as it lives, whatever is stored in between. */
  lemma {:induction false} StoredBookmarksLoad(before: seq<Op>, op: Op, after: seq<Op>, now: int)
    requires var t := Run(NO_BOOKMARKS, before);
             && CanonicalVector(op.vector) && RightTwin(t, op.binding, op.vector, op.parent, op.now, op.twin)
             && var r := Put(t, op.binding, op.vector, op.parent, op.now, op.victim, op.twin);
                && r.1.Ok? && r.1.value in r.0.rows && r.0.rows[r.1.value].expires > now
                && forall i :: 0 <= i < |after| ==> SparesLive(Run(r.0, after[..i]), after[i], now)
    ensures var r := Put(Run(NO_BOOKMARKS, before), op.binding, op.vector, op.parent, op.now, op.victim, op.twin);
            var loaded := LoadBookmark(Run(r.0, after), r.1.value, op.binding, now);
            && loaded == Ok(r.0.rows[r.1.value]) && CanonicalVector(loaded.value.vector)
            && loaded.value.vector.filters == op.vector.filters
            && loaded.value.vector.owners[0].bookmark == op.vector.owners[0].bookmark
            && loaded.value.vector.owners[1].bookmark == op.vector.owners[1].bookmark
  {
    hide Run, Put, RowCaps, CanonicalVector, ValidBinding, RightTwin, LiveDiffer, SparesLive;
    var t := Run(NO_BOOKMARKS, before);
    var r := Put(t, op.binding, op.vector, op.parent, op.now, op.victim, op.twin);
    EmptyBookmarksInv(0);
    RunKeepsLinks(NO_BOOKMARKS, before);
    PutKeepsLinks(t, op.binding, op.vector, op.parent, op.now, op.victim, op.twin);
    PutAnswers(t, op.binding, op.vector, op.parent, op.now, op.victim, op.twin);
    LiveBookmarkStays(r.0, after, r.1.value, now);
    assert RowLinked(r.0, r.1.value);
  }

  /** Resuming a live bookmark without progress answers that bookmark and stores nothing. */
  lemma IdleResumeReturnsParent(t: Bookmarks, b: Binding, v: PublicationVector, p: nat, now: int, victim: Option<nat>,
                                twin: Option<nat>)
    requires ValidBinding(b) && p != 0 && Find(t, p, b, now).Ok? && SameBoundaries(t.rows[p].vector, v)
    ensures Put(t, b, v, Some(p), now, victim, twin) == (t, Ok(p))
  {
    hide CanonicalPosition, PublicationFilters;
  }
}
