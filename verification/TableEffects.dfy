/** The cursor and bookmark transactions in plain terms: which requests succeed, what they write, and how long it
    lives. */
module TableEffects {
  import opened Options
  import opened CursorFrames
  import opened CursorTables
  import opened CursorChains
  import opened BookmarkTables

  // ---- What callers present.

  predicate Digest(d: string) { |d| == 64 && forall c :: c in d ==> c in "0123456789abcdef" }

  lemma DigestMeans(d: string)
    ensures ValidDigest(d) <==> Digest(d)
  {
    var hex := "0123456789abcdef";
    assert forall c: char :: c in hex <==> '0' <= c <= '9' || 'a' <= c <= 'f';
    assert forall i :: 0 <= i < |d| ==> d[i] in d;
  }

  predicate Caller(b: Binding) {
    && b.principal != "" && |b.principal| <= 200 && b.tenant != "" && |b.tenant| <= 200
    && b.policy != "" && |b.policy| <= 512 && Digest(b.fingerprint) && Digest(b.manifest)
  }

  lemma CallerMeans(b: Binding)
    ensures ValidBinding(b) <==> Caller(b)
  {
    hide Digest, ValidDigest;
    DigestMeans(b.fingerprint);
    DigestMeans(b.manifest);
  }

  /** An owner's published position: canonical non-nil tokens and a digest. */
  predicate Point(p: PublicationPosition, name: string) {
    && p.name == name && Digest(p.digest) && Proper(p.bookmark) && Proper(p.snapshot)
    && (p.parent == NoToken || Proper(p.parent))
  }

  predicate Proper(t: Token) { t.Token? && t.id > 0 && t == Token(t.id, 0) }

  /** Filters of a publication read: a source that is more than white space, a state, no time. */
  predicate Scope(f: Filters) {
    && f.since == None && (f.source.Some? ==> |f.source.value| <= 200 && exists c :: c in f.source.value && !IsSpace(c))
    && (f.state.Some? ==> f.state.value in {"OPEN", "RECOVERING", "RESOLVED"})
  }

  lemma ScopeMeans(f: Filters)
    ensures PublicationFilters(f) <==> Scope(f)
  {
    hide IsSpace;
  }

  /** A vector: the gateway's point, then ingestion's. */
  predicate Complete(v: PublicationVector) {
    && v.profile == "ouf.operational-publication-vector.v1" && Scope(v.filters) && |v.owners| == 2
    && Point(v.owners[0], "GATEWAY") && Point(v.owners[1], "INGESTION")
  }

  lemma PointMeans(p: PublicationPosition, name: string)
    ensures CanonicalPosition(p) && p.name == name <==> Point(p, name)
  {
    hide Digest, ValidDigest;
    DigestMeans(p.digest);
  }

  lemma VectorMeans(v: PublicationVector)
    ensures CanonicalVector(v) <==> Complete(v)
  {
    hide CanonicalPosition, Point, PublicationFilters, Scope;
    ScopeMeans(v.filters);
    if |v.owners| == 2 {
      PointMeans(v.owners[0], "GATEWAY");
      PointMeans(v.owners[1], "INGESTION");
    }
  }

  // ---- Frames.

  /** A place on one of an owner's at most 201 pages of at most 100 items. */
  predicate Placed(p: OwnerPosition) {
    && p.name in {"GATEWAY", "INGESTION"} && 0 <= p.offset && p.offset <= 100 && 0 <= p.pageIndex && p.pageIndex <= 200
    && Digest(p.digest) && p.cursor.Token? && p.cursor.id > 0 && p.snapshot.Token? && p.snapshot.id > 0
  }

  lemma PlacedMeans(p: OwnerPosition)
    ensures ValidPosition(p) <==> Placed(p)
  {
    hide Digest, ValidDigest;
    DigestMeans(p.digest);
  }

  /** A publication read: from nothing, or on from a vector with the same filters; an owner's bookmark appears once it
      is read, continuing the vector's. */
  predicate Publishes(f: CursorFrame) {
    && Scope(f.filters) && f.parent != Some(0) && (f.parent.Some? <==> f.base.Some?)
    && (f.base.Some? ==> Complete(f.base.value) && f.base.value.filters == f.filters)
    && forall p :: p in f.owners ==>
         if p.bookmark == NoToken then p.parent == NoToken && !p.done
         else Proper(p.bookmark) && p.parent == PriorBookmark(f.base, p.name)
  }

  function PriorBookmark(base: Option<PublicationVector>, name: string): Token {
    if base.None? || |base.value.owners| != 2 then NoToken
    else if name == "GATEWAY" then base.value.owners[0].bookmark
    else base.value.owners[1].bookmark
  }

  /** An ordinary read carries no bookmark at all. */
  predicate Browses(f: CursorFrame) {
    f.parent.None? && f.base.None? && forall p :: p in f.owners ==> p.bookmark == NoToken && p.parent == NoToken
  }

  predicate Acceptable(f: CursorFrame) {
    && f.profile == "ouf.operational-owner-vector.v1" && 1 <= f.pageLimit && f.pageLimit <= 100
    && 0 <= f.pageNumber && f.pageNumber <= 200 && f.selfStatus in {"HEALTHY", "RECOVERING", "DEGRADED"}
    && (f.filters.source.Some? ==> f.filters.source.value != "" && |f.filters.source.value| <= 200)
    && (f.filters.state.Some? ==> f.filters.state.value in {"OPEN", "RECOVERING", "RESOLVED"})
    && |f.owners| == 2 && (forall p :: p in f.owners ==> Placed(p)) && f.owners[0].name != f.owners[1].name
    && if f.coverage then Publishes(f) else Browses(f)
  }

  lemma CoverageMeans(f: CursorFrame, p: OwnerPosition)
    requires f.base.Some? ==> CanonicalVector(f.base.value)
    requires p.name in {"GATEWAY", "INGESTION"}
    ensures ValidOwnerCoverage(f, p) <==>
              if p.bookmark == NoToken then p.parent == NoToken && !p.done
              else Proper(p.bookmark) && p.parent == PriorBookmark(f.base, p.name)
  {
    hide CanonicalPosition, PublicationFilters;
    assert |GATEWAY| != |INGESTION|;
    if f.base.Some? {
      var owners := f.base.value.owners;
      assert BookmarkOf(owners, INGESTION) == BookmarkOf(owners[1..], INGESTION);
    }
  }

  lemma CaptureMeans(f: CursorFrame)
    requires |f.owners| == 2 && forall p :: p in f.owners ==> p.name in {"GATEWAY", "INGESTION"}
    ensures ValidCapture(f) <==> if f.coverage then Publishes(f) else Browses(f)
  {
    hide ValidOwnerCoverage, CanonicalVector, Complete, PublicationFilters, Scope, Proper, PriorBookmark;
    ScopeMeans(f.filters);
    assert f.owners[0] in f.owners && f.owners[1] in f.owners;
    if f.base.Some? {
      VectorMeans(f.base.value);
    }
    if f.base.Some? ==> CanonicalVector(f.base.value) {
      CoverageMeans(f, f.owners[0]);
      CoverageMeans(f, f.owners[1]);
    }
  }

  lemma FrameMeans(f: CursorFrame)
    ensures ValidFrame(f) <==> Acceptable(f)
  {
    hide ValidPosition, ValidCapture, Publishes, Browses, Digest;
    if |f.owners| == 2 {
      assert f.owners[0] in f.owners && f.owners[1] in f.owners;
      PlacedMeans(f.owners[0]);
      PlacedMeans(f.owners[1]);
      if Placed(f.owners[0]) && Placed(f.owners[1]) {
        CaptureMeans(f);
      }
    }
  }

  /** The position stays in its snapshot and goes on by at most one page; on the same page it does not go back. */
  predicate GoesOn(p: OwnerPosition, q: OwnerPosition) {
    && q.snapshot == p.snapshot && (p.done ==> q.done)
    && (p.bookmark != NoToken ==> q.bookmark == p.bookmark && q.parent == p.parent)
    && (q.pageIndex == p.pageIndex + 1 ||
        (q.pageIndex == p.pageIndex && q.cursor == p.cursor && q.items == p.items && q.digest == p.digest &&
         p.offset <= q.offset))
  }

  /** The next page of the same read: the same query and server state, and each owner goes on from where it stood. */
  predicate Continues(f: CursorFrame, g: CursorFrame) {
    && g == f.(owners := g.owners, pageNumber := g.pageNumber, selfConsumed := g.selfConsumed, partial := g.partial)
    && (f.selfConsumed ==> g.selfConsumed) && (f.partial ==> g.partial)
    && forall p, q :: p in f.owners && q in g.owners && p.name == q.name ==> GoesOn(p, q)
  }

  lemma GoesOnMeans(p: OwnerPosition, q: OwnerPosition)
    ensures SameOwnerScope(p, q) <==> GoesOn(p, q)
  {
  }

  lemma FoundMeans(p: OwnerPosition, owners: seq<OwnerPosition>)
    requires |owners| == 2 && owners[0].name != owners[1].name
    requires p.name == owners[0].name || p.name == owners[1].name
    ensures OwnerFound(p, owners) <==> forall q :: q in owners && q.name == p.name ==> GoesOn(p, q)
  {
    hide SameOwnerScope, GoesOn;
    GoesOnMeans(p, owners[0]);
    GoesOnMeans(p, owners[1]);
    assert owners[0] in owners && owners[1] in owners;
    assert OwnerFound(p, owners[..1]) == (owners[0].name == p.name && SameOwnerScope(p, owners[0])) by {
      assert owners[..1][..0] == [];
    }
  }

  lemma SameNames(f: CursorFrame, g: CursorFrame)
    requires Acceptable(f) && Acceptable(g)
    ensures |f.owners| == 2 && |g.owners| == 2 && g.owners[0].name != g.owners[1].name
    ensures forall p :: p in f.owners ==> p.name == g.owners[0].name || p.name == g.owners[1].name
  {
    hide Publishes, Browses, Digest;
    assert g.owners[0] in g.owners && g.owners[1] in g.owners;
  }

  lemma ContinuesMeans(f: CursorFrame, g: CursorFrame)
    requires Acceptable(f) && Acceptable(g)
    ensures SameCursorScope(f, g) <==> Continues(f, g)
  {
    hide OwnerFound, GoesOn, Acceptable;
    SameNames(f, g);
    assert f.owners[0] in f.owners && f.owners[1] in f.owners;
    FoundMeans(f.owners[0], g.owners);
    FoundMeans(f.owners[1], g.owners);
  }

  // ---- Sessions and pages.

  /** What is cleared: the session that expired first, once any has. */
  predicate Gone(t: Tables, now: int, gone: set<nat>) {
    if gone == {} then forall k :: k in t.sessions ==> now < t.sessions[k].expires
    else
      exists v ::
        && gone == {v} && v in t.sessions && t.sessions[v].expires <= now
        && forall k :: k in t.sessions ==> t.sessions[v].expires <= t.sessions[k].expires
  }

  function AsSet(victim: Option<nat>): set<nat> { if victim.Some? then {victim.value} else {} }

  lemma GoneMeans(t: Tables, now: int, victim: Option<nat>)
    ensures RightVictim(t, now, victim) <==> Gone(t, now, AsSet(victim))
  {
    if victim.Some? {
      assert victim.value in AsSet(victim);
    }
  }

  /** Sessions and pages that stay, of everybody, of the caller's tenant and of the caller. */
  function Staying(t: Tables, gone: set<nat>): set<nat> { set k | k in t.sessions && k !in gone }

  function Theirs(t: Tables, gone: set<nat>, b: Binding, own: bool): set<nat> {
    set k | k in Staying(t, gone) && t.sessions[k].binding.tenant == b.tenant &&
            (own ==> t.sessions[k].binding.principal == b.principal)
  }

  function PagesOf(t: Tables, sessions: set<nat>): set<nat> { set k | k in t.nodes && t.nodes[k].session in sessions }

  predicate SessionsLeft(t: Tables, b: Binding, gone: set<nat>) {
    |Staying(t, gone)| <= 4095 && |Theirs(t, gone, b, false)| <= 127 && |Theirs(t, gone, b, true)| <= 15
  }

  predicate PagesLeft(t: Tables, b: Binding, gone: set<nat>) {
    && |PagesOf(t, Staying(t, gone))| <= 32767 && |PagesOf(t, Theirs(t, gone, b, false))| <= 4095
    && |PagesOf(t, Theirs(t, gone, b, true))| <= 799
  }

  lemma SessionRoomMeans(t: Tables, b: Binding, victim: Option<nat>)
    ensures SessionRoom(Clear(t, victim), b) <==> SessionsLeft(t, b, AsSet(victim))
  {
    hide Clear, SessionsOf, SessionsBy, Staying, Theirs;
    var c, gone := Clear(t, victim), AsSet(victim);
    SessionsStay(t, b, victim);
    assert |c.sessions| == |c.sessions.Keys|;
  }

  lemma SessionsStay(t: Tables, b: Binding, victim: Option<nat>)
    ensures var c, gone := Clear(t, victim), AsSet(victim);
            && c.sessions.Keys == Staying(t, gone) && SessionsOf(c, b.tenant) == Theirs(t, gone, b, false)
            && SessionsBy(c, b.tenant, b.principal) == Theirs(t, gone, b, true)
  {
    var c, gone := Clear(t, victim), AsSet(victim);
    assert forall k :: k in c.sessions <==> k in Staying(t, gone);
    assert forall k :: k in SessionsOf(c, b.tenant) <==> k in Theirs(t, gone, b, false);
    assert forall k :: k in SessionsBy(c, b.tenant, b.principal) <==> k in Theirs(t, gone, b, true);
  }

  lemma NodeRoomMeans(t: Tables, b: Binding, victim: Option<nat>)
    requires TablesInv(t)
    ensures NodeRoom(Clear(t, victim), b) <==> PagesLeft(t, b, AsSet(victim))
  {
    hide TablesInv, Clear, NodesOf, NodesBy, Staying, Theirs, PagesOf;
    NodesHaveSessions(t);
    PagesStay(t, b, victim);
    assert |Clear(t, victim).nodes| == |Clear(t, victim).nodes.Keys|;
  }

  lemma PagesStay(t: Tables, b: Binding, victim: Option<nat>)
    requires forall k :: k in t.nodes ==> t.nodes[k].session in t.sessions
    ensures var c, gone := Clear(t, victim), AsSet(victim);
            && c.nodes.Keys == PagesOf(t, Staying(t, gone))
            && NodesOf(c, b.tenant) == PagesOf(t, Theirs(t, gone, b, false))
            && NodesBy(c, b.tenant, b.principal) == PagesOf(t, Theirs(t, gone, b, true))
  {
    var c, gone := Clear(t, victim), AsSet(victim);
    assert forall k :: k in c.nodes <==> k in PagesOf(t, Staying(t, gone));
    assert forall k :: k in NodesOf(c, b.tenant) <==> k in PagesOf(t, Theirs(t, gone, b, false));
    assert forall k :: k in NodesBy(c, b.tenant, b.principal) <==> k in PagesOf(t, Theirs(t, gone, b, true));
  }

  lemma NodesHaveSessions(t: Tables)
    requires TablesInv(t)
    ensures forall k :: k in t.nodes ==> t.nodes[k].session in t.sessions
  {
    hide ValidFrame, SameCursorScope, Chained, SessionsSound, WithinCaps;
    forall k | k in t.nodes ensures t.nodes[k].session in t.sessions {
      assert NodeSound(t, k);
    }
  }

  /** A new session of 30 minutes on its first page, and nothing else but what was cleared. */
  ghost predicate Opens(t: Tables, t': Tables, b: Binding, f: CursorFrame, now: int, gone: set<nat>, token: nat) {
    && token !in t.nodes && token in t'.nodes
    && var session := t'.nodes[token].session;
       && session !in t.sessions && t'.nodes[token] == Node(session, f, 0, None, None)
       && t'.sessions == (t.sessions - gone)[session := Session(b, now + 1_800_000_000_000)]
       && t'.nodes.Keys == PagesOf(t, Staying(t, gone)) + {token}
       && forall k :: k in t'.nodes && k != token ==> k in t.nodes && t'.nodes[k] == t.nodes[k]
  }

  lemma TokensFresh(t: Tables)
    requires TablesInv(t)
    ensures t.supply !in t.nodes && t.supply + 1 !in t.sessions
  {
    hide NodesSound, Chained, WithinCaps, ValidBinding;
    TokensUsed(t);
  }

  /** When a session is opened and what it leaves; everything else is refused and changes nothing. */
  lemma CreateExactly(t: Tables, b: Binding, f: CursorFrame, now: int, victim: Option<nat>)
    requires TablesInv(t) && RightVictim(t, now, victim)
    ensures var r, gone := Create(t, b, f, now, victim), AsSet(victim);
            && Gone(t, now, gone)
            && (r.1.Ok? <==>
                  && Caller(b) && Acceptable(f) && f.pageNumber == 0
                  && SessionsLeft(t, b, gone) && PagesLeft(t, b, gone))
            && (r.1.Ok? ==> Opens(t, r.0, b, f, now, gone, r.1.value))
            && (r.1.Err? ==>
                  && r.0 == t
                  && r.1.error == if Caller(b) && Acceptable(f) && f.pageNumber == 0 then Capacity else Conflict)
  {
    hide TablesInv, ValidBinding, Caller, ValidFrame, Acceptable, SessionRoom, NodeRoom, SessionsLeft, PagesLeft,
      RightVictim, Gone;
    GoneMeans(t, now, victim);
    CallerMeans(b);
    FrameMeans(f);
    SessionRoomMeans(t, b, victim);
    NodeRoomMeans(t, b, victim);
    TokensFresh(t);
    NodesHaveSessions(t);
    assert Clear(t, victim).sessions == t.sessions - AsSet(victim);
    assert Clear(t, victim).nodes.Keys == PagesOf(t, Staying(t, AsSet(victim)));
  }

  /** The page is the caller's own and its session has not expired. */
  predicate Held(t: Tables, token: nat, b: Binding, now: int) { Owned(t, token, b) && now < Deadline(t, token) }

  predicate Owned(t: Tables, token: nat, b: Binding) {
    && token > 0 && token in t.nodes && Caller(b)
    && t.nodes[token].session in t.sessions && t.sessions[t.nodes[token].session].binding == b
  }

  function Deadline(t: Tables, token: nat): int {
    if token in t.nodes && t.nodes[token].session in t.sessions then t.sessions[t.nodes[token].session].expires else 0
  }

  /** A page loads for its own caller until its session expires; to others it does not exist. */
  lemma LoadExactly(t: Tables, token: nat, b: Binding, now: int)
    requires TablesInv(t)
    ensures Load(t, token, b, now) ==
            if !Owned(t, token, b) then Err(NotFound)
            else if Deadline(t, token) <= now then Err(Expired)
            else Ok(t.nodes[token])
  {
    hide Chained, SessionsSound, WithinCaps, ValidBinding, Caller, ValidFrame, SameCursorScope;
    CallerMeans(b);
    if token in t.nodes {
      assert NodeSound(t, token);
    }
  }

  /** The stored successor is the one asked for. */
  predicate Successor(t: Tables, child: Option<nat>, next: Option<CursorFrame>) {
    if next.None? then child.None?
    else child.Some? && child.value in t.nodes && t.nodes[child.value].frame == next.value
  }

  /** The page gets its digest and, when the read goes on, one new page in its session; nothing else changes. */
  predicate Fixes(t: Tables, t': Tables, token: nat, digest: string, next: Option<CursorFrame>, child: Option<nat>)
    requires token in t.nodes
  {
    && t'.sessions == t.sessions && t'.nodes.Keys == t.nodes.Keys + {token} + AsSet(child)
    && t'.nodes[token] == t.nodes[token].(digest := Some(digest), next := child)
    && (child.Some? <==> next.Some?)
    && (child.Some? ==>
          && child.value !in t.nodes
          && t'.nodes[child.value] ==
             Node(t.nodes[token].session, next.value, t.nodes[token].number + 1, None, None))
    && forall k :: k in t.nodes && k != token ==> t'.nodes[k] == t.nodes[k]
  }

  /** The page may be given this digest and successor: the stored ones again, or the first ones. */
  predicate Committable(t: Tables, token: nat, b: Binding, digest: string, next: Option<CursorFrame>)
    requires token in t.nodes
  {
    var node := t.nodes[token];
    if node.digest.Some? then node.digest.value == digest && Successor(t, node.next, next)
    else
      next.Some? ==>
        next.value.pageNumber == node.number + 1 && Continues(node.frame, next.value) && PagesLeft(t, b, {})
  }

  lemma StoredAcceptable(t: Tables, token: nat)
    requires TablesInv(t) && token in t.nodes
    ensures token > 0 && Acceptable(t.nodes[token].frame) && (t.nodes[token].digest.None? ==> t.nodes[token].next.None?)
  {
    hide Chained, SessionsSound, WithinCaps, ValidFrame, Acceptable, SameCursorScope;
    assert NodeSound(t, token);
    FrameMeans(t.nodes[token].frame);
  }

  /** When a page is committed and what that leaves; a refusal changes nothing. */
  lemma CommitExactly(t: Tables, token: nat, b: Binding, digest: string, next: Option<CursorFrame>, now: int)
    requires TablesInv(t)
    ensures var r := Commit(t, token, b, digest, next, now);
            && (r.1.Ok? <==>
                  && |digest| == 64 && (next.Some? ==> Acceptable(next.value))
                  && Held(t, token, b, now) && Committable(t, token, b, digest, next))
            && (r.1.Ok? ==>
                  if t.nodes[token].digest.Some? then r.0 == t && r.1.value == t.nodes[token].next
                  else Fixes(t, r.0, token, digest, next, r.1.value))
            && (r.1.Err? ==> r.0 == t)
  {
    hide TablesInv, ValidBinding, Caller, ValidFrame, Acceptable, NodeRoom, PagesLeft, SameCursorScope, Continues;
    CallerMeans(b);
    TokensFresh(t);
    if token in t.nodes {
      StoredAcceptable(t, token);
    }
    if next.Some? {
      FrameMeans(next.value);
      if token in t.nodes && Acceptable(next.value) {
        ContinuesMeans(t.nodes[token].frame, next.value);
      }
    }
    NodeRoomMeans(t, b, None);
    assert Clear(t, None) == t;
  }

  // ---- Bookmarks.

  /** A bookmark loads for its own caller for as long as it lives. Under another policy or manifest it is in conflict,
      to other callers it does not exist. */
  lemma FindExactly(t: Bookmarks, token: nat, b: Binding, now: int)
    requires LinksInv(t)
    ensures LoadBookmark(t, token, b, now) ==
            if token !in t.rows || !Caller(b) || b != t.rows[token].binding.(policy := b.policy, manifest := b.manifest)
            then Err(NotFound)
            else if b != t.rows[token].binding then Err(Conflict)
            else if t.rows[token].expires <= now then Err(Expired)
            else Ok(t.rows[token])
  {
    hide RowCaps, ValidBinding, Caller, CanonicalVector, VectorLineage;
    CallerMeans(b);
    if token in t.rows {
      assert RowLinked(t, token);
    }
  }

  /** The vector starts afresh, or continues a live bookmark of the caller: both owners from that bookmark's. */
  predicate GoesOnFrom(t: Bookmarks, b: Binding, v: PublicationVector, parent: Option<nat>, now: int)
    requires |v.owners| == 2
  {
    if parent.None? then v.owners[0].parent == NoToken && v.owners[1].parent == NoToken
    else
      && parent.value in t.rows && t.rows[parent.value].binding == b && now < t.rows[parent.value].expires
      && var old_ := t.rows[parent.value].vector;
         && |old_.owners| == 2 && v.filters == old_.filters
         && v.owners[0].parent == old_.owners[0].bookmark && v.owners[1].parent == old_.owners[1].bookmark
  }

  /** Neither owner moved. */
  predicate StandsStill(t: Bookmarks, v: PublicationVector, parent: Option<nat>)
    requires |v.owners| == 2
  {
    && parent.Some? && parent.value in t.rows && SamePlace(t.rows[parent.value].vector, v)
  }

  predicate SamePlace(u: PublicationVector, v: PublicationVector)
    requires |v.owners| == 2
  {
    && |u.owners| == 2 && u.owners[0].bookmark == v.owners[0].bookmark && u.owners[1].bookmark == v.owners[1].bookmark
  }

  /** A live bookmark of the same caller, parent, filters and place. */
  predicate Repeats(t: Bookmarks, b: Binding, v: PublicationVector, parent: Option<nat>, now: int, k: nat)
    requires |v.owners| == 2
  {
    && k in t.rows && now < t.rows[k].expires && t.rows[k].binding == b && t.rows[k].parent == parent
    && t.rows[k].vector.filters == v.filters && SamePlace(t.rows[k].vector, v)
  }

  /** Bookmarks that stay, of the caller's tenant or of the caller. */
  function RowsLeft(t: Bookmarks, gone: set<nat>, b: Binding, own: bool): set<nat> {
    set k | k in t.rows && k !in gone && t.rows[k].binding.tenant == b.tenant &&
            (own ==> t.rows[k].binding.principal == b.principal)
  }

  predicate BookmarksLeft(t: Bookmarks, b: Binding, gone: set<nat>) {
    |t.rows.Keys - gone| <= 32767 && |RowsLeft(t, gone, b, false)| <= 4095 && |RowsLeft(t, gone, b, true)| <= 511
  }

  lemma BookmarkRoomMeans(t: Bookmarks, b: Binding, victim: Option<nat>)
    ensures Room(ClearOne(t, victim), b) <==> BookmarksLeft(t, b, AsSet(victim))
  {
    var c, gone := ClearOne(t, victim), AsSet(victim);
    assert c.rows.Keys == t.rows.Keys - gone;
    assert RowsOf(c, b.tenant) == RowsLeft(t, gone, b, false);
    assert RowsBy(c, b.tenant, b.principal) == RowsLeft(t, gone, b, true);
  }

  lemma TwinsMean(t: Bookmarks, b: Binding, v: PublicationVector, parent: Option<nat>, now: int, k: nat)
    requires LinksInv(t) && CanonicalVector(v)
    ensures |v.owners| == 2 && (k in Twins(t, b, v, parent, now) <==> Repeats(t, b, v, parent, now, k))
  {
    hide RowCaps, ValidBinding, CanonicalPosition, PublicationFilters, VectorLineage;
    if k in t.rows {
      assert RowLinked(t, k);
    }
  }

  lemma ParentMeans(t: Bookmarks, b: Binding, v: PublicationVector, parent: Option<nat>, now: int)
    requires LinksInv(t) && CanonicalVector(v)
    ensures |v.owners| == 2
    ensures var c := CheckParent(t, b, v, parent, now);
            && (c.Ok? <==> GoesOnFrom(t, b, v, parent, now))
            && (c.Ok? ==> c.value == if StandsStill(t, v, parent) then parent else None)
  {
    hide RowCaps, ValidBinding, CanonicalPosition, PublicationFilters;
    if parent.Some? && parent.value in t.rows {
      assert RowLinked(t, parent.value);
    }
  }

  /** A new bookmark of 90 days under its parent, and nothing else but what was cleared: the bookmark that expired
      first. */
  predicate Stores(t: Bookmarks, t': Bookmarks, b: Binding, v: PublicationVector, parent: Option<nat>, now: int,
                   gone: set<nat>, token: nat) {
    && token !in t.rows && (forall k :: k in t.rows && gone == {} ==> now < t.rows[k].expires)
    && (forall j, k :: j in gone && k in t.rows ==>
          j in t.rows && t.rows[j].expires <= now && t.rows[j].expires <= t.rows[k].expires)
    && t'.rows == (t.rows - gone)[token := Bookmark(b, v, parent, now, now + 7_776_000_000_000_000)]
  }

  /** What a successful Put answers: the parent when nothing moved, the oldest repetition when there is one, or a new
      bookmark. */
  ghost predicate Answered(t: Bookmarks, t': Bookmarks, b: Binding, v: PublicationVector, parent: Option<nat>, now: int,
                           gone: set<nat>, token: nat)
    requires |v.owners| == 2
  {
    if StandsStill(t, v, parent) then t' == t && parent == Some(token)
    else if exists k :: Repeats(t, b, v, parent, now, k) then
      && t' == t && Repeats(t, b, v, parent, now, token)
      && forall k :: Repeats(t, b, v, parent, now, k) ==> t.rows[token].created <= t.rows[k].created
    else Stores(t, t', b, v, parent, now, gone, token)
  }

  lemma TokenUnused(t: Bookmarks)
    requires LinksInv(t)
    ensures t.supply !in t.rows
  {
    hide RowCaps, ValidBinding, CanonicalVector, VectorLineage;
    forall k | k in t.rows ensures k < t.supply {
      assert RowLinked(t, k);
    }
  }

  lemma StoreMeans(t: Bookmarks, b: Binding, v: PublicationVector, parent: Option<nat>, now: int, victim: Option<nat>)
    requires LinksInv(t) && OldestExpired(t, now, victim)
    ensures t.supply !in t.rows
    ensures Stores(t, Bookmarks(ClearOne(t, victim).rows[t.supply := Bookmark(b, v, parent, now, now + RETENTION)],
                                t.supply + 1),
                   b, v, parent, now, AsSet(victim), t.supply)
  {
    hide LinksInv;
    TokenUnused(t);
    assert ClearOne(t, victim).rows == t.rows - AsSet(victim);
  }

  /** When a vector is stored and what that leaves; a refusal changes nothing. */
  lemma PutExactly(t: Bookmarks, b: Binding, v: PublicationVector, parent: Option<nat>, now: int, victim: Option<nat>,
                   twin: Option<nat>)
    requires LinksInv(t) && OldestExpired(t, now, victim)
    requires CanonicalVector(v) ==> RightTwin(t, b, v, parent, now, twin)
    ensures var r, gone := Put(t, b, v, parent, now, victim, twin), AsSet(victim);
            && (r.1.Ok? <==>
                  && Caller(b) && Complete(v) && parent != Some(0) && GoesOnFrom(t, b, v, parent, now)
                  && (StandsStill(t, v, parent) || (exists k :: Repeats(t, b, v, parent, now, k)) ||
                      BookmarksLeft(t, b, gone)))
            && (r.1.Ok? ==> Answered(t, r.0, b, v, parent, now, gone, r.1.value))
            && (r.1.Err? ==> r.0 == t)
  {
    hide LinksInv, ValidBinding, Caller, CanonicalVector, Complete, GoesOnFrom, SamePlace, BookmarksLeft, Room,
      OldestExpired, CheckParent, Stores, Twins;
    CallerMeans(b);
    VectorMeans(v);
    BookmarkRoomMeans(t, b, victim);
    StoreMeans(t, b, v, parent, now, victim);
    if CanonicalVector(v) {
      ParentMeans(t, b, v, parent, now);
      forall k ensures k in Twins(t, b, v, parent, now) <==> Repeats(t, b, v, parent, now, k) {
        TwinsMean(t, b, v, parent, now, k);
      }
    }
  }
}
