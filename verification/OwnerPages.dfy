/** Decoding one owner page: the checks that make a reply usable. */
module OwnerPages {
  import opened Options
  import opened IncidentOrder
  import opened IncidentMerge
  import opened CursorFrames

  /** One reply item after JSON decoding; an absent or mistyped field is its zero value, an absent or mistyped action
      None. */
  datatype RawItem =
    | Null
    | RawItem(fields: set<string>, module_: Option<string>, id: string, state: string, severity: string,
              action: Option<bool>, time: int, rest: string)

  datatype RawPage = RawPage(
    items: Option<seq<RawItem>>, partial: Option<bool>, truncated: bool, cursor: Token, next: Token, snapshot: Token,
    digest: string, expires: int, snapshotExpires: int, priorityProfile: string, cursorProfile: string,
    recorded: bool, bookmarkProfile: string, bookmark: Token, parent: Token, noProgress: Option<bool>)

  const KNOWN_FIELDS := {
    "incident_id", "module", "event_type", "lifecycle_state", "severity", "first_seen_at", "last_seen_at",
    "resolved_at", "correlation_id", "endpoint_ref", "error_code", "impact_summary", "action_required",
    "dedup_key", "occurrence_count", "visibility_class", "job_ref", "source_ref", "authorization_decision_ref"}

  function Decoded(raw: RawItem, name: string): Incident {
    if raw.Null? then Incident("", name, "", "", false, 0, "")
    else Incident(raw.id, name, raw.state, raw.severity, raw.action == Some(true), raw.time, raw.rest)
  }

  function AllDecoded(raw: seq<RawItem>, name: string): seq<Incident> {
    seq(|raw|, i requires 0 <= i < |raw| => Decoded(raw[i], name))
  }

  predicate SoundItem(raw: RawItem, name: string) {
    && raw.RawItem? && raw.fields <= KNOWN_FIELDS && (raw.module_.Some? ==> raw.module_.value == name)
    && raw.id != "" && SeverityRank(raw.severity) > 0 && ValidState(raw.state) && raw.action.Some?
  }

  predicate SoundHeader(raw: RawPage, name: string, now: int) {
    && raw.items.Some? && raw.partial == Some(false) && !raw.recorded && |raw.items.value| <= 100
    && raw.priorityProfile == "ouf.incident-priority.v1" && raw.cursorProfile == "ouf.incident-owner-cursor.v1"
    && ValidDigest(raw.digest) && now <= (if name == INGESTION then raw.snapshotExpires else raw.expires)
  }

  predicate SoundTokens(raw: RawPage)
    requires raw.items.Some?
  {
    && ValidToken(raw.cursor) && ValidToken(raw.snapshot) && raw.truncated == (raw.next != NoToken)
    && (raw.next != NoToken ==> ValidToken(raw.next) && raw.next != raw.cursor && |raw.items.value| == 100)
  }

  /** What the composer may rely on in a decoded page. */
  predicate SoundPage(page: OwnerPage, name: string) {
    && |page.items| <= 100 && AllOf(page.items, name) && Sorted(page.items)
    && (forall i, j :: 0 <= i < j < |page.items| ==> page.items[i].id != page.items[j].id)
    && ValidToken(page.cursor) && ValidToken(page.snapshot) && ValidDigest(page.digest)
    && (page.next != NoToken ==> ValidToken(page.next) && page.next != page.cursor && |page.items| == 100)
  }

  /** Check each item, remembering the ids seen. */
  method DecodeItems(raw: seq<RawItem>, name: string) returns (out: Answer<seq<Incident>>)
    ensures out.Ok? <==> (forall i :: 0 <= i < |raw| ==> SoundItem(raw[i], name)) &&
                         (forall i, j :: 0 <= i < j < |raw| ==> raw[i].id != raw[j].id)
    ensures out.Ok? ==> out.value == AllDecoded(raw, name)
    ensures out.Err? ==> out.error == Conflict
  {
    hide SeverityRank, ValidState;
    var items, seen := [], {};
    for i := 0 to |raw|
      invariant |items| == i
      invariant forall j :: 0 <= j < i ==> SoundItem(raw[j], name) && items[j] == Decoded(raw[j], name)
      invariant forall j, k :: 0 <= j < k < i ==> raw[j].id != raw[k].id
      invariant seen == set j | 0 <= j < i :: raw[j].id
    {
      var item := raw[i];
      if item.Null? || !(item.fields <= KNOWN_FIELDS) || (item.module_.Some? && item.module_.value != name) {
        return Err(Conflict);
      }
      if item.id == "" || item.id in seen || SeverityRank(item.severity) == 0 || !ValidState(item.state) ||
         item.action.None? {
        return Err(Conflict);
      }
      items, seen := items + [Decoded(item, name)], seen + {item.id};
    }
    return Ok(items);
  }

  method IsSorted(items: seq<Incident>) returns (sorted: bool)
    ensures sorted <==> Sorted(items)
  {
    hide Before;
    var i := |items| - 1;
    while i > 0
      invariant -1 <= i < |items|
      invariant forall j :: j > i && 0 < j < |items| ==> !Before(items[j], items[j - 1])
    {
      if Before(items[i], items[i - 1]) {
        return false;
      }
      i := i - 1;
    }
    NeighboursSorted(items);
    return true;
  }

  /** The distinct, sound, sorted items of an acceptable reply. */
  predicate SoundItems(raw: seq<RawItem>, name: string) {
    && (forall i :: 0 <= i < |raw| ==> SoundItem(raw[i], name))
    && (forall i, j :: 0 <= i < j < |raw| ==> raw[i].id != raw[j].id)
    && Sorted(AllDecoded(raw, name))
  }

  /** The page a reply decodes to, or why it is refused. */
  function Decode(raw: RawPage, name: string, now: int): Answer<OwnerPage> {
    if !SoundHeader(raw, name, now) then Err(Unavailable)
    else if !SoundTokens(raw) || !SoundItems(raw.items.value, name) then Err(Conflict)
    else Ok(OwnerPage(AllDecoded(raw.items.value, name), raw.cursor, raw.next, raw.snapshot, raw.digest,
                      raw.bookmarkProfile, raw.bookmark, raw.parent, raw.noProgress))
  }

  lemma DecodeIsSound(raw: RawPage, name: string, now: int)
    ensures Decode(raw, name, now).Ok? ==> SoundPage(Decode(raw, name, now).value, name)
  {
    hide ValidDigest, ValidState, SeverityRank, Sorted;
  }

  method DecodePage(raw: RawPage, name: string, now: int) returns (out: Answer<OwnerPage>)
    ensures out == Decode(raw, name, now)
  {
    hide ValidDigest, SoundItem, Sorted;
    if !SoundHeader(raw, name, now) {
      return Err(Unavailable);
    }
    if !SoundTokens(raw) {
      return Err(Conflict);
    }
    var decoded := DecodeItems(raw.items.value, name);
    if decoded.Err? {
      return Err(Conflict);
    }
    var items := decoded.value;
    var sorted := IsSorted(items);
    if !sorted {
      return Err(Conflict);
    }
    return Ok(OwnerPage(items, raw.cursor, raw.next, raw.snapshot, raw.digest, raw.bookmarkProfile, raw.bookmark,
                        raw.parent, raw.noProgress));
  }
}
