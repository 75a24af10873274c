/** Owner replies in plain terms: which ones are used, and what is taken from them. */
module OwnerReplies {
  import opened Options
  import opened IncidentOrder
  import opened IncidentMerge
  import opened CursorFrames
  import opened OwnerPages
  import opened CursorComposer
  import opened TableEffects

  /** A whole, current, unrecorded reply of the expected kind. */
  predicate Usable(raw: RawPage, name: string, now: int) {
    && raw.items.Some? && |raw.items.value| <= 100 && raw.partial == Some(false) && !raw.recorded
    && raw.priorityProfile == "ouf.incident-priority.v1" && raw.cursorProfile == "ouf.incident-owner-cursor.v1"
    && Digest(raw.digest) && (name == "INGESTION" ==> now <= raw.snapshotExpires)
    && (name != "INGESTION" ==> now <= raw.expires)
  }

  /** It names its page, its snapshot and, exactly when it is truncated, another page after a full one. */
  predicate Navigable(raw: RawPage) {
    && raw.cursor.Token? && raw.cursor.id > 0 && raw.snapshot.Token? && raw.snapshot.id > 0
    && raw.items.Some?
    && if raw.truncated then raw.next.Token? && raw.next.id > 0 && raw.next != raw.cursor && |raw.items.value| == 100
       else raw.next == NoToken
  }

  /** An incident of the owner with the published fields only. */
  predicate Legible(item: RawItem, name: string) {
    && item.RawItem? && item.id != "" && item.action != None && (item.module_ == None || item.module_ == Some(name))
    && item.severity in {"CRITICAL", "ERROR", "WARNING", "INFO"} && item.state in {"OPEN", "RECOVERING", "RESOLVED"}
    && item.fields <= {
      "incident_id", "module", "event_type", "lifecycle_state", "severity", "first_seen_at", "last_seen_at",
      "resolved_at", "correlation_id", "endpoint_ref", "error_code", "impact_summary", "action_required",
      "dedup_key", "occurrence_count", "visibility_class", "job_ref", "source_ref", "authorization_decision_ref"}
  }

  predicate AllLegible(raw: seq<RawItem>, name: string) {
    && (forall i :: 0 <= i < |raw| ==> Legible(raw[i], name))
    && forall i, j :: 0 <= i < |raw| && 0 <= j < |raw| && raw[i].id == raw[j].id ==> i == j
  }

  /** The incident as its owner described it. */
  predicate Transcribed(raw: RawItem, item: Incident, name: string) {
    && raw.RawItem? && item.module_ == name && item.id == raw.id && item.state == raw.state
    && item.severity == raw.severity && (item.action <==> raw.action == Some(true)) && item.time == raw.time
    && item.rest == raw.rest
  }

  predicate AllTranscribed(raw: seq<RawItem>, items: seq<Incident>, name: string) {
    |items| == |raw| && forall i :: 0 <= i < |raw| ==> Transcribed(raw[i], items[i], name)
  }

  lemma ItemMeans(raw: RawItem, name: string)
    ensures SoundItem(raw, name) <==> Legible(raw, name)
  {
  }

  lemma ItemsMean(raw: seq<RawItem>, name: string)
    ensures SoundItems(raw, name) <==> AllLegible(raw, name) && Sorted(AllDecoded(raw, name))
    ensures AllLegible(raw, name) ==> AllTranscribed(raw, AllDecoded(raw, name), name)
  {
    hide SoundItem, Legible, Sorted;
    forall i | 0 <= i < |raw| ensures SoundItem(raw[i], name) <==> Legible(raw[i], name) {
      ItemMeans(raw[i], name);
    }
    forall i | 0 <= i < |raw| && Legible(raw[i], name) ensures Transcribed(raw[i], Decoded(raw[i], name), name) {
      ItemTranscribed(raw[i], name);
    }
  }

  lemma ItemTranscribed(raw: RawItem, name: string)
    requires Legible(raw, name)
    ensures Transcribed(raw, Decoded(raw, name), name)
  {
  }

  lemma OneTranscript(raw: seq<RawItem>, a: seq<Incident>, b: seq<Incident>, name: string)
    requires AllTranscribed(raw, a, name) && AllTranscribed(raw, b, name)
    ensures a == b
  {
    forall i | 0 <= i < |raw| ensures a[i] == b[i] {
      assert Transcribed(raw[i], a[i], name) && Transcribed(raw[i], b[i], name);
    }
  }

  lemma PrioritisedIsSorted(raw: seq<RawItem>, items: seq<Incident>, name: string)
    requires AllLegible(raw, name) && AllTranscribed(raw, items, name) && Prioritised(items)
    ensures Sorted(items)
  {
    hide MayPrecede, Before;
    forall i, j | 0 <= i < j < |items| ensures !Before(items[j], items[i]) {
      assert Legible(raw[i], name) && Legible(raw[j], name);
      assert Transcribed(raw[i], items[i], name) && Transcribed(raw[j], items[j], name);
      OrderMeans(items[i], items[j]);
    }
  }

  lemma HeaderMeans(raw: RawPage, name: string, now: int)
    ensures SoundHeader(raw, name, now) <==> Usable(raw, name, now)
  {
    hide Digest, ValidDigest;
    DigestMeans(raw.digest);
  }

  lemma TokensMean(raw: RawPage)
    requires raw.items.Some?
    ensures SoundTokens(raw) <==> Navigable(raw)
  {
  }

  /** The page keeps what the reply said about itself. */
  predicate Keeps(raw: RawPage, page: OwnerPage) {
    && page.cursor == raw.cursor && page.next == raw.next && page.snapshot == raw.snapshot && page.digest == raw.digest
    && page.profile == raw.bookmarkProfile && page.bookmark == raw.bookmark && page.parent == raw.parent
    && page.noProgress == raw.noProgress
  }

  /** A reply is used exactly when it is usable, navigable and legible with its incidents in priority order; the page
      then holds these incidents as described. An unusable one counts as no answer, any other as a conflict. */
  lemma DecodeExactly(raw: RawPage, name: string, now: int, items: seq<Incident>)
    requires raw.items.Some? && AllLegible(raw.items.value, name) ==> AllTranscribed(raw.items.value, items, name)
    ensures var out := Decode(raw, name, now);
            && (out.Ok? <==>
                  && Usable(raw, name, now) && Navigable(raw) && AllLegible(raw.items.value, name)
                  && Prioritised(items))
            && (out.Ok? ==> out.value.items == items && Keeps(raw, out.value))
            && (out.Err? ==> out.error == if Usable(raw, name, now) then Conflict else Unavailable)
  {
    hide SoundHeader, SoundTokens, SoundItems, Usable, Navigable, AllLegible, AllTranscribed, AllDecoded, Sorted,
      Prioritised;
    HeaderMeans(raw, name, now);
    if Usable(raw, name, now) {
      HasItems(raw, name, now);
      TokensMean(raw);
      ItemsMean(raw.items.value, name);
      if AllLegible(raw.items.value, name) {
        OneTranscript(raw.items.value, items, AllDecoded(raw.items.value, name), name);
        if Prioritised(items) {
          PrioritisedIsSorted(raw.items.value, items, name);
        }
        if Sorted(items) {
          SortedMeans(items);
        }
      }
    }
  }

  lemma HasItems(raw: RawPage, name: string, now: int)
    requires Usable(raw, name, now)
    ensures raw.items.Some?
  {
  }

  // ---- Publication reads.

  /** The bookmark comes with the owner's last page: it continues the prior one, and tells whether anything moved. */
  predicate Bookmarked(page: OwnerPage, prior: Token) {
    && page.profile == "ouf.owner-publication-bookmark.v1" && Proper(page.cursor) && Proper(page.snapshot)
    && if page.next == NoToken then
         Proper(page.bookmark) && page.parent == prior && page.noProgress == Some(page.bookmark == prior)
       else
         Proper(page.next) && page.bookmark == NoToken && page.parent == NoToken && page.noProgress == None
  }

  lemma PublicationPageMeans(page: OwnerPage, f: CursorFrame, name: string)
    requires ValidFrame(f) && f.coverage && name in {"GATEWAY", "INGESTION"}
    ensures ValidPublicationPage(page, f, name) <==> Bookmarked(page, PriorBookmark(f.base, name))
  {
    hide CanonicalPosition, PublicationFilters, ValidPosition, ValidQuery, ValidOwnerCoverage;
    assert |GATEWAY| != |INGESTION|;
    if f.base.Some? {
      var owners := f.base.value.owners;
      assert BookmarkOf(owners, INGESTION) == BookmarkOf(owners[1..], INGESTION);
    }
  }
}
