/**
 * `InstagramRepostBot` of repost_bot.py: the scan of the direct-message inbox
 * for shared reels (`find_reels_in_messages`) and the visible part of the
 * repost loop (`run`).  The client library is replaced by oracles: the
 * shortcode and media lookups, the inbox fetch, the download.
 */
module RepostBot {
  import opened PyValues
  import Shortcodes
  import MediaIds
  import opened Reels

  const MaxRepostsPerRun: nat := 3

  /** What `get_media_info_by_any_id` reports about a media: `str(id)`,
      `media_type` and the `code` attribute (None when missing). */
  datatype MediaInfo = MediaInfo(id: string, mediaType: int, code: Option<string>)

  /** The library lookups the scan makes.  Both methods catch every exception
      and return None instead, so each is a total function. */
  datatype Oracles = Oracles(
    shortcodeToMediaId: MediaIds.ShortcodeOracle,
    mediaInfo: Value -> Option<MediaInfo>)

  /** The share an item carries: the media id found and the `type` recorded. */
  datatype Share = Share(mediaId: Value, kind: ShareKind)

  function FieldOf(k: ShareKind): string {
    match k
    case ReelShare => "reel_share"
    case MediaShare => "media_share"
    case ClipShare => "clip"
    case LinkShare => "link"
  }

  /** The branch of the elif chain an item takes: the first of its
      `reel_share`, `media_share`, `clip` and `link` fields that is truthy. */
  function FirstShare(d: seq<(string, Value)>): Option<ShareKind> {
    if TruthyField(d, "reel_share") then Some(ReelShare)
    else if TruthyField(d, "media_share") then Some(MediaShare)
    else if TruthyField(d, "clip") then Some(ClipShare)
    else if TruthyField(d, "link") then Some(LinkShare)
    else None
  }

  /** Branch 1: `item['reel_share'].get('media', {}).get('id')`; a share or
      media that is not a dict has no `.get`. */
  function ReelShareId(share: Value): (r: Outcome<Value>)
    ensures r.Raised? <==> !share.Dict? || (HasKey(share.entries, "media") && !Lookup(share.entries, "media").value.Dict?)
    // a missing `media` defaults to {}, which has no id
    ensures r.Ok? && !HasKey(share.entries, "media") ==> r.value == Null
    ensures r.Ok? && HasKey(share.entries, "media") ==> r.value == Get(Lookup(share.entries, "media").value.entries, "id", Null)
  {
    if !share.Dict? then Raised
    else
      var media := Get(share.entries, "media", Dict([]));
      if !media.Dict? then Raised else Ok(Get(media.entries, "id", Null))
  }

  /** Branch 2: `item['media_share'].get('id')`.  The media type is only
      logged, so a photo share is taken as well. */
  function MediaShareId(share: Value): (r: Outcome<Value>)
    ensures r.Raised? <==> !share.Dict?
    ensures r.Ok? ==> (HasKey(share.entries, "id") ==> r.value == Lookup(share.entries, "id").value) &&
                      (!HasKey(share.entries, "id") ==> r.value == Null)
  {
    if !share.Dict? then Raised else Ok(Get(share.entries, "id", Null))
  }

  /** `'instagram.com' in v or 'instagr.am' in v` */
  function MentionsInstagram(v: Value): Outcome<bool> {
    match Contains(v, "instagram.com")
    case Raised => Raised
    case Ok(true) => Ok(true)
    case Ok(false) => Contains(v, "instagr.am")
  }

  /** A value of the clip dict the URL fallback resolves: a string naming an
      Instagram host, with a shortcode the oracle turns into a media id. */
  predicate FallbackHit(v: Value, toId: MediaIds.ShortcodeOracle) {
    && v.Str?
    && MentionsInstagram(v) == Ok(true)
    && match Shortcodes.ExtractShortcodeFromUrl(v)
       case Ok(Some(code)) => code != "" && Found(toId(Str(code)))
       case _ => false
  }

  /** The media id a hit resolves to (empty for a value that is no hit). */
  function FallbackId(v: Value, toId: MediaIds.ShortcodeOracle): string {
    match Shortcodes.ExtractShortcodeFromUrl(v)
    case Ok(Some(code)) => (match toId(Str(code)) case Some(id) => id case None => "")
    case _ => ""
  }

  /** The loop over `clip_data.items()` run when no media id was extracted:
      the id of the first hit, in dict order. */
  function ClipUrlFallback(entries: seq<(string, Value)>, toId: MediaIds.ShortcodeOracle): (r: Option<string>)
    ensures r.Some? ==> r.value != ""
    ensures r.None? <==> forall i :: 0 <= i < |entries| ==> !FallbackHit(entries[i].1, toId)
  {
    if entries == [] then None
    else if FallbackHit(entries[0].1, toId) then Some(FallbackId(entries[0].1, toId))
    else
      assert forall i :: 1 <= i < |entries| ==> entries[i] == entries[1..][i - 1];
      ClipUrlFallback(entries[1..], toId)
  }

  /** The fallback's id is that of the first hit in dict order. */
  lemma {:induction false} FallbackTakesFirstHit(entries: seq<(string, Value)>, toId: MediaIds.ShortcodeOracle)
    ensures ClipUrlFallback(entries, toId).Some? ==>
      exists i :: FirstFallbackHit(entries, i, toId) &&
                  ClipUrlFallback(entries, toId).value == FallbackId(entries[i].1, toId)
  {
    if entries == [] {
    } else if FallbackHit(entries[0].1, toId) {
      assert FirstFallbackHit(entries, 0, toId);
    } else if ClipUrlFallback(entries, toId).Some? {
      FallbackTakesFirstHit(entries[1..], toId);
      var i :| FirstFallbackHit(entries[1..], i, toId) &&
               ClipUrlFallback(entries[1..], toId).value == FallbackId(entries[1..][i].1, toId);
      assert forall j :: 1 <= j < |entries| ==> entries[j] == entries[1..][j - 1];
      assert FirstFallbackHit(entries, i + 1, toId);
    }
  }

  /** Entry i is a hit and none before it is. */
  ghost predicate FirstFallbackHit(entries: seq<(string, Value)>, i: int, toId: MediaIds.ShortcodeOracle) {
    0 <= i < |entries| && FallbackHit(entries[i].1, toId) &&
    forall j :: 0 <= j < i ==> !FallbackHit(entries[j].1, toId)
  }

  /** Branch 3: `extract_media_id_from_clip`, then the URL fallback when that
      gives nothing truthy.  None stands for the `continue`. */
  function ClipId(clip: Value, toId: MediaIds.ShortcodeOracle): (r: Outcome<Option<string>>)
    ensures r.Ok? ==> clip.Dict?
    ensures r.Ok? && r.value.Some? ==> r.value.value != ""
    ensures r.Raised? <==> MediaIds.ExtractMediaIdFromClip(clip, toId).Raised?
    // a truthy extracted id wins; only without one is the URL fallback run
    ensures r.Ok? && Found(MediaIds.ExtractMediaIdFromClip(clip, toId).value) ==>
      r.value == MediaIds.ExtractMediaIdFromClip(clip, toId).value
    ensures r.Ok? && !Found(MediaIds.ExtractMediaIdFromClip(clip, toId).value) ==>
      r.value == ClipUrlFallback(clip.entries, toId)
  {
    match MediaIds.ExtractMediaIdFromClip(clip, toId)
    case Raised => Raised
    case Ok(m) => if Found(m) then Ok(m) else Ok(ClipUrlFallback(clip.entries, toId))
  }

  /** Branch 4: `link_url or url`, then a shortcode, then the oracle.  The type
      is recorded (Some) only once a shortcode was found. */
  function LinkId(link: Value, toId: MediaIds.ShortcodeOracle): (r: Outcome<Option<Value>>)
    ensures !link.Dict? ==> r == Raised
    ensures link.Dict? && !Truthy(LinkUrl(link.entries)) ==> r == Ok(None)
    // a string URL never raises
    ensures link.Dict? && LinkUrl(link.entries).Str? ==> r.Ok?
    // a type is recorded exactly for an Instagram URL holding a shortcode,
    // with the oracle's answer for that shortcode as the id
    ensures r.Ok? && r.value.Some? <==>
      link.Dict? && Truthy(LinkUrl(link.entries)) && MentionsInstagram(LinkUrl(link.entries)) == Ok(true) &&
      MediaIds.ShortcodeIn(LinkUrl(link.entries)) != ""
    ensures r.Ok? && r.value.Some? ==>
      r.value.value == OptionValue(toId(Str(MediaIds.ShortcodeIn(LinkUrl(link.entries)))))
    // a truthy non-string raises in the `in` test (an int or a bool) or in
    // the regex search (a list or dict naming an Instagram host)
    ensures link.Dict? && Truthy(LinkUrl(link.entries)) && !LinkUrl(link.entries).Str? ==>
      (r.Raised? <==> MentionsInstagram(LinkUrl(link.entries)) != Ok(false))
  {
    if !link.Dict? then Raised
    else
      var url := LinkUrl(link.entries);
      if !Truthy(url) then Ok(None)
      else match MentionsInstagram(url)
        case Raised => Raised
        case Ok(false) => Ok(None)
        case Ok(true) =>
          match Shortcodes.ExtractShortcodeFromUrl(url)
          case Raised => Raised
          case Ok(None) => Ok(None)
          case Ok(Some(code)) =>
            if code == "" then Ok(None) else Ok(Some(OptionValue(toId(Str(code)))))
  }

  /** `link_data.get('link_url') or link_data.get('url')` */
  function LinkUrl(d: seq<(string, Value)>): Value {
    Or(Get(d, "link_url", Null), Get(d, "url", Null))
  }

  /** The elif chain of the scan: the share of the first truthy share field,
      or None when the item is skipped or no type was recorded. */
  function Classify(d: seq<(string, Value)>, o: Oracles): (r: Outcome<Option<Share>>)
    ensures FirstShare(d).None? ==> r == Ok(None)
    ensures r.Ok? && r.value.Some? ==> FirstShare(d) == Some(r.value.value.kind)
    ensures r.Ok? && r.value.Some? && r.value.value.kind == ClipShare ==> Truthy(r.value.value.mediaId)
    // branch 1: the reel's `media.id`, whatever it is
    ensures FirstShare(d) == Some(ReelShare) ==>
      && (r.Raised? <==> ReelShareId(Lookup(d, "reel_share").value).Raised?)
      && (r.Ok? ==> r.value == Some(Share(ReelShareId(Lookup(d, "reel_share").value).value, ReelShare)))
    // branch 2: the shared media's `id`
    ensures FirstShare(d) == Some(MediaShare) ==>
      && (r.Raised? <==> MediaShareId(Lookup(d, "media_share").value).Raised?)
      && (r.Ok? ==> r.value == Some(Share(MediaShareId(Lookup(d, "media_share").value).value, MediaShare)))
    // branch 3: the clip's id, or a skip
    ensures FirstShare(d) == Some(ClipShare) ==>
      && (r.Raised? <==> ClipId(Lookup(d, "clip").value, o.shortcodeToMediaId).Raised?)
      && (r.Ok? ==> (r.value.Some? <==> ClipId(Lookup(d, "clip").value, o.shortcodeToMediaId).value.Some?))
      && (r.Ok? && r.value.Some? ==>
            r.value.value == Share(Str(ClipId(Lookup(d, "clip").value, o.shortcodeToMediaId).value.value), ClipShare))
    // branch 4: the link's oracle id, once a shortcode was found
    ensures FirstShare(d) == Some(LinkShare) ==>
      && (r.Raised? <==> LinkId(Lookup(d, "link").value, o.shortcodeToMediaId).Raised?)
      && (r.Ok? ==> (r.value.Some? <==> LinkId(Lookup(d, "link").value, o.shortcodeToMediaId).value.Some?))
      && (r.Ok? && r.value.Some? ==>
            r.value.value == Share(LinkId(Lookup(d, "link").value, o.shortcodeToMediaId).value.value, LinkShare))
  {
    if TruthyField(d, "reel_share") then
      match ReelShareId(Lookup(d, "reel_share").value)
      case Raised => Raised
      case Ok(id) => Ok(Some(Share(id, ReelShare)))
    else if TruthyField(d, "media_share") then
      match MediaShareId(Lookup(d, "media_share").value)
      case Raised => Raised
      case Ok(id) => Ok(Some(Share(id, MediaShare)))
    else if TruthyField(d, "clip") then
      match ClipId(Lookup(d, "clip").value, o.shortcodeToMediaId)
      case Raised => Raised
      case Ok(None) => Ok(None)
      case Ok(Some(id)) => Ok(Some(Share(Str(id), ClipShare)))
    else if TruthyField(d, "link") then
      match LinkId(Lookup(d, "link").value, o.shortcodeToMediaId)
      case Raised => Raised
      case Ok(None) => Ok(None)
      case Ok(Some(id)) => Ok(Some(Share(id, LinkShare)))
    else Ok(None)
  }

  /** A record the scan may append: its item id was truthy and not yet
      processed; a verified record holds what the media lookup reported for
      some truthy id; an unverified one keeps `str(media_id)` and type 2. */
  ghost predicate Admitted(c: Candidate, processed: set<HashKey>, o: Oracles) {
    && c.itemId !in processed
    && Truthy(KeyValue(c.itemId))
    && (c.verified ==> exists v :: Truthy(v) && o.mediaInfo(v) == Some(MediaInfo(c.mediaId, c.mediaType, c.shortcode)))
    && (!c.verified ==> c.mediaType == 2 && c.shortcode == None && c.mediaId != "")
  }

  /** The record appended for a share with a truthy media id. */
  function MakeCandidate(itemId: HashKey, share: Share, timestamp: Value, info: Option<MediaInfo>): Candidate {
    match info
    case Some(m) => Candidate(itemId, m.id, m.mediaType, share.kind, timestamp, true, m.code)
    case None => Candidate(itemId, PyStr(share.mediaId), 2, share.kind, timestamp, false, None)
  }

  /** One pass of the item loop: None for `continue` or for an item without
      a truthy media id and type. */
  function ItemStep(item: Value, processed: set<HashKey>, o: Oracles): (r: Outcome<Option<Candidate>>)
    ensures !item.Dict? ==> r == Raised
    ensures item.Dict? && !Truthy(Get(item.entries, "item_id", Null)) ==> r == Ok(None)
    ensures item.Dict? && InSet(Get(item.entries, "item_id", Null), processed) == Ok(true) ==> r == Ok(None)
    ensures r.Ok? && r.value.Some? ==> Admitted(r.value.value, processed, o)
    ensures r.Ok? && r.value.Some? ==>
      && Hash(Get(item.entries, "item_id", Null)) == Some(r.value.value.itemId)
      && Some(r.value.value.kind) == FirstShare(item.entries)
      && r.value.value.timestamp == Get(item.entries, "timestamp", Int(0))
    // a truthy unhashable `item_id` raises in the membership test
    ensures item.Dict? && Truthy(Get(item.entries, "item_id", Null)) && Hash(Get(item.entries, "item_id", Null)).None? ==>
      r == Raised
    // an unprocessed item fails exactly when its classification does
    ensures Unprocessed(item, processed) ==> (r.Raised? <==> Classify(item.entries, o).Raised?)
    // and yields a record exactly when its share carries a truthy media id:
    // the lookup's details when it knows the id, else the id itself and type 2
    ensures Unprocessed(item, processed) && Classify(item.entries, o).Ok? ==>
      (r.Ok? && r.value.Some? <==>
         Classify(item.entries, o).value.Some? && Truthy(Classify(item.entries, o).value.value.mediaId))
    ensures Unprocessed(item, processed) && r.Ok? && r.value.Some? ==>
      var share := Classify(item.entries, o).value.value;
      var c := r.value.value;
      && c.kind == share.kind
      && (c.verified <==> o.mediaInfo(share.mediaId).Some?)
      && (c.verified ==> o.mediaInfo(share.mediaId) == Some(MediaInfo(c.mediaId, c.mediaType, c.shortcode)))
      && (!c.verified ==> c.mediaId == PyStr(share.mediaId) && c.mediaType == 2 && c.shortcode == None)
  {
    if !item.Dict? then Raised
    else
      var d := item.entries;
      var itemId := Get(d, "item_id", Null);
      if !Truthy(itemId) then Ok(None)
      else match InSet(itemId, processed)
        case Raised => Raised
        case Ok(true) => Ok(None)
        case Ok(false) =>
          match Classify(d, o)
          case Raised => Raised
          case Ok(None) => Ok(None)
          case Ok(Some(share)) =>
            if !Truthy(share.mediaId) then Ok(None)
            else
              var c := MakeCandidate(Hash(itemId).value, share, Get(d, "timestamp", Int(0)), o.mediaInfo(share.mediaId));
              TruthyKeyValue(itemId);
              Ok(Some(c))
  }

  /** An item whose `item_id` is truthy, hashable and not yet processed. */
  predicate Unprocessed(item: Value, processed: set<HashKey>) {
    item.Dict? && Truthy(Get(item.entries, "item_id", Null)) && InSet(Get(item.entries, "item_id", Null), processed) == Ok(false)
  }

  lemma TruthyKeyValue(v: Value)
    requires Truthy(v) && Hash(v).Some?
    ensures Truthy(KeyValue(Hash(v).value))
  {
  }

  function Maybe(c: Option<Candidate>): seq<Candidate> {
    if c.Some? then [c.value] else []
  }

  /** The item loop from the list built so far. */
  function ScanItems(items: seq<Value>, acc: seq<Candidate>, processed: set<HashKey>, o: Oracles): Outcome<seq<Candidate>>
    decreases |items|
  {
    if items == [] then Ok(acc)
    else match ItemStep(items[0], processed, o)
      case Raised => Raised
      case Ok(c) => ScanItems(items[1..], acc + Maybe(c), processed, o)
  }

  /** `thread.get('thread_id', ...)` and `thread.get('items', [])`, iterated. */
  function ThreadItems(thread: Value): Outcome<seq<Value>> {
    if !thread.Dict? then Raised else Iterate(Get(thread.entries, "items", List([])))
  }

  /** The rest of the thread loop once an item loop ended with `scanned`. */
  function Continue(scanned: Outcome<seq<Candidate>>, threads: seq<Value>, processed: set<HashKey>, o: Oracles): Outcome<seq<Candidate>>
    decreases |threads|, 1
  {
    match scanned
    case Raised => Raised
    case Ok(acc) => ScanThreads(threads, acc, processed, o)
  }

  /** The thread loop from the list built so far. */
  function ScanThreads(threads: seq<Value>, acc: seq<Candidate>, processed: set<HashKey>, o: Oracles): Outcome<seq<Candidate>>
    decreases |threads|, 0
  {
    if threads == [] then Ok(acc)
    else match ThreadItems(threads[0])
      case Raised => Raised
      case Ok(items) => Continue(ScanItems(items, acc, processed, o), threads[1..], processed, o)
  }

  /** The `reels` list before sorting, in the order the items were found. */
  function Collected(threads: Value, processed: set<HashKey>, o: Oracles): Outcome<seq<Candidate>> {
    if !Truthy(threads) then Ok([])
    else match Iterate(threads)
      case Raised => Raised
      case Ok(ts) => ScanThreads(ts, [], processed, o)
  }

  lemma {:induction false} ScanItemsAdmits(items: seq<Value>, acc: seq<Candidate>, processed: set<HashKey>, o: Oracles)
    requires forall i :: 0 <= i < |acc| ==> Admitted(acc[i], processed, o)
    ensures ScanItems(items, acc, processed, o).Ok? ==>
      forall i :: 0 <= i < |ScanItems(items, acc, processed, o).value| ==>
        Admitted(ScanItems(items, acc, processed, o).value[i], processed, o)
    decreases |items|
  {
    if items != [] {
      var step := ItemStep(items[0], processed, o);
      if step.Ok? {
        ScanItemsAdmits(items[1..], acc + Maybe(step.value), processed, o);
      }
    }
  }

  lemma {:induction false} ScanThreadsAdmits(threads: seq<Value>, acc: seq<Candidate>, processed: set<HashKey>, o: Oracles)
    requires forall i :: 0 <= i < |acc| ==> Admitted(acc[i], processed, o)
    ensures ScanThreads(threads, acc, processed, o).Ok? ==>
      forall i :: 0 <= i < |ScanThreads(threads, acc, processed, o).value| ==>
        Admitted(ScanThreads(threads, acc, processed, o).value[i], processed, o)
    decreases |threads|
  {
    if threads != [] && ThreadItems(threads[0]).Ok? {
      var items := ThreadItems(threads[0]).value;
      ScanItemsAdmits(items, acc, processed, o);
      var scanned := ScanItems(items, acc, processed, o);
      if scanned.Ok? {
        ScanThreadsAdmits(threads[1..], scanned.value, processed, o);
      }
    }
  }

  /** `find_reels_in_messages`: the records of all admitted items, sorted
      newest first.  No item id is ever looked up in anything but the
      processed set, and the only exceptions are those of malformed input. */
  function FindReels(threads: Value, processed: set<HashKey>, o: Oracles): (r: Outcome<seq<Candidate>>)
    ensures !Truthy(threads) ==> r == Ok([])
    ensures r.Ok? ==> forall i :: 0 <= i < |r.value| ==> Admitted(r.value[i], processed, o)
    ensures r.Ok? ==> NewestFirst(r.value)
    ensures r.Ok? ==> (
      && Collected(threads, processed, o).Ok?
      && multiset(r.value) == multiset(Collected(threads, processed, o).value)
      && forall k :: WithKey(r.value, k) == WithKey(Collected(threads, processed, o).value, k))
    ensures r.Raised? <==> (
      || Collected(threads, processed, o).Raised?
      || (|Collected(threads, processed, o).value| >= 2 && !Comparable(Collected(threads, processed, o).value)))
  {
    CollectedAdmits(threads, processed, o);
    match Collected(threads, processed, o)
    case Raised => Raised
    case Ok(reels) =>
      SortKeepsAdmitted(reels, processed, o);
      SortNewestFirst(reels)
  }

  lemma CollectedAdmits(threads: Value, processed: set<HashKey>, o: Oracles)
    ensures Collected(threads, processed, o).Ok? ==>
      forall i :: 0 <= i < |Collected(threads, processed, o).value| ==>
        Admitted(Collected(threads, processed, o).value[i], processed, o)
  {
    if Truthy(threads) && Iterate(threads).Ok? {
      ScanThreadsAdmits(Iterate(threads).value, [], processed, o);
    }
  }

  lemma SortKeepsAdmitted(reels: seq<Candidate>, processed: set<HashKey>, o: Oracles)
    requires forall i :: 0 <= i < |reels| ==> Admitted(reels[i], processed, o)
    ensures SortNewestFirst(reels).Ok? ==>
      forall i :: 0 <= i < |SortNewestFirst(reels).value| ==> Admitted(SortNewestFirst(reels).value[i], processed, o)
  {
    var r := SortNewestFirst(reels);
    if r.Ok? {
      forall i | 0 <= i < |r.value| ensures Admitted(r.value[i], processed, o) {
        assert r.value[i] in multiset(reels);
        var j :| 0 <= j < |reels| && reels[j] == r.value[i];
      }
    }
  }

  /** Only the first truthy share field of an item is examined: two items
      that agree on which field that is and on its value classify alike,
      whatever their other share fields hold. */
  lemma OnlyFirstShareFieldMatters(d1: seq<(string, Value)>, d2: seq<(string, Value)>, o: Oracles)
    requires FirstShare(d1) == FirstShare(d2)
    requires FirstShare(d1).Some? ==> Lookup(d1, FieldOf(FirstShare(d1).value)) == Lookup(d2, FieldOf(FirstShare(d1).value))
    ensures Classify(d1, o) == Classify(d2, o)
  {
  }

  /** A clip item is skipped exactly when neither the clip lookups nor the
      URL fallback yield a truthy id. */
  lemma ClipSkippedExactly(d: seq<(string, Value)>, o: Oracles)
    requires FirstShare(d) == Some(ClipShare) && Classify(d, o).Ok?
    ensures Lookup(d, "clip").value.Dict?
    ensures Classify(d, o).value.None? <==>
      && !Found(MediaIds.ExtractMediaIdFromClip(Lookup(d, "clip").value, o.shortcodeToMediaId).value)
      && forall i :: 0 <= i < |Lookup(d, "clip").value.entries| ==>
           !FallbackHit(Lookup(d, "clip").value.entries[i].1, o.shortcodeToMediaId)
  {
  }

  /** Index of the first record whose download gives a path, or the length
      when every download fails. */
  function FirstDownloaded(reels: seq<Candidate>, download: (string, int) -> Option<string>): (k: nat)
    ensures k <= |reels|
    ensures forall j :: 0 <= j < k ==> !Found(download(reels[j].mediaId, reels[j].mediaType))
    ensures k < |reels| ==> Found(download(reels[k].mediaId, reels[k].mediaType))
  {
    if reels == [] || Found(download(reels[0].mediaId, reels[0].mediaType)) then 0
    else 1 + FirstDownloaded(reels[1..], download)
  }

  function ItemKeys(reels: seq<Candidate>): set<HashKey> {
    set i | 0 <= i < |reels| :: reels[i].itemId
  }

  /** How the visible part of `run` ends.  The upload branch past the first
      successful download is not part of the source text. */
  datatype RunResult =
    | LoginFailed
    | NoThreads
    | ScanFailed
    | NoReels
    | QuotaReached
    | AllDownloadsFailed
    | UploadReached(index: nat, path: string)

  class InstagramRepostBot {
    /** `self.processed_ids` */
    var processedIds: set<HashKey>
    /** The contents of the processed-reels file. */
    var savedIds: set<HashKey>

    constructor(loaded: set<HashKey>)
      ensures processedIds == loaded && savedIds == loaded
    {
      processedIds := loaded;
      savedIds := loaded;
    }

    /** `save_processed_ids` */
    method SaveProcessedIds()
      modifies this
      ensures processedIds == old(processedIds) && savedIds == processedIds
    {
      savedIds := processedIds;
    }

    /** One pass of the item loop of `find_reels_in_messages`. */
    method ScanItem(item: Value, o: Oracles) returns (r: Outcome<Option<Candidate>>)
      ensures r == ItemStep(item, processedIds, o)
    {
      if !item.Dict? { return Raised; }
      var d := item.entries;
      var itemId := Get(d, "item_id", Null);
      if !Truthy(itemId) { return Ok(None); }
      var seen := InSet(itemId, processedIds);
      if seen.Raised? { return Raised; }
      if seen.value { return Ok(None); }
      var mediaId: Value := Null;
      var kind: Option<ShareKind> := None;
      if TruthyField(d, "reel_share") {
        var id := ReelShareId(Lookup(d, "reel_share").value);
        if id.Raised? { return Raised; }
        mediaId, kind := id.value, Some(ReelShare);
      } else if TruthyField(d, "media_share") {
        var id := MediaShareId(Lookup(d, "media_share").value);
        if id.Raised? { return Raised; }
        mediaId, kind := id.value, Some(MediaShare);
      } else if TruthyField(d, "clip") {
        var clip := Lookup(d, "clip").value;
        kind := Some(ClipShare);
        var extracted := MediaIds.ExtractMediaIdFromClip(clip, o.shortcodeToMediaId);
        if extracted.Raised? { return Raised; }
        var found := extracted.value;
        if !Found(found) {
          found := ClipFallback(clip.entries, found, o.shortcodeToMediaId);
          if !Found(found) { return Ok(None); }
        }
        mediaId := Str(found.value);
      } else if TruthyField(d, "link") {
        var id := LinkId(Lookup(d, "link").value, o.shortcodeToMediaId);
        if id.Raised? { return Raised; }
        if id.value.Some? {
          mediaId, kind := id.value.value, Some(LinkShare);
        }
      }
      if Truthy(mediaId) && kind.Some? {
        var share := Share(mediaId, kind.value);
        var c := MakeCandidate(Hash(itemId).value, share, Get(d, "timestamp", Int(0)), o.mediaInfo(mediaId));
        return Ok(Some(c));
      }
      return Ok(None);
    }

    /** The loop over `clip_data.items()`: each string naming an Instagram
        host with a shortcode is looked up, the result overwriting the media
        id, until one is truthy. */
    static method ClipFallback(entries: seq<(string, Value)>, initial: Option<string>, toId: MediaIds.ShortcodeOracle)
      returns (mediaId: Option<string>)
      requires !Found(initial)
      ensures Found(mediaId) <==> ClipUrlFallback(entries, toId).Some?
      ensures Found(mediaId) ==> mediaId == ClipUrlFallback(entries, toId)
    {
      mediaId := initial;
      var k := 0;
      while k < |entries|
        invariant 0 <= k <= |entries|
        invariant !Found(mediaId)
        invariant ClipUrlFallback(entries[k..], toId) == ClipUrlFallback(entries, toId)
      {
        var value := entries[k].1;
        if value.Str? && MentionsInstagram(value) == Ok(true) {
          var shortcode := Shortcodes.ExtractShortcodeFromUrl(value);
          if shortcode.Ok? && shortcode.value.Some? && shortcode.value.value != "" {
            mediaId := toId(Str(shortcode.value.value));
            if Found(mediaId) {
              assert FallbackHit(value, toId);
              return;
            }
          }
        }
        assert entries[k..][1..] == entries[k + 1..];
        k := k + 1;
      }
    }

    /** `find_reels_in_messages`.  It changes nothing: in particular the
        processed ids are only read. */
    method FindReelsInMessages(threads: Value, o: Oracles) returns (r: Outcome<seq<Candidate>>)
      ensures r == FindReels(threads, processedIds, o)
    {
      var reels: seq<Candidate> := [];
      if !Truthy(threads) { return Ok(reels); }
      var ts := Iterate(threads);
      if ts.Raised? { return Raised; }
      var t := 0;
      while t < |ts.value|
        invariant 0 <= t <= |ts.value|
        invariant ScanThreads(ts.value[t..], reels, processedIds, o) == Collected(threads, processedIds, o)
      {
        var thread := ts.value[t];
        var items := ThreadItems(thread);
        if items.Raised? { return Raised; }
        var i := 0;
        while i < |items.value|
          invariant 0 <= i <= |items.value|
          invariant Continue(ScanItems(items.value[i..], reels, processedIds, o), ts.value[t + 1..], processedIds, o)
                    == Collected(threads, processedIds, o)
        {
          var c := ScanItem(items.value[i], o);
          if c.Raised? { return Raised; }
          reels := reels + Maybe(c.value);
          assert items.value[i..][1..] == items.value[i + 1..];
          i := i + 1;
        }
        assert ts.value[t..][1..] == ts.value[t + 1..];
        t := t + 1;
      }
      r := SortNewestFirst(reels);
    }

    /** The visible part of `run`: fetch, scan, then download the records in
        order, until the quota is reached or a download succeeds; a failed
        download marks its item processed. */
    method Run(loggedIn: bool, threads: Value, o: Oracles, download: (string, int) -> Option<string>)
      returns (result: RunResult)
      modifies this
      ensures old(processedIds) <= processedIds
      ensures !loggedIn ==> result == LoginFailed && processedIds == old(processedIds) && savedIds == old(savedIds)
      ensures loggedIn && !Truthy(threads) ==>
        result == NoThreads && processedIds == old(processedIds) && savedIds == processedIds
      ensures loggedIn && Truthy(threads) && FindReels(threads, old(processedIds), o).Raised? ==>
        result == ScanFailed && processedIds == old(processedIds) && savedIds == old(savedIds)
      ensures loggedIn && Truthy(threads) && FindReels(threads, old(processedIds), o) == Ok([]) ==>
        result == NoReels && processedIds == old(processedIds) && savedIds == processedIds
      ensures loggedIn && Truthy(threads) && FindReels(threads, old(processedIds), o).Ok? &&
              FindReels(threads, old(processedIds), o).value != [] ==>
        var reels := FindReels(threads, old(processedIds), o).value;
        var k := FirstDownloaded(reels, download);
        && processedIds == old(processedIds) + ItemKeys(reels[..k])
        && savedIds == old(savedIds)
        && result == (if k < |reels| then UploadReached(k, download(reels[k].mediaId, reels[k].mediaType).value)
                      else AllDownloadsFailed)
    {
      if !loggedIn { return LoginFailed; }
      if !Truthy(threads) {
        SaveProcessedIds();
        return NoThreads;
      }
      var found := FindReelsInMessages(threads, o);
      if found.Raised? { return ScanFailed; }
      var reels := found.value;
      if reels == [] {
        SaveProcessedIds();
        return NoReels;
      }
      result := RepostLoop(reels, download);
    }

    /** The loop over the sorted records, up to the upload of the first one
        downloaded.  The quota is checked before every download; the count
        stays 0 in the visible code, whose increment lies past its end. */
    method RepostLoop(reels: seq<Candidate>, download: (string, int) -> Option<string>) returns (result: RunResult)
      modifies this
      ensures var k := FirstDownloaded(reels, download);
        && processedIds == old(processedIds) + ItemKeys(reels[..k])
        && savedIds == old(savedIds)
        && result == (if k < |reels| then UploadReached(k, download(reels[k].mediaId, reels[k].mediaType).value)
                      else AllDownloadsFailed)
    {
      var processedCount := 0;
      var i := 0;
      while i < |reels|
        invariant 0 <= i <= |reels|
        invariant processedCount == 0
        invariant forall j :: 0 <= j < i ==> !Found(download(reels[j].mediaId, reels[j].mediaType))
        invariant processedIds == old(processedIds) + ItemKeys(reels[..i])
        invariant savedIds == old(savedIds)
      {
        if processedCount >= MaxRepostsPerRun {
          return QuotaReached;
        }
        var reel := reels[i];
        var reelPath := download(reel.mediaId, reel.mediaType);
        if !Found(reelPath) {
          processedIds := processedIds + {reel.itemId};
          assert ItemKeys(reels[..i + 1]) == ItemKeys(reels[..i]) + {reel.itemId} by {
            assert reels[..i + 1] == reels[..i] + [reel];
          }
          i := i + 1;
          continue;
        }
        FirstDownloadedAt(reels, download, i);
        return UploadReached(i, reelPath.value);
      }
      FirstDownloadedAt(reels, download, i);
      return AllDownloadsFailed;
    }
  }

  /** The first success is at i when every earlier download failed and the
      one at i succeeds (or i is the end). */
  lemma FirstDownloadedAt(reels: seq<Candidate>, download: (string, int) -> Option<string>, i: nat)
    requires i <= |reels|
    requires forall j :: 0 <= j < i ==> !Found(download(reels[j].mediaId, reels[j].mediaType))
    requires i < |reels| ==> Found(download(reels[i].mediaId, reels[i].mediaType))
    ensures FirstDownloaded(reels, download) == i
  {
  }
}
