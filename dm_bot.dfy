/**
 * `InstagramBot` of bot.py: the processed-message file capped at 1000 ids,
 * the choice of what in a direct message can be reposted and with which URL
 * and caption, and the message loop of `process_messages` with its repost
 * limit.  Client objects (messages, media) are attribute maps: `hasattr` is
 * key presence.  The fetch of the threads and the uploads are oracles.
 */
module DmBot {
  import opened PyValues

  const MaxStored: nat := 1000
  const MaxRepostsPerRun: nat := 5
  const MessagesPerThread: nat := 10
  const DefaultCaption: string := "\U{1F4F1} Shared via DM"

  // ------------------------------------------------------- processed file

  /** The processed-messages file: absent, not valid JSON (or unreadable),
      or a JSON value. */
  datatype StoredFile = Missing | Unreadable | Json(content: Value)

  /** `set(json.load(f))`, or the empty set when there is no file or anything
      fails: a non-iterable value or an unhashable element raises inside the
      `try`. */
  function LoadProcessed(f: StoredFile): (r: set<HashKey>)
    ensures !f.Json? ==> r == {}
    ensures f.Json? && Iterate(f.content).Raised? ==> r == {}
    ensures f.Json? && f.content.List? && (exists i :: 0 <= i < |f.content.elems| && Hash(f.content.elems[i]).None?) ==>
      r == {}
  {
    if !f.Json? then {}
    else match Iterate(f.content)
      case Ok(es) =>
        if forall i :: 0 <= i < |es| ==> Hash(es[i]).Some? then
          set i | 0 <= i < |es| && Hash(es[i]).Some? :: Hash(es[i]).value
        else {}
      case Raised => {}
  }

  /** `set(l)` */
  function ToSet<T>(l: seq<T>): set<T> {
    set i | 0 <= i < |l| :: l[i]
  }

  lemma ToSetConcat<T>(a: seq<T>, b: seq<T>)
    ensures ToSet(a + b) == ToSet(a) + ToSet(b)
  {
    forall x | x in ToSet(a + b) ensures x in ToSet(a) + ToSet(b) {
      var i :| 0 <= i < |a + b| && (a + b)[i] == x;
      if i >= |a| { assert b[i - |a|] == x; }
    }
    forall x | x in ToSet(a) ensures x in ToSet(a + b) {
      var i :| 0 <= i < |a| && a[i] == x;
      assert (a + b)[i] == x;
    }
    forall x | x in ToSet(b) ensures x in ToSet(a + b) {
      var i :| 0 <= i < |b| && b[i] == x;
      assert (a + b)[|a| + i] == x;
    }
  }

  lemma ToSetSingleton<T>(x: T)
    ensures ToSet([x]) == {x}
  {
    assert [x][0] == x;
  }

  predicate Distinct(l: seq<HashKey>) {
    forall i, j :: 0 <= i < j < |l| ==> l[i] != l[j]
  }

  /** `list(s)`: some order of s's elements, each once. */
  predicate Enumerates(l: seq<HashKey>, s: set<HashKey>) {
    Distinct(l) && ToSet(l) == s
  }

  /** `json.dump(l)` of a list of ids. */
  function Encode(l: seq<HashKey>): (r: seq<Value>)
    ensures |r| == |l|
    // each stored value hashes back to the id it was written from
    ensures forall i :: 0 <= i < |l| ==> Hash(r[i]) == Some(l[i])
  {
    seq(|l|, i requires 0 <= i < |l| => KeyValue(l[i]))
  }

  /** Loading a file written from a list gives back that list's set. */
  lemma StoredSetRoundTrip(l: seq<HashKey>)
    ensures LoadProcessed(Json(List(Encode(l)))) == ToSet(l)
  {
    var es := Encode(l);
    assert forall i :: 0 <= i < |es| ==> Hash(es[i]) == Some(l[i]);
    forall x ensures x in LoadProcessed(Json(List(es))) <==> x in ToSet(l) {
      if x in ToSet(l) {
        var i :| 0 <= i < |l| && l[i] == x;
        assert Hash(es[i]).value == x;
      }
    }
  }

  lemma {:induction false} DistinctCard(l: seq<HashKey>)
    requires Distinct(l)
    ensures |ToSet(l)| == |l|
  {
    if l != [] {
      var init := l[..|l| - 1];
      DistinctCard(init);
      assert ToSet(l) == ToSet(init) + {l[|l| - 1]};
      assert l[|l| - 1] !in ToSet(init);
    }
  }

  /** Every finite set can be listed. */
  lemma {:induction false} EnumerationExists(s: set<HashKey>)
    ensures exists l :: Enumerates(l, s)
    decreases |s|
  {
    if s == {} {
      assert Enumerates([], s);
    } else {
      var x :| x in s;
      EnumerationExists(s - {x});
      var l :| Enumerates(l, s - {x});
      ToSetConcat(l, [x]);
      ToSetSingleton(x);
      assert Enumerates(l + [x], s);
    }
  }

  /** `list(processed)[-1000:]` */
  function Prune(l: seq<HashKey>): (r: seq<HashKey>)
    ensures |r| == if |l| > MaxStored then MaxStored else |l|
    // the kept ids are the last ones, in order
    ensures r == l[|l| - |r|..]
  {
    if |l| > MaxStored then l[|l| - MaxStored..] else l
  }

  /** Pruning a list of distinct ids keeps at most 1000 of them and adds
      none. */
  lemma PruneKeepsLast(l: seq<HashKey>)
    requires Distinct(l)
    ensures Distinct(Prune(l))
    ensures ToSet(Prune(l)) <= ToSet(l)
    ensures |ToSet(Prune(l))| == if |l| > MaxStored then MaxStored else |l|
  {
    var r := Prune(l);
    if |l| > MaxStored {
      forall x | x in ToSet(r) ensures x in ToSet(l) {
        var i :| 0 <= i < |r| && r[i] == x;
        assert l[|l| - MaxStored + i] == x;
      }
    }
    DistinctCard(r);
  }

  /** Beyond 1000 entries the set's own order decides what survives: for
      some listing order the id just added is among the entries dropped. */
  lemma PruneMayDropNewest(old_ids: set<HashKey>, id: HashKey)
    requires |old_ids + {id}| > MaxStored
    ensures exists l :: Enumerates(l, old_ids + {id}) && id !in ToSet(Prune(l))
  {
    var rest := old_ids - {id};
    EnumerationExists(rest);
    var l :| Enumerates(l, rest);
    var all := ListedFirst(id, l, rest);
    assert old_ids + {id} == rest + {id};
    DistinctCard(all);
    HeadDropped(all);
  }

  /** Listing id ahead of an enumeration of a set without it. */
  lemma ListedFirst(id: HashKey, l: seq<HashKey>, rest: set<HashKey>) returns (all: seq<HashKey>)
    requires Enumerates(l, rest) && id !in rest
    ensures all == [id] + l && Enumerates(all, rest + {id})
  {
    all := [id] + l;
    ToSetConcat([id], l);
    ToSetSingleton(id);
    forall i, j | 0 <= i < j < |all| ensures all[i] != all[j] {
      if i > 0 { assert all[i] == l[i - 1] && all[j] == l[j - 1]; }
      else { assert all[j] == l[j - 1]; assert l[j - 1] in ToSet(l); }
    }
  }

  /** Beyond 1000 entries the head of the listing is dropped. */
  lemma HeadDropped(all: seq<HashKey>)
    requires Distinct(all) && |all| > MaxStored
    ensures all[0] !in ToSet(Prune(all))
  {
    forall i | 0 <= i < |Prune(all)| ensures Prune(all)[i] != all[0] {
      assert Prune(all)[i] == all[|all| - MaxStored + i];
    }
  }

  lemma SubsetCard(a: set<HashKey>, b: set<HashKey>)
    requires a <= b
    ensures |a| <= |b|
    ensures |a| == |b| ==> a == b
  {
    assert b == a + (b - a);
    assert a * (b - a) == {};
  }

  // ------------------------------------------------------------ content

  datatype ContentKind = Reel | Photo

  /** An object's attributes. */
  type Attrs = seq<(string, Value)>

  /** `hasattr(v, name) and v.name` for a value that may not be an object. */
  predicate TruthyAttr(v: Value, name: string) {
    v.Dict? && TruthyField(v.entries, name)
  }

  predicate HasAttr(v: Value, name: string) {
    v.Dict? && HasKey(v.entries, name)
  }

  function Attr(v: Value, name: string): Value
    requires HasAttr(v, name)
  {
    Lookup(v.entries, name).value
  }

  /** `is_repostable_content`: `clip_media`, then `visual_media`, then a
      `media_share` carrying a video (reel) or else a thumbnail (photo).
      Every check is an attribute test, so the guarding `try` never fires. */
  function IsRepostableContent(msg: Attrs): (r: Option<(ContentKind, Value)>)
    ensures r.Some? ==> Truthy(r.value.1)
    ensures TruthyField(msg, "clip_media") ==> r == Some((Reel, Lookup(msg, "clip_media").value))
    ensures !TruthyField(msg, "clip_media") && TruthyField(msg, "visual_media") ==>
      r == Some((Photo, Lookup(msg, "visual_media").value))
    // a shared media is a reel when it has a video, else a photo when it has a thumbnail
    ensures !TruthyField(msg, "clip_media") && !TruthyField(msg, "visual_media") && TruthyField(msg, "media_share") &&
            TruthyAttr(Lookup(msg, "media_share").value, "video_url") ==>
      r == Some((Reel, Lookup(msg, "media_share").value))
    ensures !TruthyField(msg, "clip_media") && !TruthyField(msg, "visual_media") && TruthyField(msg, "media_share") &&
            !TruthyAttr(Lookup(msg, "media_share").value, "video_url") &&
            TruthyAttr(Lookup(msg, "media_share").value, "thumbnail_url") ==>
      r == Some((Photo, Lookup(msg, "media_share").value))
    ensures r.None? <==>
      && !TruthyField(msg, "clip_media")
      && !TruthyField(msg, "visual_media")
      && !(TruthyField(msg, "media_share") &&
           (TruthyAttr(Lookup(msg, "media_share").value, "video_url") ||
            TruthyAttr(Lookup(msg, "media_share").value, "thumbnail_url")))
  {
    if TruthyField(msg, "clip_media") then Some((Reel, Lookup(msg, "clip_media").value))
    else if TruthyField(msg, "visual_media") then Some((Photo, Lookup(msg, "visual_media").value))
    else if TruthyField(msg, "media_share") then
      var media := Lookup(msg, "media_share").value;
      if TruthyAttr(media, "video_url") then Some((Reel, media))
      else if TruthyAttr(media, "thumbnail_url") then Some((Photo, media))
      else None
    else None
  }

  /** The `image_versions2` fallback for a photo without `thumbnail_url`:
      `image_versions2.get('candidates', [])[0].get('url')`.  A non-dict
      versions value, a non-list candidates value or a first candidate that
      is not a dict raises. */
  function FirstCandidateUrl(versions: Value): (r: Outcome<Value>)
    ensures !versions.Dict? ==> r.Raised?
    // a missing `candidates` defaults to [], whose emptiness is tested first
    ensures versions.Dict? && !HasKey(versions.entries, "candidates") ==> r == Ok(Null)
    ensures versions.Dict? && HasKey(versions.entries, "candidates") ==>
      var c := Lookup(versions.entries, "candidates").value;
      && (r.Raised? <==> Truthy(c) && (!c.List? || !c.elems[0].Dict?))
      && (!Truthy(c) ==> r == Ok(Null))
      && (r.Ok? && Truthy(c) ==> c.List? && r.value == Get(c.elems[0].entries, "url", Null))
  {
    if !versions.Dict? then Raised
    else
      var candidates := Get(versions.entries, "candidates", List([]));
      if !Truthy(candidates) then Ok(Null)
      else if !candidates.List? then Raised
      else if !candidates.elems[0].Dict? then Raised
      else Ok(Get(candidates.elems[0].entries, "url", Null))
  }

  /** The photo URL: `thumbnail_url` whenever the attribute exists, however
      empty; the version candidates only without it. */
  function PhotoUrl(media: Value): Outcome<Value> {
    if HasAttr(media, "thumbnail_url") then Ok(Attr(media, "thumbnail_url"))
    else if TruthyAttr(media, "image_versions2") then FirstCandidateUrl(Attr(media, "image_versions2"))
    else Ok(Null)
  }

  /** The URL and caption `repost_content` uploads with, or None when it
      returns False before uploading. */
  function UploadRequest(kind: ContentKind, media: Value, captionText: Value): (r: Option<(Value, Value)>)
    ensures r.Some? ==> Truthy(r.value.0)
    ensures r.Some? ==> r.value.1 == (if Truthy(captionText) then captionText else Str(DefaultCaption))
    ensures kind == Reel ==> (r.Some? <==> TruthyAttr(media, "video_url"))
    ensures kind == Reel && r.Some? ==> r.value.0 == Attr(media, "video_url")
    ensures kind == Photo && HasAttr(media, "thumbnail_url") ==>
      (r.Some? <==> Truthy(Attr(media, "thumbnail_url"))) &&
      (r.Some? ==> r.value.0 == Attr(media, "thumbnail_url"))
  {
    var caption := Or(captionText, Str(DefaultCaption));
    match kind
    case Reel =>
      if TruthyAttr(media, "video_url") then Some((Attr(media, "video_url"), caption)) else None
    case Photo =>
      match PhotoUrl(media)
      case Raised => None
      case Ok(url) => if Truthy(url) then Some((url, caption)) else None
  }

  /** `clip_upload_by_url` / `photo_upload_by_url`: true when the call
      returns, false when it raises. */
  type Uploader = (ContentKind, Value, Value) -> bool

  /** `repost_content`: True exactly when there is a URL and the upload
      returns. */
  function RepostContent(kind: ContentKind, media: Value, captionText: Value, upload: Uploader): (r: bool)
    ensures r <==> UploadRequest(kind, media, captionText).Some? &&
                   upload(kind, UploadRequest(kind, media, captionText).value.0,
                          UploadRequest(kind, media, captionText).value.1)
    // a reel uploads its `video_url`, and only a truthy one
    ensures kind == Reel ==>
      (r <==> TruthyAttr(media, "video_url") &&
              upload(Reel, Attr(media, "video_url"), Or(captionText, Str(DefaultCaption))))
    // a photo with a `thumbnail_url` attribute uploads it, and an empty one
    // returns False without trying the version candidates
    ensures kind == Photo && HasAttr(media, "thumbnail_url") ==>
      (r <==> Truthy(Attr(media, "thumbnail_url")) &&
              upload(Photo, Attr(media, "thumbnail_url"), Or(captionText, Str(DefaultCaption))))
    // without one it uploads the first version candidate's URL
    ensures kind == Photo && !HasAttr(media, "thumbnail_url") && !TruthyAttr(media, "image_versions2") ==> !r
    ensures kind == Photo && !HasAttr(media, "thumbnail_url") && TruthyAttr(media, "image_versions2") ==>
      var url := FirstCandidateUrl(Attr(media, "image_versions2"));
      (r <==> url.Ok? && Truthy(url.value) && upload(Photo, url.value, Or(captionText, Str(DefaultCaption))))
  {
    match UploadRequest(kind, media, captionText)
    case None => false
    case Some((url, caption)) => upload(kind, url, caption)
  }

  /** A shared media is only ever classified with the URL its upload needs:
      its repost reaches the upload call. */
  lemma SharedMediaHasUploadUrl(msg: Attrs, captionText: Value)
    requires !TruthyField(msg, "clip_media") && !TruthyField(msg, "visual_media")
    requires IsRepostableContent(msg).Some?
    ensures UploadRequest(IsRepostableContent(msg).value.0, IsRepostableContent(msg).value.1, captionText).Some?
  {
  }

  // -------------------------------------------------------- message loop

  /** What the message loop has done so far: the reposts made, the ids
      passed to `save_processed_message`, in call order, and whether it
      returned at the repost limit. */
  datatype Tally = Tally(reposts: nat, saved: seq<string>, stopped: bool)

  /** `str(message.id)`, None when the attribute is missing (the
      AttributeError skips the message). */
  function MessageId(msg: Attrs): Option<string> {
    if HasKey(msg, "id") then Some(PyStr(Lookup(msg, "id").value)) else None
  }

  /** `getattr(message, 'text', '') or ''` */
  function CaptionOf(msg: Attrs): Value {
    Or(Get(msg, "text", Str("")), Str(""))
  }

  /** One pass of the message loop. */
  function MessageStep(msg: Attrs, snapshot: set<HashKey>, upload: Uploader, t: Tally): Tally
    requires !t.stopped
  {
    match MessageId(msg)
    case None => t
    case Some(id) =>
      if HStr(id) in snapshot then t else Record(t, id, Reposted(msg, upload))
  }

  /** `content_type and media` and `repost_content(...)` both succeed. */
  predicate Reposted(msg: Attrs, upload: Uploader) {
    match IsRepostableContent(msg)
    case Some((kind, media)) => RepostContent(kind, media, CaptionOf(msg), upload)
    case None => false
  }

  /** The bookkeeping after visiting a new message: a repost counts and
      saves, and either returns at the limit or falls through to the save
      every visited message gets. */
  function Record(t: Tally, id: string, reposted: bool): Tally {
    if !reposted then Tally(t.reposts, t.saved + [id], false)
    else if t.reposts + 1 >= MaxRepostsPerRun then Tally(t.reposts + 1, t.saved + [id], true)
    else Tally(t.reposts + 1, t.saved + [id] + [id], false)
  }

  function MessagesFold(msgs: seq<Attrs>, snapshot: set<HashKey>, upload: Uploader, t: Tally): Tally
    decreases |msgs|
  {
    if msgs == [] || t.stopped then t
    else MessagesFold(msgs[1..], snapshot, upload, MessageStep(msgs[0], snapshot, upload, t))
  }

  /** `thread.messages[:10]` */
  function FirstMessages(msgs: seq<Attrs>): (r: seq<Attrs>)
    ensures |r| <= MessagesPerThread && r <= msgs
    ensures |r| == if |msgs| > MessagesPerThread then MessagesPerThread else |msgs|
  {
    if |msgs| > MessagesPerThread then msgs[..MessagesPerThread] else msgs
  }

  function ThreadsFold(threads: seq<seq<Attrs>>, snapshot: set<HashKey>, upload: Uploader, t: Tally): Tally
    decreases |threads|
  {
    if threads == [] || t.stopped then t
    else ThreadsFold(threads[1..], snapshot, upload, MessagesFold(FirstMessages(threads[0]), snapshot, upload, t))
  }

  /** The messages the loop can visit, thread by thread. */
  function Visible(threads: seq<seq<Attrs>>): seq<Attrs> {
    if threads == [] then [] else FirstMessages(threads[0]) + Visible(threads[1..])
  }

  lemma {:induction false} MessagesFoldConcat(a: seq<Attrs>, b: seq<Attrs>, snapshot: set<HashKey>, upload: Uploader, t: Tally)
    ensures MessagesFold(a + b, snapshot, upload, t) ==
            MessagesFold(b, snapshot, upload, MessagesFold(a, snapshot, upload, t))
    decreases |a|
  {
    if a == [] {
      assert a + b == b;
    } else if !t.stopped {
      assert (a + b)[1..] == a[1..] + b;
      MessagesFoldConcat(a[1..], b, snapshot, upload, MessageStep(a[0], snapshot, upload, t));
    } else {
      if b != [] {}
    }
  }

  /** The nested loops visit exactly the first ten messages of every thread,
      in order. */
  lemma {:induction false} ThreadsFoldVisitsVisible(threads: seq<seq<Attrs>>, snapshot: set<HashKey>, upload: Uploader, t: Tally)
    ensures ThreadsFold(threads, snapshot, upload, t) == MessagesFold(Visible(threads), snapshot, upload, t)
    decreases |threads|
  {
    if threads != [] {
      MessagesFoldConcat(FirstMessages(threads[0]), Visible(threads[1..]), snapshot, upload, t);
      if !t.stopped {
        ThreadsFoldVisitsVisible(threads[1..], snapshot, upload,
          MessagesFold(FirstMessages(threads[0]), snapshot, upload, t));
      } else {
        MessagesFoldStopped(Visible(threads), snapshot, upload, t);
        MessagesFoldStopped(Visible(threads[1..]), snapshot, upload, t);
      }
    }
  }

  lemma MessagesFoldStopped(msgs: seq<Attrs>, snapshot: set<HashKey>, upload: Uploader, t: Tally)
    requires t.stopped
    ensures MessagesFold(msgs, snapshot, upload, t) == t
  {
  }

  /** The ids of the visible messages the snapshot does not hold. */
  ghost function Eligible(msgs: seq<Attrs>, snapshot: set<HashKey>): set<string> {
    set i | 0 <= i < |msgs| && MessageId(msgs[i]).Some? && HStr(MessageId(msgs[i]).value) !in snapshot ::
      MessageId(msgs[i]).value
  }

  /** A tally the loop can reach: under the limit while running, at it once
      stopped. */
  predicate Consistent(t: Tally) {
    if t.stopped then t.reposts == MaxRepostsPerRun else t.reposts < MaxRepostsPerRun
  }

  /** The id a message contributes to Eligible, if any. */
  function StepEligible(msg: Attrs, snapshot: set<HashKey>): set<string> {
    if MessageId(msg).Some? && HStr(MessageId(msg).value) !in snapshot then {MessageId(msg).value} else {}
  }

  lemma EligibleCons(msgs: seq<Attrs>, snapshot: set<HashKey>)
    requires msgs != []
    ensures Eligible(msgs, snapshot) == StepEligible(msgs[0], snapshot) + Eligible(msgs[1..], snapshot)
  {
    forall x | x in Eligible(msgs[1..], snapshot) ensures x in Eligible(msgs, snapshot) {
      var i :| 0 <= i < |msgs[1..]| && MessageId(msgs[1..][i]).Some? &&
               HStr(MessageId(msgs[1..][i]).value) !in snapshot && MessageId(msgs[1..][i]).value == x;
      assert msgs[i + 1] == msgs[1..][i];
    }
    forall x | x in Eligible(msgs, snapshot) ensures x in StepEligible(msgs[0], snapshot) + Eligible(msgs[1..], snapshot) {
      var i :| 0 <= i < |msgs| && MessageId(msgs[i]).Some? &&
               HStr(MessageId(msgs[i]).value) !in snapshot && MessageId(msgs[i]).value == x;
      if i > 0 { assert msgs[1..][i - 1] == msgs[i]; }
    }
  }

  /** One visit keeps the tally consistent and saves exactly the message's
      eligible id. */
  lemma StepSaves(msg: Attrs, snapshot: set<HashKey>, upload: Uploader, t: Tally)
    requires Consistent(t) && !t.stopped
    ensures Consistent(MessageStep(msg, snapshot, upload, t))
    ensures MessageStep(msg, snapshot, upload, t).reposts >= t.reposts
    ensures t.saved <= MessageStep(msg, snapshot, upload, t).saved
    ensures ToSet(MessageStep(msg, snapshot, upload, t).saved) == ToSet(t.saved) + StepEligible(msg, snapshot)
  {
    var t1 := MessageStep(msg, snapshot, upload, t);
    var added := t1.saved[|t.saved|..];
    assert t1.saved == t.saved + added;
    ToSetConcat(t.saved, added);
    if StepEligible(msg, snapshot) == {} {
      assert added == [];
    } else {
      var id := MessageId(msg).value;
      assert added == [id] || added == [id, id];
      assert added[0] == id;
      assert ToSet(added) == {id};
    }
  }

  /** Over any stretch of messages: the limit holds, only eligible ids are
      saved, and unless the loop stopped every eligible id is saved. */
  lemma {:induction false} MessagesFoldSaves(msgs: seq<Attrs>, snapshot: set<HashKey>, upload: Uploader, t: Tally)
    requires Consistent(t)
    ensures Consistent(MessagesFold(msgs, snapshot, upload, t))
    ensures MessagesFold(msgs, snapshot, upload, t).reposts >= t.reposts
    ensures ToSet(MessagesFold(msgs, snapshot, upload, t).saved) <= ToSet(t.saved) + Eligible(msgs, snapshot)
    ensures t.saved <= MessagesFold(msgs, snapshot, upload, t).saved
    ensures !MessagesFold(msgs, snapshot, upload, t).stopped ==>
      Eligible(msgs, snapshot) <= ToSet(MessagesFold(msgs, snapshot, upload, t).saved)
    decreases |msgs|
  {
    if msgs != [] && !t.stopped {
      var t1 := MessageStep(msgs[0], snapshot, upload, t);
      StepSaves(msgs[0], snapshot, upload, t);
      EligibleCons(msgs, snapshot);
      MessagesFoldSaves(msgs[1..], snapshot, upload, t1);
      assert MessagesFold(msgs, snapshot, upload, t) == MessagesFold(msgs[1..], snapshot, upload, t1);
      if t1.stopped {
        MessagesFoldStopped(msgs[1..], snapshot, upload, t1);
      }
    }
  }

  /** `process_messages` from its start: at most five reposts, only ids of
      visible messages outside the snapshot are saved, and a run that does
      not stop at the limit saves every one of them, reposted or not. */
  lemma ProcessedMessagesSaved(threads: seq<seq<Attrs>>, snapshot: set<HashKey>, upload: Uploader)
    ensures ThreadsFold(threads, snapshot, upload, Tally(0, [], false)).reposts <= MaxRepostsPerRun
    ensures ThreadsFold(threads, snapshot, upload, Tally(0, [], false)).stopped ==>
      ThreadsFold(threads, snapshot, upload, Tally(0, [], false)).reposts == MaxRepostsPerRun
    ensures ToSet(ThreadsFold(threads, snapshot, upload, Tally(0, [], false)).saved) <= Eligible(Visible(threads), snapshot)
    ensures !ThreadsFold(threads, snapshot, upload, Tally(0, [], false)).stopped ==>
      ToSet(ThreadsFold(threads, snapshot, upload, Tally(0, [], false)).saved) == Eligible(Visible(threads), snapshot)
  {
    ThreadsFoldVisitsVisible(threads, snapshot, upload, Tally(0, [], false));
    MessagesFoldSaves(Visible(threads), snapshot, upload, Tally(0, [], false));
  }

  /** What the processed file holds after the saves: at most what it held
      plus the ids saved; every saved id when that fits in 1000 entries. */
  ghost predicate FileTracks(f: StoredFile, start: set<HashKey>, saved: seq<string>) {
    Tracks(LoadProcessed(f), start, Keys(saved), saved != [])
  }

  ghost predicate Tracks(loaded: set<HashKey>, start: set<HashKey>, keys: set<HashKey>, anySaved: bool) {
    && loaded <= start + keys
    && (anySaved ==> |loaded| <= MaxStored)
    && (|start + keys| <= MaxStored ==> loaded == start + keys)
  }

  /** One more save keeps the loaded set tracking the saved ids. */
  lemma TracksAfterSave(l0: set<HashKey>, l1: set<HashKey>, start: set<HashKey>, keys: set<HashKey>, anySaved: bool, h: HashKey)
    requires Tracks(l0, start, keys, anySaved)
    requires l1 <= l0 + {h}
    requires |l1| <= MaxStored
    requires |l0 + {h}| <= MaxStored ==> l1 == l0 + {h}
    ensures Tracks(l1, start, keys + {h}, true)
  {
    if |start + (keys + {h})| <= MaxStored {
      SubsetCard(start + keys, start + (keys + {h}));
      SubsetCard(l0 + {h}, start + (keys + {h}));
    }
  }

  lemma KeysAppend(saved: seq<string>, id: string)
    ensures Keys(saved + [id]) == Keys(saved) + {HStr(id)}
  {
    forall x | x in Keys(saved + [id]) ensures x in Keys(saved) + {HStr(id)} {
      var i :| 0 <= i < |saved + [id]| && HStr((saved + [id])[i]) == x;
      if i < |saved| { assert (saved + [id])[i] == saved[i]; }
    }
    forall x | x in Keys(saved) ensures x in Keys(saved + [id]) {
      var i :| 0 <= i < |saved| && HStr(saved[i]) == x;
      assert (saved + [id])[i] == saved[i];
    }
    assert (saved + [id])[|saved|] == id;
  }

  ghost function Keys(saved: seq<string>): set<HashKey> {
    set i | 0 <= i < |saved| :: HStr(saved[i])
  }

  class InstagramBot {
    /** The processed-messages file. */
    var processedFile: StoredFile

    constructor(f: StoredFile)
      ensures processedFile == f
    {
      processedFile := f;
    }

    /** `save_processed_message`: load, add the id, keep the last 1000 of the
        set's listing, write the list back. */
    method SaveProcessedMessage(id: string)
      modifies this
      ensures LoadProcessed(processedFile) <= LoadProcessed(old(processedFile)) + {HStr(id)}
      ensures |LoadProcessed(processedFile)| ==
        if |LoadProcessed(old(processedFile)) + {HStr(id)}| > MaxStored then MaxStored
        else |LoadProcessed(old(processedFile)) + {HStr(id)}|
      ensures |LoadProcessed(old(processedFile)) + {HStr(id)}| <= MaxStored ==>
        LoadProcessed(processedFile) == LoadProcessed(old(processedFile)) + {HStr(id)}
    {
      var processed := LoadProcessed(processedFile) + {HStr(id)};
      EnumerationExists(processed);
      var listed :| Enumerates(listed, processed);
      DistinctCard(listed);
      var kept := Prune(listed);
      PruneKeepsLast(listed);
      EnumerationExists(ToSet(kept));
      var written :| Enumerates(written, ToSet(kept));
      processedFile := Json(List(Encode(written)));
      StoredSetRoundTrip(written);
      SubsetCard(ToSet(kept), processed);
    }

    /** `process_messages`.  `threads` is what `direct_threads` returned (a
        list of threads, each its message list), None when it raised. */
    method ProcessMessages(threads: Option<seq<seq<Attrs>>>, upload: Uploader) returns (newReposts: nat)
      modifies this
      ensures threads.None? ==> newReposts == 0 && processedFile == old(processedFile)
      ensures threads.Some? ==>
        var t := ThreadsFold(threads.value, LoadProcessed(old(processedFile)), upload, Tally(0, [], false));
        newReposts == t.reposts && FileTracks(processedFile, LoadProcessed(old(processedFile)), t.saved)
    {
      if threads.None? { return 0; }
      var ts := threads.value;
      var processedMessages := LoadProcessed(processedFile);
      ghost var start := processedMessages;
      ghost var saved: seq<string> := [];
      ghost var goal := ThreadsFold(ts, processedMessages, upload, Tally(0, [], false));
      newReposts := 0;
      var k := 0;
      while k < |ts|
        invariant 0 <= k <= |ts|
        invariant newReposts < MaxRepostsPerRun
        invariant ThreadsFold(ts[k..], processedMessages, upload, Tally(newReposts, saved, false)) == goal
        invariant FileTracks(processedFile, start, saved)
      {
        var stop;
        newReposts, saved, stop := VisitThread(FirstMessages(ts[k]), processedMessages, upload, newReposts, start, saved);
        if stop {
          StoppedThreads(ts[k + 1..], processedMessages, upload, Tally(newReposts, saved, true));
          return;
        }
        assert ts[k..][1..] == ts[k + 1..];
        k := k + 1;
      }
    }

    /** The inner loop over one thread's first messages, up to the
        repost limit. */
    method VisitThread(messages: seq<Attrs>, snapshot: set<HashKey>, upload: Uploader, reposts: nat,
                       ghost start: set<HashKey>, ghost saved: seq<string>)
      returns (newReposts: nat, ghost nowSaved: seq<string>, stop: bool)
      modifies this
      requires reposts < MaxRepostsPerRun
      requires FileTracks(processedFile, start, saved)
      ensures Tally(newReposts, nowSaved, stop) == MessagesFold(messages, snapshot, upload, Tally(reposts, saved, false))
      ensures !stop ==> newReposts < MaxRepostsPerRun
      ensures FileTracks(processedFile, start, nowSaved)
    {
      newReposts, nowSaved, stop := reposts, saved, false;
      ghost var goal := MessagesFold(messages, snapshot, upload, Tally(reposts, saved, false));
      var m := 0;
      while m < |messages|
        invariant 0 <= m <= |messages|
        invariant newReposts < MaxRepostsPerRun
        invariant MessagesFold(messages[m..], snapshot, upload, Tally(newReposts, nowSaved, false)) == goal
        invariant FileTracks(processedFile, start, nowSaved)
      {
        assert messages[m..][1..] == messages[m + 1..];
        newReposts, nowSaved, stop := VisitMessage(messages[m], snapshot, upload, newReposts, start, nowSaved);
        if stop {
          MessagesFoldStopped(messages[m + 1..], snapshot, upload, Tally(newReposts, nowSaved, true));
          return;
        }
        m := m + 1;
      }
    }

    method VisitMessage(message: Attrs, snapshot: set<HashKey>, upload: Uploader, reposts: nat,
                        ghost start: set<HashKey>, ghost saved: seq<string>)
      returns (newReposts: nat, ghost nowSaved: seq<string>, stop: bool)
      modifies this
      requires reposts < MaxRepostsPerRun
      requires FileTracks(processedFile, start, saved)
      ensures Tally(newReposts, nowSaved, stop) == MessageStep(message, snapshot, upload, Tally(reposts, saved, false))
      ensures !stop ==> newReposts < MaxRepostsPerRun
      ensures FileTracks(processedFile, start, nowSaved)
    {
      newReposts, nowSaved, stop := reposts, saved, false;
      var messageId := MessageId(message);
      if messageId.None? { return; }
      var id := messageId.value;
      if HStr(id) in snapshot { return; }
      var reposted := TryRepost(message, upload);
      NewMessageStep(message, snapshot, upload, Tally(reposts, saved, false), id);
      if reposted {
        newReposts := newReposts + 1;
        SaveOne(id, start, nowSaved);
        nowSaved := nowSaved + [id];
        if newReposts >= MaxRepostsPerRun {
          stop := true;
          return;
        }
      }
      SaveOne(id, start, nowSaved);
      nowSaved := nowSaved + [id];
    }

    /** The body of the loop's `try`: classify the message, then repost
        what it shares with its text as caption. */
    method TryRepost(message: Attrs, upload: Uploader) returns (reposted: bool)
      ensures reposted == Reposted(message, upload)
    {
      var content := IsRepostableContent(message);
      reposted := false;
      if content.Some? {
        var caption := CaptionOf(message);
        reposted := RepostContent(content.value.0, content.value.1, caption, upload);
      }
    }

    /** One save keeps the file tracking the saved ids. */
    method SaveOne(id: string, ghost start: set<HashKey>, ghost saved: seq<string>)
      modifies this
      requires FileTracks(processedFile, start, saved)
      ensures FileTracks(processedFile, start, saved + [id])
    {
      ghost var loaded := LoadProcessed(processedFile);
      SaveProcessedMessage(id);
      KeysAppend(saved, id);
      TracksAfterSave(loaded, LoadProcessed(processedFile), start, Keys(saved), saved != [], HStr(id));
    }
  }

  /** A new message's step is the bookkeeping of its repost decision. */
  lemma NewMessageStep(msg: Attrs, snapshot: set<HashKey>, upload: Uploader, t: Tally, id: string)
    requires !t.stopped && MessageId(msg) == Some(id) && HStr(id) !in snapshot
    ensures MessageStep(msg, snapshot, upload, t) == Record(t, id, Reposted(msg, upload))
  {
  }

  lemma StoppedThreads(threads: seq<seq<Attrs>>, snapshot: set<HashKey>, upload: Uploader, t: Tally)
    requires t.stopped
    ensures ThreadsFold(threads, snapshot, upload, t) == t
  {
  }
}
