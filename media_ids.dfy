/**
 * `extract_media_id_from_clip`: seven lookups over an untyped clip dictionary,
 * tried in a fixed order, the first hit winning:
 *   1. `id` (suffix after `_` dropped)   2. `pk`   3. `code`, through the shortcode oracle
 *   4. `id`/`pk`/`media_id`/`fbid` of a nested `clip` dict (suffix dropped)
 *   5. a shortcode in `permalink`/`url`/`video_url`/`thumbnail_url`, through the oracle
 *   6. `fbid`   7. the first key naming an id or pk whose value is a str or int (suffix dropped).
 */
module MediaIds {
  import opened PyValues
  import Shortcodes

  const NestedIdFields: seq<string> := ["id", "pk", "media_id", "fbid"]

  const UrlFields: seq<string> := ["permalink", "url", "video_url", "thumbnail_url"]

  /** `shortcode_to_media_id`: the media id the client reports for a shortcode,
      or None when the lookup raises (the method catches every exception). */
  type ShortcodeOracle = Value -> Option<string>

  /** Lookup 4: the first of the fields present, as `str(v).split('_')[0]`. */
  function FirstPresentField(d: seq<(string, Value)>, fields: seq<string>): (r: Option<string>)
    ensures r.Some? ==> '_' !in r.value
    ensures r.None? <==> forall f :: f in fields ==> !HasKey(d, f)
    ensures r.Some? ==> exists i :: FirstPresent(d, fields, i) && r.value == UpToUnderscore(PyStr(Lookup(d, fields[i]).value))
  {
    if fields == [] then None
    else if HasKey(d, fields[0]) then
      assert FirstPresent(d, fields, 0);
      Some(UpToUnderscore(PyStr(Lookup(d, fields[0]).value)))
    else
      FirstPresentShift(d, fields);
      FirstPresentField(d, fields[1..])
  }

  /** fields[i] is present in d and no field before it is. */
  ghost predicate FirstPresent(d: seq<(string, Value)>, fields: seq<string>, i: int) {
    0 <= i < |fields| && HasKey(d, fields[i]) && forall j :: 0 <= j < i ==> !HasKey(d, fields[j])
  }

  lemma FirstPresentShift(d: seq<(string, Value)>, fields: seq<string>)
    requires fields != [] && !HasKey(d, fields[0])
    ensures forall i :: FirstPresent(d, fields[1..], i) ==> FirstPresent(d, fields, i + 1)
  {
    forall i | FirstPresent(d, fields[1..], i) ensures FirstPresent(d, fields, i + 1) {
      assert forall j :: 1 <= j <= i ==> fields[j] == fields[1..][j - 1];
    }
  }

  /** The nested `clip` value when it is a dict. */
  function NestedClip(d: seq<(string, Value)>): Option<seq<(string, Value)>> {
    match Lookup(d, "clip")
    case Some(Dict(nested)) => Some(nested)
    case _ => None
  }

  /** The shortcode found in a URL value, or "" when there is none. */
  function ShortcodeIn(v: Value): string {
    match Shortcodes.ExtractShortcodeFromUrl(v)
    case Ok(Some(code)) => code
    case _ => ""
  }

  /** A URL field that lookup 5 passes over: absent or falsy, or a string
      without a shortcode, or one whose shortcode the oracle cannot resolve. */
  predicate UrlMiss(d: seq<(string, Value)>, f: string, toId: ShortcodeOracle) {
    !TruthyField(d, f) ||
    match Shortcodes.ExtractShortcodeFromUrl(Lookup(d, f).value)
    case Raised => false
    case Ok(None) => true
    case Ok(Some(code)) => code == "" || !Found(toId(Str(code)))
  }

  /** fields[i] is the first URL field lookup 5 does not pass over. */
  ghost predicate FirstUrlHit(d: seq<(string, Value)>, fields: seq<string>, i: int, toId: ShortcodeOracle) {
    0 <= i < |fields| && !UrlMiss(d, fields[i], toId) && forall j :: 0 <= j < i ==> UrlMiss(d, fields[j], toId)
  }

  /** Lookup 5 over the URL fields in order.  A truthy field that is not a
      string makes `re.search` raise a TypeError, which nothing catches. */
  function UrlFieldsId(d: seq<(string, Value)>, fields: seq<string>, toId: ShortcodeOracle): Outcome<Option<string>> {
    if fields == [] then Ok(None)
    else if TruthyField(d, fields[0]) then
      match Shortcodes.ExtractShortcodeFromUrl(Lookup(d, fields[0]).value)
      case Raised => Raised
      case Ok(None) => UrlFieldsId(d, fields[1..], toId)
      case Ok(Some(code)) =>
        if code != "" && Found(toId(Str(code))) then Ok(toId(Str(code)))
        else UrlFieldsId(d, fields[1..], toId)
    else UrlFieldsId(d, fields[1..], toId)
  }

  /** The first field lookup 5 does not pass over decides it: a string gives
      the oracle's id for its shortcode, anything else raises; with no such
      field the lookup finds nothing. */
  lemma {:induction false} UrlFieldsIdFirstHit(d: seq<(string, Value)>, fields: seq<string>, toId: ShortcodeOracle)
    ensures UrlFieldsId(d, fields, toId) == Ok(None) <==> forall f :: f in fields ==> UrlMiss(d, f, toId)
    ensures UrlFieldsId(d, fields, toId).Raised? <==>
      exists i :: FirstUrlHit(d, fields, i, toId) && !Lookup(d, fields[i]).value.Str?
    ensures UrlFieldsId(d, fields, toId).Ok? && UrlFieldsId(d, fields, toId).value.Some? ==>
      exists i :: FirstUrlHit(d, fields, i, toId) && Lookup(d, fields[i]).value.Str? &&
                  UrlFieldsId(d, fields, toId).value == toId(Str(ShortcodeIn(Lookup(d, fields[i]).value)))
    ensures UrlFieldsId(d, fields, toId).Ok? && UrlFieldsId(d, fields, toId).value.Some? ==>
      Found(UrlFieldsId(d, fields, toId).value)
  {
    if fields != [] {
      var f := fields[0];
      assert forall x :: x in fields ==> x == f || x in fields[1..];
      if UrlMiss(d, f, toId) {
        UrlFieldsIdFirstHit(d, fields[1..], toId);
        assert UrlFieldsId(d, fields, toId) == UrlFieldsId(d, fields[1..], toId);
        UrlHitShift(d, fields, toId);
      } else {
        assert FirstUrlHit(d, fields, 0, toId);
        assert forall i :: FirstUrlHit(d, fields, i, toId) ==> i == 0;
      }
    }
  }

  lemma UrlHitShift(d: seq<(string, Value)>, fields: seq<string>, toId: ShortcodeOracle)
    requires fields != [] && UrlMiss(d, fields[0], toId)
    ensures forall i :: FirstUrlHit(d, fields[1..], i, toId) <==> FirstUrlHit(d, fields, i + 1, toId)
    ensures !FirstUrlHit(d, fields, 0, toId)
  {
    forall i ensures FirstUrlHit(d, fields[1..], i, toId) <==> FirstUrlHit(d, fields, i + 1, toId) {
      assert forall j :: 1 <= j < |fields| ==> fields[j] == fields[1..][j - 1];
    }
  }

  /** `'id' in key.lower() or 'pk' in key.lower()` */
  predicate IdLikeKey(key: string) {
    IsSubstring("id", LowerAscii(key)) || IsSubstring("pk", LowerAscii(key))
  }

  /** `isinstance(v, (str, int))`; a bool is an int in Python. */
  predicate IsStrOrInt(v: Value) {
    v.Str? || v.Int? || v.Bool?
  }

  /** An entry lookup 7 accepts. */
  predicate IdLikeEntry(e: (string, Value)) {
    IdLikeKey(e.0) && IsStrOrInt(e.1)
  }

  /** d[i] is the first entry lookup 7 accepts. */
  ghost predicate FirstIdLike(d: seq<(string, Value)>, i: int) {
    0 <= i < |d| && IdLikeEntry(d[i]) && forall j :: 0 <= j < i ==> !IdLikeEntry(d[j])
  }

  /** Lookup 7: the first entry, in dict order, with an id-like key and a
      str or int value, as `str(v).split('_')[0]`. */
  function IdLikeScan(d: seq<(string, Value)>): (r: Option<string>)
    ensures r.Some? ==> '_' !in r.value
    ensures r.None? <==> forall i :: 0 <= i < |d| ==> !IdLikeEntry(d[i])
    ensures r.Some? ==> exists i :: FirstIdLike(d, i) && r.value == UpToUnderscore(PyStr(d[i].1))
  {
    if d == [] then None
    else if IdLikeEntry(d[0]) then
      assert FirstIdLike(d, 0);
      Some(UpToUnderscore(PyStr(d[0].1)))
    else
      assert forall i :: 1 <= i < |d| ==> d[i] == d[1..][i - 1];
      assert forall i :: FirstIdLike(d[1..], i) ==> FirstIdLike(d, i + 1);
      IdLikeScan(d[1..])
  }

  /** None of the seven lookups finds anything in the dict. */
  ghost predicate NoIdSource(d: seq<(string, Value)>, toId: ShortcodeOracle) {
    && NoDirectId(d, toId)
    && NoNestedId(d)
    && (forall f :: f in UrlFields ==> UrlMiss(d, f, toId))
    && !HasKey(d, "fbid")
    && (forall i :: 0 <= i < |d| ==> !IdLikeEntry(d[i]))
  }

  /** Lookups 1 to 3 (`id`, `pk`, `code` through the oracle) find nothing. */
  predicate NoDirectId(d: seq<(string, Value)>, toId: ShortcodeOracle) {
    !HasKey(d, "id") && !HasKey(d, "pk") && !(HasKey(d, "code") && Found(toId(Lookup(d, "code").value)))
  }

  /** Lookup 4 finds nothing: no nested dict, or none of its id fields. */
  predicate NoNestedId(d: seq<(string, Value)>) {
    NestedClip(d).Some? ==> FirstPresentField(NestedClip(d).value, NestedIdFields).None?
  }

  function ExtractMediaIdFromClip(clip: Value, toId: ShortcodeOracle): (r: Outcome<Option<string>>)
    // anything but a dict fails on the first `in` test, an indexing or `.items()`
    ensures !clip.Dict? ==> r == Raised
    // 1. a present `id` key is returned whatever else the dict holds
    ensures clip.Dict? && HasKey(clip.entries, "id") ==>
      r == Ok(Some(UpToUnderscore(PyStr(Lookup(clip.entries, "id").value))))
    // 2. then `pk`, unsplit
    ensures clip.Dict? && !HasKey(clip.entries, "id") && HasKey(clip.entries, "pk") ==>
      r == Ok(Some(PyStr(Lookup(clip.entries, "pk").value)))
    // 3. then the oracle's id for `code`, when truthy
    ensures clip.Dict? && !HasKey(clip.entries, "id") && !HasKey(clip.entries, "pk") &&
            HasKey(clip.entries, "code") && Found(toId(Lookup(clip.entries, "code").value)) ==>
      r == Ok(toId(Lookup(clip.entries, "code").value))
    // 4. then the first id field of a nested clip dict
    ensures clip.Dict? && NoDirectId(clip.entries, toId) && !NoNestedId(clip.entries) ==>
      r == Ok(FirstPresentField(NestedClip(clip.entries).value, NestedIdFields))
    // 5. then the URL fields: their id, or their exception
    ensures clip.Dict? && NoDirectId(clip.entries, toId) && NoNestedId(clip.entries) &&
            UrlFieldsId(clip.entries, UrlFields, toId) != Ok(None) ==>
      r == UrlFieldsId(clip.entries, UrlFields, toId)
    // 6. then `fbid`, unsplit
    ensures clip.Dict? && NoDirectId(clip.entries, toId) && NoNestedId(clip.entries) &&
            UrlFieldsId(clip.entries, UrlFields, toId) == Ok(None) && HasKey(clip.entries, "fbid") ==>
      r == Ok(Some(PyStr(Lookup(clip.entries, "fbid").value)))
    // 7. and last the generic key scan
    ensures clip.Dict? && NoDirectId(clip.entries, toId) && NoNestedId(clip.entries) &&
            UrlFieldsId(clip.entries, UrlFields, toId) == Ok(None) && !HasKey(clip.entries, "fbid") ==>
      r == Ok(IdLikeScan(clip.entries))
    // None exactly when no lookup finds anything
    ensures r == Ok(None) <==> clip.Dict? && NoIdSource(clip.entries, toId)
    // the only other exception is a URL field holding a truthy non-string
    ensures r.Raised? && clip.Dict? ==>
      exists f :: f in UrlFields && TruthyField(clip.entries, f) && !Lookup(clip.entries, f).value.Str?
    // without pk, code, fbid and URL fields the id comes from lookup 1, 4 or 7
    // and has its `_` suffix removed
    ensures clip.Dict? && r.Ok? && r.value.Some? &&
            !HasKey(clip.entries, "pk") && !HasKey(clip.entries, "code") && !HasKey(clip.entries, "fbid") &&
            (forall f :: f in UrlFields ==> !TruthyField(clip.entries, f)) ==>
      '_' !in r.value.value
  {
    if !clip.Dict? then Raised
    else
      var d := clip.entries;
      UrlFieldsIdFirstHit(d, UrlFields, toId);
      if HasKey(d, "id") then Ok(Some(UpToUnderscore(PyStr(Lookup(d, "id").value))))
      else if HasKey(d, "pk") then Ok(Some(PyStr(Lookup(d, "pk").value)))
      else if HasKey(d, "code") && Found(toId(Lookup(d, "code").value)) then Ok(toId(Lookup(d, "code").value))
      else if NestedClip(d).Some? && FirstPresentField(NestedClip(d).value, NestedIdFields).Some? then
        Ok(FirstPresentField(NestedClip(d).value, NestedIdFields))
      else match UrlFieldsId(d, UrlFields, toId)
        case Raised => Raised
        case Ok(Some(id)) => Ok(Some(id))
        case Ok(None) =>
          if HasKey(d, "fbid") then Ok(Some(PyStr(Lookup(d, "fbid").value)))
          else Ok(IdLikeScan(d))
  }

  /** Only lookups 1, 4 and 7 split at `_`: a `pk` (and likewise an
      `fbid`) comes back whole. */
  lemma PkIdKeepsUnderscore(toId: ShortcodeOracle)
    ensures ExtractMediaIdFromClip(Dict([("pk", Str("12_34"))]), toId) == Ok(Some("12_34"))
  {
  }
}
