/**
 * `extract_shortcode_from_url`: finds a post, reel or tv shortcode in a URL by
 * two regular expressions tried in order,
 *   instagram\.com/(?:p|reel|tv)/([A-Za-z0-9_-]+)   and   instagr\.am/p/([A-Za-z0-9_-]+),
 * each searched for leftmost-first like `re.search`.
 */
module Shortcodes {
  import opened PyValues

  /** The character class [A-Za-z0-9_-]. */
  predicate IsIdChar(c: char) {
    'A' <= c <= 'Z' || 'a' <= c <= 'z' || '0' <= c <= '9' || c == '_' || c == '-'
  }

  /** The three alternatives of the first pattern, in the order the regex tries them. */
  const InstagramPrefixes: seq<string> := ["instagram.com/p/", "instagram.com/reel/", "instagram.com/tv/"]

  /** The literal part of the second pattern. */
  const ShortDomainPrefixes: seq<string> := ["instagr.am/p/"]

  /** The length of the greedy match of [A-Za-z0-9_-]* starting at k: the
      longest run of identifier characters there. */
  function RunLength(s: string, k: nat): (n: nat)
    requires k <= |s|
    ensures k + n <= |s|
    ensures forall j :: k <= j < k + n ==> IsIdChar(s[j])
    ensures k + n == |s| || !IsIdChar(s[k + n])
    decreases |s| - k
  {
    if k < |s| && IsIdChar(s[k]) then 1 + RunLength(s, k + 1) else 0
  }

  /** The text of that run. */
  function IdRun(s: string, k: nat): string
    requires k <= |s|
  {
    s[k..k + RunLength(s, k)]
  }

  /** The pattern anchored at position i: the first alternative that occurs at
      i and is followed by at least one identifier character gives the group. */
  function MatchAt(s: string, i: nat, prefixes: seq<string>): (r: Option<string>)
    requires i <= |s|
    ensures r.Some? ==> r.value != []
  {
    if prefixes == [] then None
    else if OccursAt(s, i, prefixes[0]) && IdRun(s, i + |prefixes[0]|) != [] then
      Some(IdRun(s, i + |prefixes[0]|))
    else
      MatchAt(s, i, prefixes[1..])
  }

  /** A match at i comes from an alternative occurring at i. */
  lemma {:induction false} MatchFromAlternative(s: string, i: nat, prefixes: seq<string>)
    requires i <= |s|
    ensures MatchAt(s, i, prefixes).Some? ==>
      exists p :: p in prefixes && OccursAt(s, i, p) && MatchAt(s, i, prefixes).value == IdRun(s, i + |p|)
  {
    if prefixes != [] && MatchAt(s, i, prefixes).Some? {
      if OccursAt(s, i, prefixes[0]) && IdRun(s, i + |prefixes[0]|) != [] {
        assert prefixes[0] in prefixes;
      } else {
        MatchFromAlternative(s, i, prefixes[1..]);
        var p :| p in prefixes[1..] && OccursAt(s, i, p) && MatchAt(s, i, prefixes).value == IdRun(s, i + |p|);
        assert p in prefixes;
      }
    }
  }

  /** No match at i means every alternative occurring at i is followed by a
      character outside the class (or by the end of the text). */
  lemma {:induction false} NoMatchMeansNoRun(s: string, i: nat, prefixes: seq<string>)
    requires i <= |s|
    ensures MatchAt(s, i, prefixes).None? ==>
      forall p :: p in prefixes && OccursAt(s, i, p) ==> IdRun(s, i + |p|) == []
  {
    if prefixes != [] {
      NoMatchMeansNoRun(s, i, prefixes[1..]);
      if MatchAt(s, i, prefixes).None? {
        forall p | p in prefixes && OccursAt(s, i, p) ensures IdRun(s, i + |p|) == [] {
          if p != prefixes[0] { assert p in prefixes[1..]; }
        }
      }
    }
  }

  /** `re.search` from position i on: the group of the leftmost match. */
  function Search(s: string, i: nat, prefixes: seq<string>): (r: Option<string>)
    requires i <= |s| + 1
    decreases |s| + 1 - i
  {
    if i > |s| then None
    else if MatchAt(s, i, prefixes).Some? then MatchAt(s, i, prefixes)
    else Search(s, i + 1, prefixes)
  }

  /** The search returns the match at the first position from i on that has
      one, and nothing when no position has one. */
  lemma {:induction false} SearchIsLeftmost(s: string, i: nat, prefixes: seq<string>)
    requires i <= |s| + 1
    ensures Search(s, i, prefixes).Some? ==> FirstMatchFrom(s, prefixes, i, Search(s, i, prefixes).value)
    ensures Search(s, i, prefixes).None? ==> forall j :: i <= j <= |s| ==> MatchAt(s, j, prefixes).None?
    decreases |s| + 1 - i
  {
    if i <= |s| && MatchAt(s, i, prefixes).None? {
      SearchIsLeftmost(s, i + 1, prefixes);
      assert Search(s, i, prefixes) == Search(s, i + 1, prefixes);
      if Search(s, i, prefixes).Some? {
        var code := Search(s, i, prefixes).value;
        var k :| i + 1 <= k <= |s| && MatchAt(s, k, prefixes) == Some(code) &&
                 (forall j :: i + 1 <= j < k ==> MatchAt(s, j, prefixes).None?);
        assert forall j :: i <= j < k ==> MatchAt(s, j, prefixes).None?;
      }
    }
  }

  /** code is the group of the first position from i on that matches. */
  ghost predicate FirstMatchFrom(s: string, prefixes: seq<string>, i: nat, code: string) {
    exists k :: i <= k <= |s| && MatchAt(s, k, prefixes) == Some(code) &&
      forall j :: i <= j < k ==> MatchAt(s, j, prefixes).None?
  }

  /** No position of s matches the pattern with these alternatives. */
  ghost predicate NoMatch(s: string, prefixes: seq<string>) {
    forall j :: 0 <= j <= |s| ==> MatchAt(s, j, prefixes).None?
  }

  /** code is what `re.search` captures: the group of the leftmost match. */
  ghost predicate LeftmostMatch(s: string, prefixes: seq<string>, code: string) {
    FirstMatchFrom(s, prefixes, 0, code)
  }

  /** code is a non-empty maximal run of [A-Za-z0-9_-] directly after one of
      the literals. */
  ghost predicate RunAfterPrefix(s: string, prefixes: seq<string>, code: string) {
    && code != []
    && (forall c :: c in code ==> IsIdChar(c))
    && exists i, p :: p in prefixes && OccursAt(s, i, p) && OccursAt(s, i + |p|, code) &&
         (i + |p| + |code| == |s| || !IsIdChar(s[i + |p| + |code|]))
  }

  function ExtractShortcodeFromUrl(url: Value): (r: Outcome<Option<string>>)
    // an empty or missing URL gives None
    ensures !Truthy(url) ==> r == Ok(None)
    // `re.search` on anything but a string is a TypeError
    ensures Truthy(url) && !url.Str? ==> r == Raised
    // a string never raises
    ensures url.Str? ==> r.Ok?
    // the instagram.com pattern wins wherever it matches; instagr.am is only
    // searched for when it matches nowhere
    ensures url.Str? && url.s != "" ==>
      (r == Ok(None) <==> NoMatch(url.s, InstagramPrefixes) && NoMatch(url.s, ShortDomainPrefixes))
    ensures url.Str? && r.Ok? && r.value.Some? ==>
      LeftmostMatch(url.s, InstagramPrefixes, r.value.value) ||
      (NoMatch(url.s, InstagramPrefixes) && LeftmostMatch(url.s, ShortDomainPrefixes, r.value.value))
  {
    if !Truthy(url) then Ok(None)
    else if !url.Str? then Raised
    else
      SearchIsLeftmost(url.s, 0, InstagramPrefixes);
      SearchIsLeftmost(url.s, 0, ShortDomainPrefixes);
      match Search(url.s, 0, InstagramPrefixes)
      case Some(code) => Ok(Some(code))
      case None => Ok(Search(url.s, 0, ShortDomainPrefixes))
  }

  /** The group a match captures is a non-empty maximal identifier run right
      after one of the pattern's literals. */
  lemma {:induction false} MatchIsRunAfterPrefix(s: string, prefixes: seq<string>, k: nat)
    requires k <= |s| && MatchAt(s, k, prefixes).Some?
    ensures RunAfterPrefix(s, prefixes, MatchAt(s, k, prefixes).value)
  {
    MatchFromAlternative(s, k, prefixes);
    var p :| p in prefixes && OccursAt(s, k, p) && MatchAt(s, k, prefixes).value == IdRun(s, k + |p|);
    RunAfterAlternative(s, prefixes, k, p);
  }

  /** The identifier run after an alternative, when non-empty, is a maximal
      run right after that literal. */
  lemma RunAfterAlternative(s: string, prefixes: seq<string>, k: nat, p: string)
    requires p in prefixes && OccursAt(s, k, p) && IdRun(s, k + |p|) != []
    ensures RunAfterPrefix(s, prefixes, IdRun(s, k + |p|))
  {
    var j := k + |p|;
    var code := IdRun(s, j);
    forall c | c in code ensures IsIdChar(c) {
      var m :| 0 <= m < |code| && code[m] == c;
      assert c == s[j + m];
    }
    assert OccursAt(s, j, code);
  }

  /** A match needs at least one character after its position. */
  lemma {:induction false} MatchNeedsText(s: string, i: nat, prefixes: seq<string>)
    requires i <= |s| && MatchAt(s, i, prefixes).Some?
    ensures i < |s|
  {
    if !(OccursAt(s, i, prefixes[0]) && IdRun(s, i + |prefixes[0]|) != []) {
      MatchNeedsText(s, i, prefixes[1..]);
    }
  }

  /** Every shortcode the function returns is a non-empty maximal run of
      [A-Za-z0-9_-] directly after "instagram.com/p/", "/reel/", "/tv/" or
      "instagr.am/p/". */
  lemma {:induction false} ShortcodeFollowsPrefix(url: Value)
    requires ExtractShortcodeFromUrl(url).Ok? && ExtractShortcodeFromUrl(url).value.Some?
    ensures url.Str?
    ensures RunAfterPrefix(url.s, InstagramPrefixes, ExtractShortcodeFromUrl(url).value.value) ||
            RunAfterPrefix(url.s, ShortDomainPrefixes, ExtractShortcodeFromUrl(url).value.value)
  {
    var s := url.s;
    var first := Search(s, 0, InstagramPrefixes);
    SearchIsLeftmost(s, 0, InstagramPrefixes);
    SearchIsLeftmost(s, 0, ShortDomainPrefixes);
    if first.Some? {
      var k :| 0 <= k <= |s| && MatchAt(s, k, InstagramPrefixes) == first;
      MatchIsRunAfterPrefix(s, InstagramPrefixes, k);
    } else {
      var second := Search(s, 0, ShortDomainPrefixes);
      var k :| 0 <= k <= |s| && MatchAt(s, k, ShortDomainPrefixes) == second;
      MatchIsRunAfterPrefix(s, ShortDomainPrefixes, k);
    }
  }

  /** A URL holding an instagram.com post link anywhere yields a shortcode of
      that pattern, even when an instagr.am link stands before it. */
  lemma {:induction false} InstagramPatternTriedFirst(s: string, k: nat)
    requires k <= |s| && MatchAt(s, k, InstagramPrefixes).Some?
    ensures ExtractShortcodeFromUrl(Str(s)).Ok?
    ensures ExtractShortcodeFromUrl(Str(s)).value.Some?
    ensures LeftmostMatch(s, InstagramPrefixes, ExtractShortcodeFromUrl(Str(s)).value.value)
  {
    MatchNeedsText(s, k, InstagramPrefixes);
    SearchIsLeftmost(s, 0, InstagramPrefixes);
  }
}
