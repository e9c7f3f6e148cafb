/** The entry-level helpers of `src/arxiv_client.py`: ID, category, author and link
    extraction, keyword matching and the category query. */
module ArxivClient {
  import opened Common
  import opened Records

  // ---------------------------------------------------------------------------
  // `_extract_arxiv_id`: `re.search(r"(\d{4}\.\d{4,5})(v\d+)?$", entry_id)`
  // ---------------------------------------------------------------------------

  /** Length of the run of digits at the end of `s`. */
  function TrailingDigits(s: string): (n: nat)
    ensures n <= |s| && AllDigits(s[|s| - n..]) && (n < |s| ==> !IsDigit(s[|s| - n - 1]))
    decreases |s|
  {
    if |s| > 0 && IsDigit(s[|s| - 1]) then
      var n := 1 + TrailingDigits(s[..|s| - 1]);
      assert s[|s| - n..] == s[..|s| - 1][|s| - n..] + [s[|s| - 1]];
      n
    else 0
  }

  /** `$` also matches just before one final newline. */
  function BeforeFinalNewline(s: string): (r: string)
    ensures |r| <= |s| && r == s[..|r|]
  {
    if |s| > 0 && s[|s| - 1] == '\n' then s[..|s| - 1] else s
  }

  /** `s` without a final `v\d+`. */
  function WithoutVersion(s: string): (r: string)
    ensures |r| <= |s| && r == s[..|r|]
  {
    var k := TrailingDigits(s);
    if k >= 1 && |s| > k && s[|s| - k - 1] == 'v' then s[..|s| - k - 1] else s
  }

  /** The `\d{4}\.\d{4,5}` that ends `s`, if `s` ends with one. */
  function IdAtEnd(s: string): (r: Option<string>)
    ensures r.Some? ==> IsArxivId(r.value) && |r.value| <= |s| && s[|s| - |r.value|..] == r.value
  {
    var j := TrailingDigits(s);
    if (j == 4 || j == 5) && |s| >= j + 5 && s[|s| - j - 1] == '.'
       && (forall k :: |s| - j - 5 <= k < |s| - j - 1 ==> IsDigit(s[k])) then
      var x := s[|s| - j - 5..];
      assert x[..4] == s[|s| - j - 5..|s| - j - 1];
      assert x[5..] == s[|s| - j..];
      Some(x)
    else None
  }

  /** `_extract_arxiv_id`: the unversioned ID ending the entry id, or the whole entry id
      when it does not end with one. */
  function ExtractArxivId(entryId: string): (r: string)
    ensures r == entryId || IsArxivId(r)
  {
    match IdAtEnd(WithoutVersion(BeforeFinalNewline(entryId))) {
      case Some(x) => x
      case None => entryId
    }
  }

  lemma TrailingDigitsOfDigitsAfter(p: string, d: string)
    requires AllDigits(d) && (p == [] || !IsDigit(p[|p| - 1]))
    ensures TrailingDigits(p + d) == |d|
    decreases |d|
  {
    if |d| == 0 {
      assert p + d == p;
    } else {
      assert (p + d)[..|p + d| - 1] == p + d[..|d| - 1];
      TrailingDigitsOfDigitsAfter(p, d[..|d| - 1]);
    }
  }

  lemma IdAtEndOfId(p: string, x: string)
    requires IsArxivId(x)
    ensures IdAtEnd(p + x) == Some(x)
  {
    var s := p + x;
    var j := |x| - 5;
    assert x == x[..5] + x[5..];
    assert s == (p + x[..5]) + x[5..];
    TrailingDigitsOfDigitsAfter(p + x[..5], x[5..]);
    assert s[|s| - j - 1] == '.';
    assert forall k :: |s| - j - 5 <= k < |s| - j - 1 ==> s[k] == x[k - |p|];
    assert s[|s| - j - 5..] == x;
  }

  lemma WithoutVersionOfId(p: string, x: string)
    requires IsArxivId(x)
    ensures WithoutVersion(p + x) == p + x
  {
    var t := p + x;
    assert x == x[..5] + x[5..];
    assert t == (p + x[..5]) + x[5..];
    TrailingDigitsOfDigitsAfter(p + x[..5], x[5..]);
    assert t[|t| - (|x| - 5) - 1] == '.';
  }

  lemma WithoutVersionOfVersioned(q: string, n: string)
    requires AllDigits(n) && n != []
    ensures WithoutVersion(q + ['v'] + n) == q
  {
    var t := q + ['v'] + n;
    TrailingDigitsOfDigitsAfter(q + ['v'], n);
    assert t[..|t| - |n| - 1] == q;
  }

  lemma BeforeFinalNewlineOf(t: string, nl: bool)
    requires t == [] || t[|t| - 1] != '\n'
    ensures BeforeFinalNewline(t + (if nl then ['\n'] else [])) == t
  {
    var e := t + (if nl then ['\n'] else []);
    if nl {
      assert e[..|e| - 1] == t;
    } else {
      assert e == t;
    }
  }

  /** The round trip of the usual entry ids: any prefix, an ID, an optional version and an
      optional final newline give back the ID. */
  lemma ExtractArxivIdOfEntryId(p: string, x: string, n: string, nl: bool)
    requires IsArxivId(x) && AllDigits(n)
    ensures ExtractArxivId(p + x + (if |n| == 0 then [] else ['v'] + n) + (if nl then ['\n'] else [])) == x
  {
    var t := p + x + (if |n| == 0 then [] else ['v'] + n);
    if |n| == 0 {
      assert t == p + x && t[|t| - 1] == x[|x| - 1];
      WithoutVersionOfId(p, x);
    } else {
      assert t == (p + x) + ['v'] + n && t[|t| - 1] == n[|n| - 1];
      WithoutVersionOfVersioned(p + x, n);
    }
    BeforeFinalNewlineOf(t, nl);
    IdAtEndOfId(p, x);
  }

  /** `e` is a prefix `p`, then `x`, an optional `v` with the digits `n`, and an optional
      final newline. */
  ghost predicate EndsWithId(e: string, p: string, x: string, n: string, nl: bool) {
    AllDigits(n) && e == p + x + (if |n| == 0 then [] else ['v'] + n) + (if nl then ['\n'] else [])
  }

  lemma BeforeFinalNewlineSplit(s: string) returns (nl: bool)
    ensures s == BeforeFinalNewline(s) + (if nl then ['\n'] else [])
  {
    nl := |s| > 0 && s[|s| - 1] == '\n';
    if nl {
      assert s == s[..|s| - 1] + ['\n'];
    } else {
      assert s == s + [];
    }
  }

  lemma WithoutVersionSplit(s: string) returns (n: string)
    ensures AllDigits(n) && s == WithoutVersion(s) + (if |n| == 0 then [] else ['v'] + n)
  {
    var k := TrailingDigits(s);
    if k >= 1 && |s| > k && s[|s| - k - 1] == 'v' {
      n := s[|s| - k..];
      assert s == s[..|s| - k - 1] + ['v'] + n;
    } else {
      n := [];
      assert s == s + [];
    }
  }

  /** The converse of `ExtractArxivIdOfEntryId`: whenever the result is not the whole entry
      id, the entry id is a prefix, the result, an optional version and an optional final
      newline. */
  lemma ExtractArxivIdEndsEntryId(entryId: string)
    ensures ExtractArxivId(entryId) != entryId ==>
              exists p, n, nl :: EndsWithId(entryId, p, ExtractArxivId(entryId), n, nl)
  {
    var b := BeforeFinalNewline(entryId);
    var nl := BeforeFinalNewlineSplit(entryId);
    var w := WithoutVersion(b);
    var n := WithoutVersionSplit(b);
    var v := if |n| == 0 then [] else ['v'] + n;
    match IdAtEnd(w) {
      case Some(x) =>
        var p := w[..|w| - |x|];
        assert w == p + x;
        assert b == p + x + v;
        assert EndsWithId(entryId, p, x, n, nl);
      case None =>
    }
  }

  /** An entry id without a dot is returned unchanged. */
  lemma ExtractArxivIdWithoutDot(entryId: string)
    requires '.' !in entryId
    ensures ExtractArxivId(entryId) == entryId
  {
    var t := WithoutVersion(BeforeFinalNewline(entryId));
    assert t == entryId[..|t|];
    assert forall i :: 0 <= i < |t| ==> t[i] == entryId[i] && t[i] != '.';
  }

  // ---------------------------------------------------------------------------
  // `_extract_categories`, `_extract_authors`
  // ---------------------------------------------------------------------------

  /** `_extract_categories`: the `term` of each tag, when present and non-empty. */
  function ExtractCategories(terms: seq<Option<string>>): (r: seq<string>)
    ensures forall k :: 0 <= k < |r| ==> r[k] != "" && Some(r[k]) in terms
    ensures forall i :: 0 <= i < |terms| && terms[i].Some? && terms[i].value != "" ==> terms[i].value in r
  {
    Present(terms)
  }

  /** `_extract_authors`: the `name` of each author, when present and non-empty. */
  function ExtractAuthors(names: seq<Option<string>>): (r: seq<string>)
    ensures forall k :: 0 <= k < |r| ==> r[k] != "" && Some(r[k]) in names
    ensures forall i :: 0 <= i < |names| && names[i].Some? && names[i].value != "" ==> names[i].value in r
  {
    Present(names)
  }

  // ---------------------------------------------------------------------------
  // `_extract_link`
  // ---------------------------------------------------------------------------

  /** An element of an entry's `links`: its optional `type` and `href`. */
  datatype Link = Link(linkType: Option<string>, href: Option<string>)

  /** Index of the first link whose type is `text/html`. */
  function FirstHtml(links: seq<Link>): (r: Option<nat>)
    ensures r.Some? ==> r.value < |links| && links[r.value].linkType == Some("text/html")
                        && forall k :: 0 <= k < r.value ==> links[k].linkType != Some("text/html")
    ensures r.None? ==> forall k :: 0 <= k < |links| ==> links[k].linkType != Some("text/html")
  {
    if |links| == 0 then None
    else if links[0].linkType == Some("text/html") then Some(0)
    else match FirstHtml(links[1..]) {
      case None => None
      case Some(i) => Some(i + 1)
    }
  }

  /** `_extract_link`: the first HTML link's href; else the first link's href; else the
      entry id. A missing href reads as "". */
  method ExtractLink(links: seq<Link>, entryId: Option<string>) returns (r: string)
    ensures FirstHtml(links).Some? ==> r == links[FirstHtml(links).value].href.GetOr("")
    ensures FirstHtml(links).None? && links != [] ==> r == links[0].href.GetOr("")
    ensures links == [] ==> r == entryId.GetOr("")
  {
    for i := 0 to |links|
      invariant forall k :: 0 <= k < i ==> links[k].linkType != Some("text/html")
    {
      if links[i].linkType == Some("text/html") {
        return links[i].href.GetOr("");
      }
    }
    if |links| > 0 {
      return links[0].href.GetOr("");
    }
    return entryId.GetOr("");
  }

  // ---------------------------------------------------------------------------
  // `_match_keywords`
  // ---------------------------------------------------------------------------

  /** A configured keyword: its display name and whether its compiled pattern is found
      somewhere in a text. */
  datatype Keyword = Keyword(display: string, search: string -> bool)

  /** The text the patterns are searched in: title, summary and the space-joined authors,
      separated by spaces. */
  function Combined(title: string, summary: string, authors: seq<string>): string {
    title + " " + summary + " " + Join(authors, " ")
  }

  /** The display names of the patterns found in `text`, in configuration order. */
  function MatchingDisplays(patterns: seq<Keyword>, text: string): seq<string>
    decreases |patterns|
  {
    if |patterns| == 0 then []
    else
      var last := patterns[|patterns| - 1];
      MatchingDisplays(patterns[..|patterns| - 1], text) + (if last.search(text) then [last.display] else [])
  }

  /** A display name is listed iff one of the patterns carrying it is found. */
  lemma {:induction false} MatchingDisplaysMembers(patterns: seq<Keyword>, text: string, d: string)
    ensures d in MatchingDisplays(patterns, text) <==>
              exists i :: 0 <= i < |patterns| && patterns[i].display == d && patterns[i].search(text)
    decreases |patterns|
  {
    if |patterns| > 0 {
      var init := patterns[..|patterns| - 1];
      var last := patterns[|patterns| - 1];
      MatchingDisplaysMembers(init, text, d);
      assert forall i :: 0 <= i < |init| ==> init[i] == patterns[i];
      if d in MatchingDisplays(init, text) {
        var i :| 0 <= i < |init| && init[i].display == d && init[i].search(text);
        assert patterns[i].display == d && patterns[i].search(text);
      }
    }
  }

  /** `_match_keywords`: each display name once, at its first matching pattern. */
  method MatchKeywords(patterns: seq<Keyword>, title: string, summary: string, authors: seq<string>)
    returns (matched: seq<string>)
    ensures matched == Dedup(MatchingDisplays(patterns, Combined(title, summary, authors)))
    ensures NoDup(matched)
    ensures forall d :: d in matched <==>
              exists i :: 0 <= i < |patterns| && patterns[i].display == d && patterns[i].search(Combined(title, summary, authors))
  {
    var combined := Combined(title, summary, authors);
    matched := [];
    var seen: set<string> := {};
    for i := 0 to |patterns|
      invariant matched == Dedup(MatchingDisplays(patterns[..i], combined))
      invariant forall d :: d in seen <==> d in matched
    {
      var p := patterns[i];
      ghost var before := MatchingDisplays(patterns[..i], combined);
      var hit := p.search(combined);
      MatchingDisplaysStep(patterns, i, combined);
      if hit {
        DedupSnoc(before, p.display);
      }
      if p.display !in seen && hit {
        matched := matched + [p.display];
        seen := seen + {p.display};
      }
      assert MatchingDisplays(patterns[..i + 1], combined) == before + (if hit then [p.display] else []);
      assert !hit ==> before + [] == before;
      assert matched == Dedup(MatchingDisplays(patterns[..i + 1], combined));
    }
    assert patterns[..|patterns|] == patterns;
    DedupSameMembers(MatchingDisplays(patterns, combined));
    forall d ensures d in matched <==>
      exists i :: 0 <= i < |patterns| && patterns[i].display == d && patterns[i].search(combined)
    {
      MatchingDisplaysMembers(patterns, combined, d);
    }
  }

  lemma MatchingDisplaysStep(patterns: seq<Keyword>, i: nat, text: string)
    requires i < |patterns|
    ensures MatchingDisplays(patterns[..i + 1], text) ==
      MatchingDisplays(patterns[..i], text) + (if patterns[i].search(text) then [patterns[i].display] else [])
  {
    assert patterns[..i + 1][..i] == patterns[..i];
  }

  // ---------------------------------------------------------------------------
  // `_build_query`
  // ---------------------------------------------------------------------------

  function CatTerms(categories: seq<string>): (r: seq<string>)
    ensures |r| == |categories| && forall i :: 0 <= i < |r| ==> r[i] == "cat:" + categories[i]
  {
    seq(|categories|, i requires 0 <= i < |categories| => "cat:" + categories[i])
  }

  /** `_build_query`. */
  function BuildQuery(categories: seq<string>): (r: string)
    ensures categories == [] ==> r == ""
    ensures |categories| == 1 ==> r == "cat:" + categories[0]
  {
    Join(CatTerms(categories), "+OR+")
  }

  lemma {:induction false} JoinSnoc(parts: seq<string>, x: string, sep: string)
    requires parts != []
    ensures Join(parts + [x], sep) == Join(parts, sep) + sep + x
    decreases |parts|
  {
    var s := parts + [x];
    assert s[0] == parts[0];
    if |parts| == 1 {
      assert s[1..] == [x];
    } else {
      assert s[1..] == parts[1..] + [x];
      JoinSnoc(parts[1..], x, sep);
    }
  }

  /** Adding a category appends `+OR+cat:<category>` to the query. */
  lemma BuildQuerySnoc(categories: seq<string>, c: string)
    requires categories != []
    ensures BuildQuery(categories + [c]) == BuildQuery(categories) + "+OR+" + "cat:" + c
  {
    assert CatTerms(categories + [c]) == CatTerms(categories) + ["cat:" + c];
    JoinSnoc(CatTerms(categories), "cat:" + c, "+OR+");
  }
}
