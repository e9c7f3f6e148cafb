/** The feed-entry side of `src/blog_client.py`: tag stripping, arXiv ID scanning and
    the parts of `_parse_entry` that do not depend on date parsing. */
module BlogClient {
  import opened Common
  import opened Records

  /** The literal cap `_parse_entry` puts on a cleaned summary. */
  const SummaryCap: nat := 600

  // ---------------------------------------------------------------------------
  // `_strip_html`: the substitution of `<[^>]+>` by "", then `strip()`
  // ---------------------------------------------------------------------------

  /** Index of the first '>' in `s`. */
  function FindGt(s: string): (r: Option<nat>)
    ensures r.Some? ==> r.value < |s| && s[r.value] == '>' && forall k :: 0 <= k < r.value ==> s[k] != '>'
    ensures r.None? ==> forall k :: 0 <= k < |s| ==> s[k] != '>'
  {
    if |s| == 0 then None
    else if s[0] == '>' then Some(0)
    else match FindGt(s[1..]) {
      case None => None
      case Some(i) => Some(i + 1)
    }
  }

  /** No match of `<[^>]+>` remains: whenever a '<' is followed anywhere by a '>', the
      very next character is a '>' (so the `[^>]+` part cannot match). */
  ghost predicate NoTags(s: string) {
    forall i, j :: 0 <= i < j < |s| && s[i] == '<' && s[j] == '>' ==> s[i + 1] == '>'
  }

  /** `re.sub(r"<[^>]+>", "", s)`: scanning left to right, a '<' whose first following
      '>' is not the next character starts a tag that runs to that '>'; tags are dropped,
      every other character is kept. */
  function RemoveTags(s: string): (r: string)
    ensures |r| <= |s|
    ensures forall k :: 0 <= k < |r| ==> r[k] in s
    ensures NoTags(r)
    decreases |s|
  {
    if |s| == 0 then []
    else if s[0] == '<' && |s| > 1 && s[1] != '>' && FindGt(s[1..]).Some? then
      var rest := s[FindGt(s[1..]).value + 2..];
      assert rest == s[1..][FindGt(s[1..]).value + 1..];
      var r := RemoveTags(rest);
      CharsOfSuffix(s, FindGt(s[1..]).value + 2, r);
      r
    else
      var tail := RemoveTags(s[1..]);
      CharsOfSuffix(s, 1, tail);
      assert s[0] == '<' && |s| > 1 && s[1] == '>' ==> tail[0] == '>' by {
        if s[0] == '<' && |s| > 1 && s[1] == '>' {
          assert s[1..][0] == '>';
          assert tail == [s[1..][0]] + RemoveTags(s[1..][1..]);
        }
      }
      NoTagsCons(s[0], tail);
      [s[0]] + tail
  }

  /** Characters taken from a suffix of `s` are characters of `s`; with `s[0]` in front they
      still are. */
  lemma CharsOfSuffix(s: string, i: nat, r: string)
    requires 0 < i <= |s| && forall k :: 0 <= k < |r| ==> r[k] in s[i..]
    ensures forall k :: 0 <= k < |r| ==> r[k] in s
    ensures forall k :: 0 <= k < |[s[0]] + r| ==> ([s[0]] + r)[k] in s
  {
    forall k | 0 <= k < |r| ensures r[k] in s {
      var m :| 0 <= m < |s[i..]| && s[i..][m] == r[k];
      assert s[i + m] == r[k];
    }
    forall k | 0 <= k < |[s[0]] + r| ensures ([s[0]] + r)[k] in s {
      if k > 0 {
        assert ([s[0]] + r)[k] == r[k - 1];
      }
    }
  }

  /** Putting a character in front of tag-free text keeps it tag-free, unless it is a '<'
      that a later '>' would close with something in between. */
  lemma NoTagsCons(c: char, tail: string)
    requires NoTags(tail)
    requires c == '<' && |tail| > 0 ==> tail[0] == '>' || forall k :: 0 <= k < |tail| ==> tail[k] != '>'
    ensures NoTags([c] + tail)
  {
    var r := [c] + tail;
    forall i, j | 0 <= i < j < |r| && r[i] == '<' && r[j] == '>' ensures r[i + 1] == '>' {
      assert r[j] == tail[j - 1];
      if i > 0 {
        assert r[i] == tail[i - 1] && r[i + 1] == tail[i];
      }
    }
  }

  /** Text without tags is left as it is. */
  lemma {:induction false} RemoveTagsOfTagFree(s: string)
    requires NoTags(s)
    ensures RemoveTags(s) == s
    decreases |s|
  {
    if |s| > 0 {
      if s[0] == '<' && |s| > 1 && s[1] != '>' && FindGt(s[1..]).Some? {
        assert false;
      }
      assert NoTags(s[1..]) by {
        forall i, j | 0 <= i < j < |s[1..]| && s[1..][i] == '<' && s[1..][j] == '>'
          ensures s[1..][i + 1] == '>'
        {
          assert s[i + 1] == '<' && s[j + 1] == '>';
        }
      }
      RemoveTagsOfTagFree(s[1..]);
    }
  }

  /** Text without a '<' is kept as it is, whatever follows. */
  lemma {:induction false} RemoveTagsKeepsText(a: string, b: string)
    requires forall k :: 0 <= k < |a| ==> a[k] != '<'
    ensures RemoveTags(a + b) == a + RemoveTags(b)
    decreases |a|
  {
    if |a| == 0 {
      assert a + b == b;
    } else {
      RemoveTagsKeepsText(a[1..], b);
      RemoveTagsOfFirst(a, b);
      assert a == [a[0]] + a[1..];
      SeqAssoc([a[0]], a[1..], RemoveTags(b));
    }
  }

  /** The first character of `a`, not a '<', is kept in front of the rest of `a + b`. */
  lemma RemoveTagsOfFirst(a: string, b: string)
    requires |a| > 0 && a[0] != '<'
    ensures RemoveTags(a + b) == [a[0]] + RemoveTags(a[1..] + b)
  {
    RemoveTagsOfCons(a[0], a[1..] + b);
    assert a == [a[0]] + a[1..];
    SeqAssoc([a[0]], a[1..], b);
  }

  /** A character other than '<' is kept. */
  lemma RemoveTagsOfCons(c: char, t: string)
    requires c != '<'
    ensures RemoveTags([c] + t) == [c] + RemoveTags(t)
  {
    assert ([c] + t)[1..] == t;
  }

  /** A tag, '<' then at least one character other than '>' then '>', is dropped whole. */
  lemma RemoveTagsDropsTag(t: string, b: string)
    requires t != [] && '>' !in t
    ensures RemoveTags(['<'] + t + ['>'] + b) == RemoveTags(b)
  {
    var s := ['<'] + t + ['>'] + b;
    var u := s[1..];
    assert u == t + ['>'] + b;
    assert u[|t|] == '>';
    var g := FindGt(u);
    assert g.Some? && g.value == |t|;
    assert s[|t| + 2..] == b;
  }

  /** A '<' that no '>' follows is kept, and so is the text after it. */
  lemma RemoveTagsKeepsUnclosed(t: string)
    requires '>' !in t
    ensures RemoveTags(['<'] + t) == ['<'] + RemoveTags(t)
  {
    var s := ['<'] + t;
    assert s[1..] == t;
    if |t| > 0 {
      assert FindGt(t).None?;
    }
  }

  /** "<>" is no tag: the '<' is kept and scanning goes on from the '>'. */
  lemma RemoveTagsKeepsEmptyBrackets(b: string)
    ensures RemoveTags(['<', '>'] + b) == ['<'] + RemoveTags(['>'] + b)
  {
    assert (['<', '>'] + b)[1..] == ['>'] + b;
  }

  lemma NoTagsOfSlice(s: string, a: nat, b: nat)
    requires NoTags(s) && a <= b <= |s|
    ensures NoTags(s[a..b])
  {
    var t := s[a..b];
    forall i, j | 0 <= i < j < |t| && t[i] == '<' && t[j] == '>' ensures t[i + 1] == '>' {
      assert s[a + i] == '<' && s[a + j] == '>';
    }
  }

  /** Stripping whitespace cuts a slice, so it keeps text free of tags. */
  lemma NoTagsOfStrip(t: string)
    requires NoTags(t)
    ensures NoTags(Strip(t))
  {
    var a, b := StripBounds(t);
    NoTagsOfSlice(t, a, b);
  }

  /** `_strip_html`. */
  function StripHtml(s: string): (r: string)
    ensures NoTags(r)
    ensures r == [] || (!IsSpace(r[0]) && !IsSpace(r[|r| - 1]))
    ensures exists a, b :: WhitespaceCut(RemoveTags(s), a, b, r)
  {
    var t := RemoveTags(s);
    NoTagsOfStrip(t);
    StripIsCut(t);
    Strip(t)
  }

  /** Cleaning cleaned text changes nothing. */
  lemma StripHtmlIdempotent(s: string)
    ensures StripHtml(StripHtml(s)) == StripHtml(s)
  {
    RemoveTagsOfTagFree(StripHtml(s));
    StripIdempotent(RemoveTags(s));
  }

  // ---------------------------------------------------------------------------
  // `_extract_arxiv_ids`: finditer over `((\d{4}\.\d{4,5})(?:v\d+)?)`
  // ---------------------------------------------------------------------------

  /** Length of the run of digits at the start of `s`. */
  function DigitRun(s: string): (n: nat)
    ensures n <= |s| && (forall k :: 0 <= k < n ==> IsDigit(s[k])) && (n < |s| ==> !IsDigit(s[n]))
  {
    if |s| > 0 && IsDigit(s[0]) then 1 + DigitRun(s[1..]) else 0
  }

  /** Length of a `v\d+` suffix at the start of `s` (0 if there is none). */
  function VersionLen(s: string): (n: nat)
    ensures n <= |s|
    ensures n > 0 ==> n >= 2 && s[0] == 'v' && forall k :: 1 <= k < n ==> IsDigit(s[k])
  {
    if |s| >= 2 && s[0] == 'v' && IsDigit(s[1]) then 1 + DigitRun(s[1..]) else 0
  }

  /** A match found at the start of the remaining text: the unversioned ID (group 2) and
      how many characters the whole match consumes. */
  datatype IdMatch = IdMatch(id: string, consumed: nat)

  /** The pattern tried at one position: `\d{4,5}` takes a fifth digit when there is one,
      and the optional version takes every digit after the 'v'. */
  function MatchAt(s: string): (r: Option<IdMatch>)
    ensures r.Some? ==> IsArxivId(r.value.id) && |r.value.id| <= r.value.consumed <= |s|
                        && r.value.id == s[..|r.value.id|]
  {
    if |s| >= 9 && (forall k :: 0 <= k < 4 ==> IsDigit(s[k])) && s[4] == '.'
       && (forall k :: 5 <= k < 9 ==> IsDigit(s[k])) then
      var n := if |s| >= 10 && IsDigit(s[9]) then 10 else 9;
      Some(IdMatch(s[..n], n + VersionLen(s[n..])))
    else None
  }

  /** Every ID group `finditer` reports, in order: after a match the scan resumes where the
      match ended, otherwise one character further. */
  function Scan(s: string): (r: seq<string>)
    ensures forall k :: 0 <= k < |r| ==> IsArxivId(r[k])
    decreases |s|
  {
    if |s| == 0 then []
    else match MatchAt(s) {
      case Some(m) => [m.id] + Scan(s[m.consumed..])
      case None => Scan(s[1..])
    }
  }

  /** `_extract_arxiv_ids`: the loop over the matches keeps the first occurrence of
      each ID. */
  method ExtractArxivIds(text: string) returns (ids: seq<string>)
    ensures ids == Dedup(Scan(text))
    ensures NoDup(ids) && forall k :: 0 <= k < |ids| ==> IsArxivId(ids[k])
  {
    var matches := Scan(text);
    ids := [];
    var seen: set<string> := {};
    for i := 0 to |matches|
      invariant ids == Dedup(matches[..i])
      invariant forall x :: x in seen <==> x in ids
    {
      var aid := matches[i];
      assert matches[..i + 1] == matches[..i] + [aid];
      DedupSnoc(matches[..i], aid);
      if aid !in seen {
        ids := ids + [aid];
        seen := seen + {aid};
      }
    }
    assert matches[..|matches|] == matches;
    forall k | 0 <= k < |ids| ensures IsArxivId(ids[k]) {
      var j :| 0 <= j < |matches| && matches[j] == ids[k];
    }
  }

  lemma DigitRunBeforeSpace(w: string, b: string)
    ensures DigitRun(w + [' '] + b) == DigitRun(w)
    decreases |w|
  {
    if |w| > 0 {
      assert (w + [' '] + b)[1..] == w[1..] + [' '] + b;
      DigitRunBeforeSpace(w[1..], b);
    }
  }

  lemma VersionLenBeforeSpace(v: string, b: string)
    ensures VersionLen(v + [' '] + b) == VersionLen(v)
  {
    var u := v + [' '] + b;
    if |v| >= 2 && v[0] == 'v' && IsDigit(v[1]) {
      assert u[1..] == v[1..] + [' '] + b;
      DigitRunBeforeSpace(v[1..], b);
    } else if |v| == 1 {
      assert u[1] == ' ';
    } else if |v| == 0 {
      assert u[0] == ' ';
    }
  }

  /** A match never reads past a space. */
  lemma MatchAtBeforeSpace(t: string, b: string)
    requires t != []
    ensures MatchAt(t + [' '] + b) == MatchAt(t)
  {
    var u := t + [' '] + b;
    assert u[|t|] == ' ';
    if |t| >= 9 {
      assert forall k :: 0 <= k < 9 ==> u[k] == t[k];
      var n := if |t| >= 10 && IsDigit(t[9]) then 10 else 9;
      assert u[..n] == t[..n];
      assert u[n..] == t[n..] + [' '] + b;
      VersionLenBeforeSpace(t[n..], b);
    } else if |t| < 4 {
      assert !IsDigit(u[|t|]);
    } else if |t| == 4 {
      assert u[4] != '.';
    } else {
      assert !IsDigit(u[|t|]);
    }
  }

  /** Joining two texts with a space scans them independently. */
  lemma {:induction false} ScanAcrossSpace(a: string, b: string)
    ensures Scan(a + [' '] + b) == Scan(a) + Scan(b)
    decreases |a|
  {
    if |a| == 0 {
      ScanAfterSpace(b);
      assert a + [' '] + b == [' '] + b;
    } else {
      var n := if MatchAt(a).Some? then MatchAt(a).value.consumed else 1;
      ScanAcrossSpace(a[n..], b);
      ScanAcrossSpaceStep(a, b, n);
    }
  }

  /** A leading space matches nothing and is skipped. */
  lemma ScanAfterSpace(b: string)
    ensures Scan([' '] + b) == Scan(b)
  {
    var u := [' '] + b;
    assert MatchAt(u).None? by {
      assert !IsDigit(u[0]);
    }
    assert u[1..] == b;
  }

  /** One step of the induction: when the rest of `a` after its first step scans
      independently of `b`, so does `a`. */
  lemma ScanAcrossSpaceStep(a: string, b: string, n: nat)
    requires |a| > 0 && n == if MatchAt(a).Some? then MatchAt(a).value.consumed else 1
    requires Scan(a[n..] + [' '] + b) == Scan(a[n..]) + Scan(b)
    ensures Scan(a + [' '] + b) == Scan(a) + Scan(b)
  {
    var found := if MatchAt(a).Some? then [MatchAt(a).value.id] else [];
    assert Scan(a) == found + Scan(a[n..]) by {
      ScanSameStep(a, a, n, found);
    }
    ScanStepBeforeSpace(a, b, n, found);
    SeqAssoc(found, Scan(a[n..]), Scan(b));
  }

  /** The scan takes the same first step in `a`, a space, `b` as in `a`. */
  lemma ScanStepBeforeSpace(a: string, b: string, n: nat, found: seq<string>)
    requires |a| > 0 && n == (if MatchAt(a).Some? then MatchAt(a).value.consumed else 1)
    requires found == (if MatchAt(a).Some? then [MatchAt(a).value.id] else [])
    ensures Scan(a + [' '] + b) == found + Scan(a[n..] + [' '] + b)
  {
    var u := a + [' '] + b;
    MatchAtBeforeSpace(a, b);
    ScanSameStep(a, u, n, found);
    assert u[n..] == a[n..] + [' '] + b;
  }

  /** Concatenation is associative (stated once, so that it is not re-derived element by
      element next to the scan's contracts). */
  lemma SeqAssoc<T>(x: seq<T>, y: seq<T>, z: seq<T>)
    ensures x + (y + z) == (x + y) + z
  {
  }

  /** Two texts with the same match at the front take the same first step. */
  lemma ScanSameStep(s: string, t: string, n: nat, found: seq<string>)
    requires |s| > 0 && MatchAt(t) == MatchAt(s)
    requires n == (if MatchAt(s).Some? then MatchAt(s).value.consumed else 1)
    requires found == (if MatchAt(s).Some? then [MatchAt(s).value.id] else [])
    requires n <= |t|
    ensures Scan(t) == found + Scan(t[n..])
  {
  }

  lemma DigitRunOfDigits(n: string)
    requires AllDigits(n)
    ensures DigitRun(n) == |n|
  {
    if |n| > 0 {
      DigitRunOfDigits(n[1..]);
    }
  }

  /** An ID followed by text that does not start with a digit matches as itself,
      consuming any version that follows. */
  lemma MatchOfId(x: string, rest: string)
    requires IsArxivId(x) && (|rest| > 0 ==> !IsDigit(rest[0]))
    ensures MatchAt(x + rest) == Some(IdMatch(x, |x| + VersionLen(rest)))
  {
    var u := x + rest;
    assert forall k :: 0 <= k < |x| ==> u[k] == x[k];
    assert u[..|x|] == x;
    assert u[|x|..] == rest;
  }

  /** An ID on its own is found once. */
  lemma ScanOfId(x: string)
    requires IsArxivId(x)
    ensures Scan(x) == [x]
  {
    MatchOfId(x, []);
    assert x + [] == x;
    assert x[|x|..] == [];
  }

  /** An ID followed by a version `v` and digits is found once and without its version. */
  lemma ScanDropsVersion(x: string, n: string)
    requires IsArxivId(x) && AllDigits(n) && |n| > 0
    ensures Scan(x + ['v'] + n) == [x]
  {
    var rest := ['v'] + n;
    assert rest[1..] == n;
    DigitRunOfDigits(n);
    assert VersionLen(rest) == 1 + |n|;
    MatchOfId(x, rest);
    var u := x + rest;
    assert u == x + ['v'] + n;
    assert u[|u|..] == [];
  }

  /** The IDs of each part, part after part. */
  function ScanAll(parts: seq<string>): seq<string> {
    if |parts| == 0 then [] else Scan(parts[0]) + ScanAll(parts[1..])
  }

  /** Scanning `" ".join(parts)` finds exactly the IDs of the parts, in order. */
  lemma {:induction false} ScanOfJoin(parts: seq<string>)
    ensures Scan(Join(parts, " ")) == ScanAll(parts)
  {
    if |parts| == 1 {
      assert ScanAll(parts[1..]) == [];
    } else if |parts| > 1 {
      ScanAcrossSpace(parts[0], Join(parts[1..], " "));
      ScanOfJoin(parts[1..]);
    }
  }

  lemma ScanAllCoversParts(parts: seq<string>, i: nat, id: string)
    requires i < |parts| && id in Scan(parts[i])
    ensures id in ScanAll(parts)
  {
    if i > 0 {
      ScanAllCoversParts(parts[1..], i - 1, id);
    }
  }

  // ---------------------------------------------------------------------------
  // `_parse_entry`
  // ---------------------------------------------------------------------------

  /** An element of an entry's `content` list: a dict with an optional `value`, or
      something that is not a dict. */
  datatype ContentItem = NotADict | ContentDict(value: Option<string>)

  /** The fields of a feed entry `_parse_entry` reads besides the dates. */
  datatype Entry = Entry(
    title: Option<string>,
    link: Option<string>,
    summary: Option<string>,
    content: seq<ContentItem>,
    linkHrefs: seq<Option<string>>)

  /** The outcome of date parsing: no usable date (missing or unparseable), or a date with
      its ISO text and whether it lies before the fetch-window cutoff. */
  datatype DateInfo = Undated | Dated(iso: string, beforeCutoff: bool)

  /** The non-empty `value`s of the content list, in order. */
  function ContentValues(cs: seq<ContentItem>): (r: seq<string>)
    ensures forall k :: 0 <= k < |r| ==> r[k] != ""
    ensures forall i :: 0 <= i < |cs| && cs[i].ContentDict? && cs[i].value.Some? && cs[i].value.value != "" ==>
              cs[i].value.value in r
    decreases |cs|
  {
    if |cs| == 0 then []
    else
      var last := cs[|cs| - 1];
      assert forall i :: 0 <= i < |cs| - 1 ==> cs[i] == cs[..|cs| - 1][i];
      ContentValues(cs[..|cs| - 1])
        + (if last.ContentDict? && last.value.Some? && last.value.value != "" then [last.value.value] else [])
  }

  /** The texts searched for arXiv IDs: the link, a non-empty summary, the non-empty
      content values and the non-empty link hrefs. */
  function ContentParts(e: Entry): seq<string> {
    [e.link.GetOr("")]
      + (if e.summary.GetOr("") != "" then [e.summary.GetOr("")] else [])
      + ContentValues(e.content) + Present(e.linkHrefs)
  }

  /** The `content_parts` list of `_parse_entry`, built by appending. */
  method CollectContentParts(e: Entry) returns (parts: seq<string>)
    ensures parts == ContentParts(e)
  {
    var summary := e.summary.GetOr("");
    parts := [e.link.GetOr("")];
    if summary != "" {
      parts := parts + [summary];
    }
    parts := AppendContentValues(parts, e.content);
    parts := AppendPresent(parts, e.linkHrefs);
  }

  /** The loop over `entry.content`: each dict's non-empty `value` is appended. */
  method AppendContentValues(parts: seq<string>, content: seq<ContentItem>) returns (r: seq<string>)
    ensures r == parts + ContentValues(content)
  {
    r := parts;
    for i := 0 to |content|
      invariant r == parts + ContentValues(content[..i])
    {
      assert content[..i + 1][..i] == content[..i];
      var c := content[i];
      if c.ContentDict? && c.value.Some? && c.value.value != "" {
        r := r + [c.value.value];
      }
    }
    assert content[..|content|] == content;
  }

  /** The loop over `entry.links`: each non-empty `href` is appended. */
  method AppendPresent(parts: seq<string>, hrefs: seq<Option<string>>) returns (r: seq<string>)
    ensures r == parts + Present(hrefs)
  {
    r := parts;
    for i := 0 to |hrefs|
      invariant r == parts + Present(hrefs[..i])
    {
      assert hrefs[..i + 1][..i] == hrefs[..i];
      var href := hrefs[i].GetOr("");
      if href != "" {
        r := r + [href];
      }
    }
    assert hrefs[..|hrefs|] == hrefs;
  }

  /** Whether `_parse_entry` drops the entry. */
  predicate Dropped(e: Entry, date: DateInfo) {
    |Strip(e.title.GetOr(""))| == 0 || |e.link.GetOr("")| == 0 || (date.Dated? && date.beforeCutoff)
  }

  /** `_parse_entry`, with date parsing and the recency comparison given as `date`. */
  method ParseEntry(e: Entry, source: string, date: DateInfo) returns (post: Option<Post>)
    ensures post.None? <==> Dropped(e, date)
    ensures post.Some? ==> post.value.title == Strip(e.title.GetOr(""))
    ensures post.Some? ==> post.value.url == e.link.GetOr("") && post.value.source == source
    ensures post.Some? ==> post.value.published == (if date.Dated? then date.iso else "")
    ensures post.Some? ==> post.value.summary == PyPrefix(StripHtml(e.summary.GetOr("")), SummaryCap)
    ensures post.Some? ==> |post.value.summary| <= SummaryCap
    ensures post.Some? ==> post.value.arxivIds == Dedup(ScanAll(ContentParts(e)))
  {
    var title := Strip(e.title.GetOr(""));
    var link := e.link.GetOr("");
    if |title| == 0 || |link| == 0 {
      return None;
    }
    if date.Dated? && date.beforeCutoff {
      return None;
    }
    var summary := e.summary.GetOr("");
    var parts := CollectContentParts(e);
    var ids := ExtractArxivIds(Join(parts, " "));
    ScanOfJoin(parts);
    var published := if date.Dated? then date.iso else "";
    post := Some(Post(title, link, source, published, PyPrefix(StripHtml(summary), SummaryCap), ids));
  }

  /** An ID mentioned in any searched part of a kept entry is among the post's IDs. */
  lemma ParsedIdsCoverParts(e: Entry, i: nat, id: string)
    requires i < |ContentParts(e)| && id in Scan(ContentParts(e)[i])
    ensures id in Dedup(ScanAll(ContentParts(e)))
  {
    ScanAllCoversParts(ContentParts(e), i, id);
    var s := ScanAll(ContentParts(e));
    var k :| 0 <= k < |s| && s[k] == id;
  }
}
