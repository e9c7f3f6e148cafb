/** The rendering side of `src/slack.py`: text truncation, HTML escaping, the per-item
    views, and the section layout shared by the Block Kit message and the Markdown
    document (at most five items per section, an overflow note, a totals footer). The
    exact mrkdwn / Markdown text is not modelled; a rendered line is a `Block` value that
    carries the data the text is built from. */
module Slack {
  import opened Common
  import opened Records

  /** Items shown per briefing section. */
  const MaxItemsPerSection: nat := 5
  /** Length of a summary preview. */
  const SummaryPreviewLen: nat := 150
  /** Items of one blog post whose arXiv IDs are listed. */
  const MaxIdsPerPost: nat := 3
  /** Characters of `published` shown (the YYYY-MM-DD part). */
  const PublishedLen: nat := 10

  const Ellipsis: char := '…'

  // ---------------------------------------------------------------------------
  // `_truncate`
  // ---------------------------------------------------------------------------

  /** `_truncate`: the text itself when it fits, else its first `limit - 1` characters
      (Python slice, so a non-positive bound counts from the end) and an ellipsis. */
  function Truncate(text: string, limit: int): (r: string)
    ensures |text| <= limit ==> r == text
    ensures |text| > limit && limit >= 1 ==>
      |r| == limit && r[..limit - 1] == text[..limit - 1] && r[limit - 1] == Ellipsis
    ensures |text| > limit ==> |r| > 0 && r[|r| - 1] == Ellipsis
  {
    if |text| <= limit then text else PyPrefix(text, limit - 1) + [Ellipsis]
  }

  /** With a positive limit the result never exceeds it, and it is the text itself exactly
      when the text already fits. */
  lemma TruncateFits(text: string, limit: int)
    requires limit >= 1
    ensures |Truncate(text, limit)| <= limit
    ensures Truncate(text, limit) == text <==> |text| <= limit
  {
    if |text| > limit {
      assert |Truncate(text, limit)| == limit < |text|;
    }
  }

  // ---------------------------------------------------------------------------
  // `_html_escape`
  // ---------------------------------------------------------------------------

  /** `s.replace(c, t)` for a one-character pattern. */
  function Replace(s: string, c: char, t: string): (r: string)
    ensures c !in s ==> r == s
  {
    if |s| == 0 then []
    else (if s[0] == c then t else [s[0]]) + Replace(s[1..], c, t)
  }

  /** `_html_escape`: the three successive replacements, ampersand first. */
  function HtmlEscape(s: string): string {
    Replace(Replace(Replace(s, '&', "&amp;"), '<', "&lt;"), '>', "&gt;")
  }

  /** The entity of one character. */
  function EscapeChar(c: char): string {
    if c == '&' then "&amp;" else if c == '<' then "&lt;" else if c == '>' then "&gt;" else [c]
  }

  /** Reference definition: every character replaced by its entity in one pass. */
  function EscapeEach(s: string): (r: string)
    ensures '<' !in r && '>' !in r
  {
    if |s| == 0 then [] else EscapeChar(s[0]) + EscapeEach(s[1..])
  }

  /** Decoding of the three entities, left to right. */
  function Unescape(s: string): string
    decreases |s|
  {
    if |s| == 0 then []
    else if |s| >= 5 && s[..5] == "&amp;" then "&" + Unescape(s[5..])
    else if |s| >= 4 && s[..4] == "&lt;" then "<" + Unescape(s[4..])
    else if |s| >= 4 && s[..4] == "&gt;" then ">" + Unescape(s[4..])
    else [s[0]] + Unescape(s[1..])
  }

  /** Replacement distributes over concatenation. */
  lemma {:induction false} ReplaceOfConcat(a: string, b: string, c: char, t: string)
    ensures Replace(a + b, c, t) == Replace(a, c, t) + Replace(b, c, t)
  {
    if |a| == 0 {
      assert a + b == b;
    } else {
      var head := if a[0] == c then t else [a[0]];
      assert (a + b)[1..] == a[1..] + b;
      ReplaceOfConcat(a[1..], b, c, t);
      calc {
        Replace(a + b, c, t);
        head + Replace(a[1..] + b, c, t);
        head + (Replace(a[1..], c, t) + Replace(b, c, t));
        (head + Replace(a[1..], c, t)) + Replace(b, c, t);
      }
    }
  }

  /** The three passes escape concatenated text piece by piece. */
  lemma HtmlEscapeOfConcat(a: string, b: string)
    ensures HtmlEscape(a + b) == HtmlEscape(a) + HtmlEscape(b)
  {
    ReplaceOfConcat(a, b, '&', "&amp;");
    var a1, b1 := Replace(a, '&', "&amp;"), Replace(b, '&', "&amp;");
    ReplaceOfConcat(a1, b1, '<', "&lt;");
    ReplaceOfConcat(Replace(a1, '<', "&lt;"), Replace(b1, '<', "&lt;"), '>', "&gt;");
  }

  /** On one character the three passes give its entity: replacing '&' first means the
      ampersand a later pass introduces is never rewritten. */
  lemma HtmlEscapeOfChar(x: char)
    ensures HtmlEscape([x]) == EscapeChar(x)
  {
    var e1 := Replace([x], '&', "&amp;");
    assert e1 == (if x == '&' then "&amp;" else [x]) + Replace([], '&', "&amp;");
    var e2 := Replace(e1, '<', "&lt;");
    if x == '<' {
      assert e2 == "&lt;" + Replace([], '<', "&lt;");
    } else {
      assert '<' !in e1;
    }
    if x == '>' {
      assert Replace(e2, '>', "&gt;") == "&gt;" + Replace([], '>', "&gt;");
    } else {
      assert '>' !in e2;
    }
  }

  /** The three passes escape each character exactly once. */
  lemma {:induction false} HtmlEscapeIsCharwise(s: string)
    ensures HtmlEscape(s) == EscapeEach(s)
  {
    if |s| > 0 {
      assert s == [s[0]] + s[1..];
      HtmlEscapeOfConcat([s[0]], s[1..]);
      HtmlEscapeOfChar(s[0]);
      HtmlEscapeIsCharwise(s[1..]);
    }
  }

  /** Escaped text holds no angle brackets. */
  lemma HtmlEscapeHasNoBrackets(s: string)
    ensures '<' !in HtmlEscape(s) && '>' !in HtmlEscape(s)
  {
    HtmlEscapeIsCharwise(s);
  }

  /** Escaping is reversible: decoding the entities gives the original text back. */
  lemma {:induction false} UnescapeOfEscape(s: string)
    ensures Unescape(HtmlEscape(s)) == s
  {
    HtmlEscapeIsCharwise(s);
    EscapeRoundTrip(s);
  }

  /** Decoding an escaped character followed by any text. */
  lemma UnescapeOfEntity(x: char, tail: string)
    ensures Unescape(EscapeChar(x) + tail) == [x] + Unescape(tail)
  {
    var u := EscapeChar(x) + tail;
    if x == '&' {
      assert u[..5] == "&amp;" && u[5..] == tail;
    } else if x == '<' {
      assert u[..4] == "&lt;" && u[4..] == tail;
      assert |u| >= 5 ==> u[..5][1] == 'l';
    } else if x == '>' {
      assert u[..4] == "&gt;" && u[4..] == tail;
      assert u[..4][1] == 'g';
      assert |u| >= 5 ==> u[..5][1] == 'g';
    } else {
      assert u[0] == x && u[1..] == tail;
      assert |u| >= 5 ==> u[..5][0] == x;
      assert |u| >= 4 ==> u[..4][0] == x;
    }
  }

  /** The one-pass escape is undone by the decoder. */
  lemma {:induction false} EscapeRoundTrip(s: string)
    ensures Unescape(EscapeEach(s)) == s
  {
    if |s| > 0 {
      UnescapeOfEntity(s[0], EscapeEach(s[1..]));
      EscapeRoundTrip(s[1..]);
      assert s == [s[0]] + s[1..];
    }
  }

  // ---------------------------------------------------------------------------
  // Item views (`_build_blog_item`, `_build_arxiv_item`, `_build_linked_item`)
  // ---------------------------------------------------------------------------

  /** What the item line of a linked paper says about its blog: a link when both the URL
      and the title are known, else the source name alone. */
  datatype BlogRef = BlogLink(url: string, title: string) | SourceOnly(source: string)

  /** The data one rendered item line shows. */
  datatype ItemView =
    | BlogView(title: string, url: string, source: string, published: string,
               arxivIds: seq<string>, preview: Option<string>)
    | ArxivView(title: string, link: string, arxivId: string, keywords: string,
                preview: Option<string>)
    | LinkedView(title: string, link: string, arxivId: string, blogRef: BlogRef,
                 blogSource: string, preview: Option<string>)

  /** The summary line of an item: present only for a non-empty summary, cut to the
      preview length. */
  function Preview(summary: string): (r: Option<string>)
    ensures r.Some? <==> summary != ""
    ensures r.Some? ==> |r.value| <= SummaryPreviewLen
    ensures r.Some? && |summary| <= SummaryPreviewLen ==> r.value == summary
  {
    if summary == "" then None
    else
      TruncateFits(summary, SummaryPreviewLen);
      Some(Truncate(summary, SummaryPreviewLen))
  }

  /** `_build_blog_item`. */
  function BlogViewOf(p: Post): (v: ItemView)
    ensures v.BlogView? && v.title == p.title && v.url == p.url && v.source == p.source
    ensures |v.published| <= PublishedLen && v.published <= p.published
    ensures |p.published| >= PublishedLen ==> |v.published| == PublishedLen
    ensures |p.published| < PublishedLen ==> v.published == p.published
    ensures |v.arxivIds| <= MaxIdsPerPost && v.arxivIds <= p.arxivIds
    ensures |v.arxivIds| == if |p.arxivIds| < MaxIdsPerPost then |p.arxivIds| else MaxIdsPerPost
    ensures v.preview == Preview(p.summary)
  {
    BlogView(p.title, p.url, p.source, PyPrefix(p.published, PublishedLen),
             PyPrefix(p.arxivIds, MaxIdsPerPost), Preview(p.summary))
  }

  /** `_build_arxiv_item`. */
  function ArxivViewOf(p: Paper): (v: ItemView)
    ensures v.ArxivView? && v.title == p.title && v.link == p.link && v.arxivId == p.arxivId
    ensures v.keywords == Join(p.matchedKeywords, ", ")
    ensures v.preview == Preview(p.summary)
  {
    ArxivView(p.title, p.link, p.arxivId, Join(p.matchedKeywords, ", "), Preview(p.summary))
  }

  /** `_build_linked_item`. */
  function LinkedViewOf(it: LinkedItem): (v: ItemView)
    ensures v.LinkedView? && v.title == it.paper.title && v.link == it.paper.link
    ensures v.arxivId == it.paper.arxivId && v.blogSource == it.blogInfo.blogSource
    ensures v.blogRef.BlogLink? <==> it.blogInfo.blogUrl != "" && it.blogInfo.blogTitle != ""
    ensures v.blogRef.BlogLink? ==> v.blogRef == BlogLink(it.blogInfo.blogUrl, it.blogInfo.blogTitle)
    ensures v.blogRef.SourceOnly? ==> v.blogRef.source == it.blogInfo.blogSource
    ensures v.preview == Preview(it.paper.summary)
  {
    var info := it.blogInfo;
    var ref := if info.blogUrl != "" && info.blogTitle != "" then BlogLink(info.blogUrl, info.blogTitle)
               else SourceOnly(info.blogSource);
    LinkedView(it.paper.title, it.paper.link, it.paper.arxivId, ref, info.blogSource,
               Preview(it.paper.summary))
  }

  // ---------------------------------------------------------------------------
  // Layout of `build_daily_briefing_blocks` and `generate_briefing_markdown`
  // ---------------------------------------------------------------------------

  /** The three rendered sections; the buffered safety posts have none. */
  datatype Sec = BlogSection | ArxivSection | LinkedSection

  /** One block of the message (one line group of the Markdown document). */
  datatype Block =
    | Header(date: string)
    | Divider
    | SectionHeader(sec: Sec, count: nat)
    | Item(sec: Sec, view: ItemView)
    | Overflow(sec: Sec, more: nat)
    | Footer(blogs: nat, arxiv: nat, linked: nat, total: nat)

  /** How many of `n` items a section shows. */
  function ShownCount(n: nat): nat {
    if n < MaxItemsPerSection then n else MaxItemsPerSection
  }

  /** The views a section shows: those of its first five items. */
  function Shown<T>(xs: seq<T>, render: T -> ItemView): (r: seq<ItemView>)
    ensures |r| == ShownCount(|xs|)
  {
    var k := ShownCount(|xs|);
    seq(k, i requires 0 <= i < k => render(xs[i]))
  }

  /** A section renders its first `min(5, n)` items, in order. */
  lemma ShownItems<T>(xs: seq<T>, render: T -> ItemView)
    ensures forall i :: 0 <= i < |Shown(xs, render)| ==> Shown(xs, render)[i] == render(xs[i])
  {
  }

  /** One item block per view, in order. */
  function ItemBlocks(sec: Sec, views: seq<ItemView>): seq<Block> {
    if |views| == 0 then [] else ItemBlocks(sec, views[..|views| - 1]) + [Item(sec, views[|views| - 1])]
  }

  /** The head of a non-empty section: the divider (message only) and the header. */
  function SectionHead(sec: Sec, count: nat, divider: bool): seq<Block> {
    (if divider then [Divider] else []) + [SectionHeader(sec, count)]
  }

  /** The note for `n` items beyond the shown ones, when there are any. */
  function OverflowNote(sec: Sec, n: int): seq<Block> {
    if n > 0 then [Overflow(sec, n)] else []
  }

  /** One `if <list>:` section over a list of `count` items of which `shown` are rendered:
      nothing for an empty list; otherwise its head with the full count, the shown items,
      and the overflow note for the rest. */
  function SectionBlocks(sec: Sec, count: nat, shown: seq<ItemView>, divider: bool): seq<Block> {
    if count == 0 then []
    else SectionHead(sec, count, divider) + ItemBlocks(sec, shown) + OverflowNote(sec, count - |shown|)
  }

  /** The block layout of a briefing whose three sections hold `nb`, `np` and `nl` items
      of which `vb`, `vp` and `vl` are rendered; `divider` tells the Block Kit message (a
      divider before each section) from the Markdown document. */
  function Layout(date: string, nb: nat, vb: seq<ItemView>, np: nat, vp: seq<ItemView>, nl: nat, vl: seq<ItemView>,
                  divider: bool): seq<Block>
  {
    [Header(date)]
    + SectionBlocks(BlogSection, nb, vb, divider)
    + SectionBlocks(ArxivSection, np, vp, divider)
    + SectionBlocks(LinkedSection, nl, vl, divider)
    + [Divider, Footer(nb, np, nl, nb + np + nl)]
  }

  /** The whole briefing over the three rendered lists. */
  function Briefing(blogs: seq<Post>, papers: seq<Paper>, linked: seq<LinkedItem>, date: string,
                    divider: bool): seq<Block>
  {
    Layout(date, |blogs|, Shown(blogs, BlogViewOf), |papers|, Shown(papers, ArxivViewOf),
           |linked|, Shown(linked, LinkedViewOf), divider)
  }

  /** The overflow notes a section of `n` items carries: one counting the items beyond
      the first five, when there are any. */
  function OverflowCounts(n: nat): seq<nat> {
    if n > MaxItemsPerSection then [n - MaxItemsPerSection] else []
  }

  /** The headers a section of `n` items carries: one with the count, unless the list
      is empty. */
  function HeaderCounts(n: nat): seq<nat> {
    if n > 0 then [n] else []
  }

  /** The one of three values that belongs to the section `s`. */
  function Pick<T>(s: Sec, b: T, p: T, l: T): T {
    match s
    case BlogSection => b
    case ArxivSection => p
    case LinkedSection => l
  }

  /** Three section-guarded parts, joined, are the part of the section picked. */
  lemma PickOfGuarded<T>(s: Sec, x: seq<T>, y: seq<T>, z: seq<T>)
    ensures (if s == BlogSection then x else []) + (if s == ArxivSection then y else [])
            + (if s == LinkedSection then z else []) == Pick(s, x, y, z)
  {
    match s {
      case BlogSection => assert x + [] + [] == x;
      case ArxivSection => assert [] + y + [] == y;
      case LinkedSection => assert [] + [] + z == z;
    }
  }

  // --- Observers of a rendered briefing ---

  /** The items a section shows, in order. */
  function ItemsOf(bs: seq<Block>, sec: Sec): seq<ItemView> {
    if |bs| == 0 then []
    else
      var b := bs[|bs| - 1];
      ItemsOf(bs[..|bs| - 1], sec) + (if b.Item? && b.sec == sec then [b.view] else [])
  }

  /** The counts of the overflow notes of a section. */
  function OverflowsOf(bs: seq<Block>, sec: Sec): seq<nat> {
    if |bs| == 0 then []
    else
      var b := bs[|bs| - 1];
      OverflowsOf(bs[..|bs| - 1], sec) + (if b.Overflow? && b.sec == sec then [b.more] else [])
  }

  /** The counts in the headers of a section. */
  function HeadersOf(bs: seq<Block>, sec: Sec): seq<nat> {
    if |bs| == 0 then []
    else
      var b := bs[|bs| - 1];
      HeadersOf(bs[..|bs| - 1], sec) + (if b.SectionHeader? && b.sec == sec then [b.count] else [])
  }

  /** The footer blocks. */
  function FootersOf(bs: seq<Block>): seq<Block> {
    if |bs| == 0 then []
    else
      var b := bs[|bs| - 1];
      FootersOf(bs[..|bs| - 1]) + (if b.Footer? then [b] else [])
  }

  lemma {:induction false} ItemsOfConcat(a: seq<Block>, b: seq<Block>, sec: Sec)
    ensures ItemsOf(a + b, sec) == ItemsOf(a, sec) + ItemsOf(b, sec)
  {
    if |b| == 0 {
      assert a + b == a;
    } else {
      assert (a + b)[..|a + b| - 1] == a + b[..|b| - 1];
      ItemsOfConcat(a, b[..|b| - 1], sec);
    }
  }

  lemma {:induction false} OverflowsOfConcat(a: seq<Block>, b: seq<Block>, sec: Sec)
    ensures OverflowsOf(a + b, sec) == OverflowsOf(a, sec) + OverflowsOf(b, sec)
  {
    if |b| == 0 {
      assert a + b == a;
    } else {
      assert (a + b)[..|a + b| - 1] == a + b[..|b| - 1];
      OverflowsOfConcat(a, b[..|b| - 1], sec);
    }
  }

  lemma {:induction false} HeadersOfConcat(a: seq<Block>, b: seq<Block>, sec: Sec)
    ensures HeadersOf(a + b, sec) == HeadersOf(a, sec) + HeadersOf(b, sec)
  {
    if |b| == 0 {
      assert a + b == a;
    } else {
      assert (a + b)[..|a + b| - 1] == a + b[..|b| - 1];
      HeadersOfConcat(a, b[..|b| - 1], sec);
    }
  }

  lemma {:induction false} FootersOfConcat(a: seq<Block>, b: seq<Block>)
    ensures FootersOf(a + b) == FootersOf(a) + FootersOf(b)
  {
    if |b| == 0 {
      assert a + b == a;
    } else {
      assert (a + b)[..|a + b| - 1] == a + b[..|b| - 1];
      FootersOfConcat(a, b[..|b| - 1]);
    }
  }

  // Each observer is treated on its own: the facts about one observer are of no use to
  // the others, and keeping them apart keeps every proof small.

  lemma {:induction false} ItemsOfItemBlocks(sec: Sec, views: seq<ItemView>, s: Sec)
    ensures ItemsOf(ItemBlocks(sec, views), s) == if s == sec then views else []
  {
    if |views| > 0 {
      var bs := ItemBlocks(sec, views);
      assert bs[..|bs| - 1] == ItemBlocks(sec, views[..|views| - 1]);
      ItemsOfItemBlocks(sec, views[..|views| - 1], s);
      assert views[..|views| - 1] + [views[|views| - 1]] == views;
    }
  }

  lemma ItemsOfParts(sec: Sec, count: nat, shown: seq<ItemView>, divider: bool, s: Sec)
    requires |shown| == ShownCount(count)
    ensures ItemsOf(SectionHead(sec, count, divider), s) == []
    ensures ItemsOf(ItemBlocks(sec, shown), s) == if s == sec then shown else []
    ensures ItemsOf(OverflowNote(sec, count - |shown|), s) == []
  {
    ItemsOfHead(sec, count, divider, s);
    ItemsOfItemBlocks(sec, shown, s);
    ItemsOfNote(sec, count - |shown|, s);
  }

  lemma ItemsOfHead(sec: Sec, count: nat, divider: bool, s: Sec)
    ensures ItemsOf(SectionHead(sec, count, divider), s) == []
  {
    var h := SectionHead(sec, count, divider);
    if divider {
      assert h[..1] == [Divider] && [Divider][..0] == [];
    } else {
      assert h[..0] == [];
    }
  }

  lemma ItemsOfNote(sec: Sec, n: int, s: Sec)
    ensures ItemsOf(OverflowNote(sec, n), s) == []
  {
    if n > 0 {
      assert OverflowNote(sec, n)[..0] == [];
    }
  }

  lemma ItemsOfFramed3(x: seq<Block>, y: seq<Block>, z: seq<Block>, s: Sec, v: seq<ItemView>)
    requires ItemsOf(x, s) == [] && ItemsOf(y, s) == v && ItemsOf(z, s) == []
    ensures ItemsOf(x + y + z, s) == v
  {
    ItemsOfConcat(x + y, z, s);
    ItemsOfConcat(x, y, s);
  }

  lemma {:induction false} OverflowsOfItemBlocks(sec: Sec, views: seq<ItemView>, s: Sec)
    ensures OverflowsOf(ItemBlocks(sec, views), s) == []
  {
    if |views| > 0 {
      var bs := ItemBlocks(sec, views);
      assert bs[..|bs| - 1] == ItemBlocks(sec, views[..|views| - 1]);
      OverflowsOfItemBlocks(sec, views[..|views| - 1], s);
      assert views[..|views| - 1] + [views[|views| - 1]] == views;
    }
  }

  lemma OverflowsOfParts(sec: Sec, count: nat, shown: seq<ItemView>, divider: bool, s: Sec)
    requires |shown| == ShownCount(count)
    ensures OverflowsOf(SectionHead(sec, count, divider), s) == []
    ensures OverflowsOf(ItemBlocks(sec, shown), s) == []
    ensures OverflowsOf(OverflowNote(sec, count - |shown|), s) == if s == sec then OverflowCounts(count) else []
  {
    OverflowsOfHead(sec, count, divider, s);
    OverflowsOfItemBlocks(sec, shown, s);
    OverflowsOfNote(sec, count - |shown|, s);
  }

  lemma OverflowsOfHead(sec: Sec, count: nat, divider: bool, s: Sec)
    ensures OverflowsOf(SectionHead(sec, count, divider), s) == []
  {
    var h := SectionHead(sec, count, divider);
    if divider {
      assert h[..1] == [Divider] && [Divider][..0] == [];
    } else {
      assert h[..0] == [];
    }
  }

  lemma OverflowsOfNote(sec: Sec, n: int, s: Sec)
    ensures OverflowsOf(OverflowNote(sec, n), s) == if s == sec && n > 0 then [n] else []
  {
    if n > 0 {
      assert OverflowNote(sec, n)[..0] == [];
    }
  }

  lemma OverflowsOfFramed3(x: seq<Block>, y: seq<Block>, z: seq<Block>, s: Sec, v: seq<nat>)
    requires OverflowsOf(x, s) == [] && OverflowsOf(y, s) == [] && OverflowsOf(z, s) == v
    ensures OverflowsOf(x + y + z, s) == v
  {
    OverflowsOfConcat(x + y, z, s);
    OverflowsOfConcat(x, y, s);
  }

  lemma {:induction false} HeadersOfItemBlocks(sec: Sec, views: seq<ItemView>, s: Sec)
    ensures HeadersOf(ItemBlocks(sec, views), s) == []
  {
    if |views| > 0 {
      var bs := ItemBlocks(sec, views);
      assert bs[..|bs| - 1] == ItemBlocks(sec, views[..|views| - 1]);
      HeadersOfItemBlocks(sec, views[..|views| - 1], s);
      assert views[..|views| - 1] + [views[|views| - 1]] == views;
    }
  }

  lemma HeadersOfParts(sec: Sec, count: nat, shown: seq<ItemView>, divider: bool, s: Sec)
    ensures HeadersOf(SectionHead(sec, count, divider), s) == if s == sec then [count] else []
    ensures HeadersOf(ItemBlocks(sec, shown), s) == []
    ensures HeadersOf(OverflowNote(sec, count - |shown|), s) == []
  {
    HeadersOfHead(sec, count, divider, s);
    HeadersOfItemBlocks(sec, shown, s);
    HeadersOfNote(sec, count - |shown|, s);
  }

  lemma HeadersOfHead(sec: Sec, count: nat, divider: bool, s: Sec)
    ensures HeadersOf(SectionHead(sec, count, divider), s) == if s == sec then [count] else []
  {
    var h := SectionHead(sec, count, divider);
    if divider {
      assert h[..1] == [Divider] && [Divider][..0] == [];
    } else {
      assert h[..0] == [];
    }
  }

  lemma HeadersOfNote(sec: Sec, n: int, s: Sec)
    ensures HeadersOf(OverflowNote(sec, n), s) == []
  {
    if n > 0 {
      assert OverflowNote(sec, n)[..0] == [];
    }
  }

  lemma HeadersOfFramed3(x: seq<Block>, y: seq<Block>, z: seq<Block>, s: Sec, v: seq<nat>)
    requires HeadersOf(x, s) == v && HeadersOf(y, s) == [] && HeadersOf(z, s) == []
    ensures HeadersOf(x + y + z, s) == v
  {
    HeadersOfConcat(x + y, z, s);
    HeadersOfConcat(x, y, s);
  }

  lemma {:induction false} FootersOfItemBlocks(sec: Sec, views: seq<ItemView>)
    ensures FootersOf(ItemBlocks(sec, views)) == []
  {
    if |views| > 0 {
      var bs := ItemBlocks(sec, views);
      assert bs[..|bs| - 1] == ItemBlocks(sec, views[..|views| - 1]);
      FootersOfItemBlocks(sec, views[..|views| - 1]);
      assert views[..|views| - 1] + [views[|views| - 1]] == views;
    }
  }

  lemma FootersOfParts(sec: Sec, count: nat, shown: seq<ItemView>, divider: bool)
    ensures FootersOf(SectionHead(sec, count, divider)) == []
    ensures FootersOf(ItemBlocks(sec, shown)) == []
    ensures FootersOf(OverflowNote(sec, count - |shown|)) == []
  {
    FootersOfHead(sec, count, divider);
    FootersOfItemBlocks(sec, shown);
    FootersOfNote(sec, count - |shown|);
  }

  lemma FootersOfHead(sec: Sec, count: nat, divider: bool)
    ensures FootersOf(SectionHead(sec, count, divider)) == []
  {
    var h := SectionHead(sec, count, divider);
    if divider {
      assert h[..1] == [Divider] && [Divider][..0] == [];
    } else {
      assert h[..0] == [];
    }
  }

  lemma FootersOfNote(sec: Sec, n: int)
    ensures FootersOf(OverflowNote(sec, n)) == []
  {
    if n > 0 {
      assert OverflowNote(sec, n)[..0] == [];
    }
  }

  lemma FootersOfFramed3(x: seq<Block>, y: seq<Block>, z: seq<Block>)
    requires FootersOf(x) == [] && FootersOf(y) == [] && FootersOf(z) == []
    ensures FootersOf(x + y + z) == []
  {
    FootersOfConcat(x + y, z);
    FootersOfConcat(x, y);
  }

  /** What one section of `count` items, of which `shown` are rendered, shows to each
      observer: to its own section its shown items, a note counting the items beyond
      the first five when there are more, and a header with the full count when the list
      is non-empty; nothing to the other sections, and no footer. */
  lemma SectionItems(sec: Sec, count: nat, shown: seq<ItemView>, divider: bool, s: Sec)
    requires |shown| == ShownCount(count)
    ensures ItemsOf(SectionBlocks(sec, count, shown, divider), s) == if s == sec then shown else []
  {
    if count > 0 {
      ItemsOfParts(sec, count, shown, divider, s);
      ItemsOfFramed3(SectionHead(sec, count, divider), ItemBlocks(sec, shown), OverflowNote(sec, count - |shown|), s, if s == sec then shown else []);
    }
  }

  lemma SectionOverflows(sec: Sec, count: nat, shown: seq<ItemView>, divider: bool, s: Sec)
    requires |shown| == ShownCount(count)
    ensures OverflowsOf(SectionBlocks(sec, count, shown, divider), s) == if s == sec then OverflowCounts(count) else []
  {
    if count > 0 {
      OverflowsOfParts(sec, count, shown, divider, s);
      OverflowsOfFramed3(SectionHead(sec, count, divider), ItemBlocks(sec, shown), OverflowNote(sec, count - |shown|), s, if s == sec then OverflowCounts(count) else []);
    }
  }

  lemma SectionHeaders(sec: Sec, count: nat, shown: seq<ItemView>, divider: bool, s: Sec)
    ensures HeadersOf(SectionBlocks(sec, count, shown, divider), s) == if s == sec then HeaderCounts(count) else []
  {
    if count > 0 {
      HeadersOfParts(sec, count, shown, divider, s);
      HeadersOfFramed3(SectionHead(sec, count, divider), ItemBlocks(sec, shown), OverflowNote(sec, count - |shown|), s, if s == sec then HeaderCounts(count) else []);
    }
  }

  lemma SectionFooters(sec: Sec, count: nat, shown: seq<ItemView>, divider: bool)
    ensures FootersOf(SectionBlocks(sec, count, shown, divider)) == []
  {
    if count > 0 {
      FootersOfParts(sec, count, shown, divider);
      FootersOfFramed3(SectionHead(sec, count, divider), ItemBlocks(sec, shown), OverflowNote(sec, count - |shown|));
    }
  }

  /** The title and the footer show nothing to the section observers. */
  lemma ItemsOfEnds(date: string, footer: Block, s: Sec)
    requires footer.Footer?
    ensures ItemsOf([Header(date)], s) == [] && ItemsOf([Divider, footer], s) == []
  {
    assert [Header(date)][..0] == [];
    assert [Divider, footer][..1] == [Divider] && [Divider][..0] == [];
  }

  lemma OverflowsOfEnds(date: string, footer: Block, s: Sec)
    requires footer.Footer?
    ensures OverflowsOf([Header(date)], s) == [] && OverflowsOf([Divider, footer], s) == []
  {
    assert [Header(date)][..0] == [];
    assert [Divider, footer][..1] == [Divider] && [Divider][..0] == [];
  }

  lemma HeadersOfEnds(date: string, footer: Block, s: Sec)
    requires footer.Footer?
    ensures HeadersOf([Header(date)], s) == [] && HeadersOf([Divider, footer], s) == []
  {
    assert [Header(date)][..0] == [];
    assert [Divider, footer][..1] == [Divider] && [Divider][..0] == [];
  }

  lemma FootersOfEnds(date: string, footer: Block)
    requires footer.Footer?
    ensures FootersOf([Header(date)]) == [] && FootersOf([Divider, footer]) == [footer]
  {
    assert [Header(date)][..0] == [];
    assert [Divider, footer][..1] == [Divider] && [Divider][..0] == [];
  }

  /** Title and footer frame the three sections and show nothing to a section observer. */
  lemma ItemsOfFramed5(h: seq<Block>, a: seq<Block>, b: seq<Block>, c: seq<Block>, f: seq<Block>, s: Sec,
                       va: seq<ItemView>, vb: seq<ItemView>, vc: seq<ItemView>)
    requires ItemsOf(h, s) == [] && ItemsOf(f, s) == []
    requires ItemsOf(a, s) == va && ItemsOf(b, s) == vb && ItemsOf(c, s) == vc
    ensures ItemsOf(h + a + b + c + f, s) == va + vb + vc
  {
    ItemsOfConcat(h + a + b + c, f, s);
    ItemsOfConcat(h + a + b, c, s);
    ItemsOfConcat(h + a, b, s);
    ItemsOfConcat(h, a, s);
  }

  lemma OverflowsOfFramed5(h: seq<Block>, a: seq<Block>, b: seq<Block>, c: seq<Block>, f: seq<Block>, s: Sec,
                           va: seq<nat>, vb: seq<nat>, vc: seq<nat>)
    requires OverflowsOf(h, s) == [] && OverflowsOf(f, s) == []
    requires OverflowsOf(a, s) == va && OverflowsOf(b, s) == vb && OverflowsOf(c, s) == vc
    ensures OverflowsOf(h + a + b + c + f, s) == va + vb + vc
  {
    OverflowsOfConcat(h + a + b + c, f, s);
    OverflowsOfConcat(h + a + b, c, s);
    OverflowsOfConcat(h + a, b, s);
    OverflowsOfConcat(h, a, s);
  }

  lemma HeadersOfFramed5(h: seq<Block>, a: seq<Block>, b: seq<Block>, c: seq<Block>, f: seq<Block>, s: Sec,
                         va: seq<nat>, vb: seq<nat>, vc: seq<nat>)
    requires HeadersOf(h, s) == [] && HeadersOf(f, s) == []
    requires HeadersOf(a, s) == va && HeadersOf(b, s) == vb && HeadersOf(c, s) == vc
    ensures HeadersOf(h + a + b + c + f, s) == va + vb + vc
  {
    HeadersOfConcat(h + a + b + c, f, s);
    HeadersOfConcat(h + a + b, c, s);
    HeadersOfConcat(h + a, b, s);
    HeadersOfConcat(h, a, s);
  }

  /** In either form of the briefing, the section `s` shows its rendered views, in order,
      and nothing else shows them. */
  lemma LayoutItems(date: string, nb: nat, vb: seq<ItemView>, np: nat, vp: seq<ItemView>, nl: nat, vl: seq<ItemView>, divider: bool, s: Sec)
    requires |vb| == ShownCount(nb) && |vp| == ShownCount(np) && |vl| == ShownCount(nl)
    ensures ItemsOf(Layout(date, nb, vb, np, vp, nl, vl, divider), s) == Pick(s, vb, vp, vl)
  {
    var f := [Divider, Footer(nb, np, nl, nb + np + nl)];
    var a := SectionBlocks(BlogSection, nb, vb, divider);
    var b := SectionBlocks(ArxivSection, np, vp, divider);
    var c := SectionBlocks(LinkedSection, nl, vl, divider);
    ItemsOfEnds(date, f[1], s);
    SectionItems(BlogSection, nb, vb, divider, s);
    SectionItems(ArxivSection, np, vp, divider, s);
    SectionItems(LinkedSection, nl, vl, divider, s);
    assert Layout(date, nb, vb, np, vp, nl, vl, divider) == [Header(date)] + a + b + c + f;
    ItemsOfFramed5([Header(date)], a, b, c, f, s, if s == BlogSection then vb else [],
                    if s == ArxivSection then vp else [],
                    if s == LinkedSection then vl else []);
    PickOfGuarded(s, vb, vp, vl);
  }

  /** In either form of the briefing, the section `s` of `n` items carries one note
      counting the `n - 5` items not shown, exactly when `n > 5`. */
  lemma LayoutOverflows(date: string, nb: nat, vb: seq<ItemView>, np: nat, vp: seq<ItemView>, nl: nat, vl: seq<ItemView>, divider: bool, s: Sec)
    requires |vb| == ShownCount(nb) && |vp| == ShownCount(np) && |vl| == ShownCount(nl)
    ensures OverflowsOf(Layout(date, nb, vb, np, vp, nl, vl, divider), s) == OverflowCounts(Pick(s, nb, np, nl))
  {
    var f := [Divider, Footer(nb, np, nl, nb + np + nl)];
    var a := SectionBlocks(BlogSection, nb, vb, divider);
    var b := SectionBlocks(ArxivSection, np, vp, divider);
    var c := SectionBlocks(LinkedSection, nl, vl, divider);
    OverflowsOfEnds(date, f[1], s);
    SectionOverflows(BlogSection, nb, vb, divider, s);
    SectionOverflows(ArxivSection, np, vp, divider, s);
    SectionOverflows(LinkedSection, nl, vl, divider, s);
    assert Layout(date, nb, vb, np, vp, nl, vl, divider) == [Header(date)] + a + b + c + f;
    OverflowsOfFramed5([Header(date)], a, b, c, f, s, if s == BlogSection then OverflowCounts(nb) else [],
                    if s == ArxivSection then OverflowCounts(np) else [],
                    if s == LinkedSection then OverflowCounts(nl) else []);
    PickOfGuarded(s, OverflowCounts(nb), OverflowCounts(np), OverflowCounts(nl));
    assert Pick(s, OverflowCounts(nb), OverflowCounts(np), OverflowCounts(nl)) == OverflowCounts(Pick(s, nb, np, nl));
  }

  /** In either form of the briefing, the section `s` of `n` items has one header with
      its count exactly when `n > 0`. */
  lemma LayoutHeaders(date: string, nb: nat, vb: seq<ItemView>, np: nat, vp: seq<ItemView>, nl: nat, vl: seq<ItemView>, divider: bool, s: Sec)
    ensures HeadersOf(Layout(date, nb, vb, np, vp, nl, vl, divider), s) == HeaderCounts(Pick(s, nb, np, nl))
  {
    var f := [Divider, Footer(nb, np, nl, nb + np + nl)];
    var a := SectionBlocks(BlogSection, nb, vb, divider);
    var b := SectionBlocks(ArxivSection, np, vp, divider);
    var c := SectionBlocks(LinkedSection, nl, vl, divider);
    HeadersOfEnds(date, f[1], s);
    SectionHeaders(BlogSection, nb, vb, divider, s);
    SectionHeaders(ArxivSection, np, vp, divider, s);
    SectionHeaders(LinkedSection, nl, vl, divider, s);
    assert Layout(date, nb, vb, np, vp, nl, vl, divider) == [Header(date)] + a + b + c + f;
    HeadersOfFramed5([Header(date)], a, b, c, f, s, if s == BlogSection then HeaderCounts(nb) else [],
                    if s == ArxivSection then HeaderCounts(np) else [],
                    if s == LinkedSection then HeaderCounts(nl) else []);
    PickOfGuarded(s, HeaderCounts(nb), HeaderCounts(np), HeaderCounts(nl));
    assert Pick(s, HeaderCounts(nb), HeaderCounts(np), HeaderCounts(nl)) == HeaderCounts(Pick(s, nb, np, nl));
  }

  lemma FootersOfFramed(h: seq<Block>, a: seq<Block>, b: seq<Block>, c: seq<Block>, f: seq<Block>)
    requires FootersOf(h) == [] && FootersOf(a) == [] && FootersOf(b) == [] && FootersOf(c) == []
    ensures FootersOf(h + a + b + c + f) == FootersOf(f)
  {
    FootersOfConcat(h + a + b + c, f);
    FootersOfConcat(h + a + b, c);
    FootersOfConcat(h + a, b);
    FootersOfConcat(h, a);
  }

  /** A briefing has exactly one footer, whose total is the sum of the three counts. */
  lemma LayoutFooter(date: string, nb: nat, vb: seq<ItemView>, np: nat, vp: seq<ItemView>, nl: nat, vl: seq<ItemView>, divider: bool)
    ensures FootersOf(Layout(date, nb, vb, np, vp, nl, vl, divider)) == [Footer(nb, np, nl, nb + np + nl)]
  {
    var f := [Divider, Footer(nb, np, nl, nb + np + nl)];
    FootersOfEnds(date, f[1]);
    SectionFooters(BlogSection, nb, vb, divider);
    SectionFooters(ArxivSection, np, vp, divider);
    SectionFooters(LinkedSection, nl, vl, divider);
    FootersOfFramed([Header(date)], SectionBlocks(BlogSection, nb, vb, divider), SectionBlocks(ArxivSection, np, vp, divider),
                    SectionBlocks(LinkedSection, nl, vl, divider), f);
  }

  /** Either form of the briefing shows, in each section, the rendered views of the first
      five items of its list (see `ShownItems`), in order, and nothing else. */
  lemma BriefingItems(blogs: seq<Post>, papers: seq<Paper>, linked: seq<LinkedItem>, date: string, divider: bool, s: Sec)
    ensures ItemsOf(Briefing(blogs, papers, linked, date, divider), s)
         == Pick(s, Shown(blogs, BlogViewOf), Shown(papers, ArxivViewOf), Shown(linked, LinkedViewOf))
  {
    LayoutItems(date, |blogs|, Shown(blogs, BlogViewOf), |papers|, Shown(papers, ArxivViewOf), |linked|, Shown(linked, LinkedViewOf), divider, s);
  }

  /** Either form of the briefing notes, in the section of a list of `n` items, the
      `n - 5` items not shown, exactly when `n > 5`. */
  lemma BriefingOverflows(blogs: seq<Post>, papers: seq<Paper>, linked: seq<LinkedItem>, date: string, divider: bool, s: Sec)
    ensures OverflowsOf(Briefing(blogs, papers, linked, date, divider), s) == OverflowCounts(Pick(s, |blogs|, |papers|, |linked|))
  {
    LayoutOverflows(date, |blogs|, Shown(blogs, BlogViewOf), |papers|, Shown(papers, ArxivViewOf), |linked|, Shown(linked, LinkedViewOf), divider, s);
  }

  /** Either form of the briefing heads the section of a list of `n` items with `n`,
      exactly when `n > 0`. */
  lemma BriefingHeaders(blogs: seq<Post>, papers: seq<Paper>, linked: seq<LinkedItem>, date: string, divider: bool, s: Sec)
    ensures HeadersOf(Briefing(blogs, papers, linked, date, divider), s) == HeaderCounts(Pick(s, |blogs|, |papers|, |linked|))
  {
    LayoutHeaders(date, |blogs|, Shown(blogs, BlogViewOf), |papers|, Shown(papers, ArxivViewOf), |linked|, Shown(linked, LinkedViewOf), divider, s);
  }

  /** Either form of the briefing ends with one footer holding the three counts and
      their total. */
  lemma FooterTotals(blogs: seq<Post>, papers: seq<Paper>, linked: seq<LinkedItem>, date: string, divider: bool)
    ensures FootersOf(Briefing(blogs, papers, linked, date, divider))
         == [Footer(|blogs|, |papers|, |linked|, |blogs| + |papers| + |linked|)]
  {
    LayoutFooter(date, |blogs|, Shown(blogs, BlogViewOf), |papers|, Shown(papers, ArxivViewOf), |linked|, Shown(linked, LinkedViewOf), divider);
  }

  /** The Markdown document shows the same items, overflow notes, headers and footer as
      the Block Kit message: the two differ only in their dividers. */
  lemma MarkdownAgreesWithBlocks(blogs: seq<Post>, papers: seq<Paper>, linked: seq<LinkedItem>, date: string, s: Sec)
    ensures ItemsOf(Briefing(blogs, papers, linked, date, false), s) == ItemsOf(Briefing(blogs, papers, linked, date, true), s)
    ensures OverflowsOf(Briefing(blogs, papers, linked, date, false), s) == OverflowsOf(Briefing(blogs, papers, linked, date, true), s)
    ensures HeadersOf(Briefing(blogs, papers, linked, date, false), s) == HeadersOf(Briefing(blogs, papers, linked, date, true), s)
    ensures FootersOf(Briefing(blogs, papers, linked, date, false)) == FootersOf(Briefing(blogs, papers, linked, date, true))
  {
    BriefingItems(blogs, papers, linked, date, false, s);
    BriefingItems(blogs, papers, linked, date, true, s);
    BriefingOverflows(blogs, papers, linked, date, false, s);
    BriefingOverflows(blogs, papers, linked, date, true, s);
    BriefingHeaders(blogs, papers, linked, date, false, s);
    BriefingHeaders(blogs, papers, linked, date, true, s);
    FooterTotals(blogs, papers, linked, date, false);
    FooterTotals(blogs, papers, linked, date, true);
  }

  // --- The builders ---

  /** One `if <list>:` section of either builder, appended to `blocks`: the first five
      items are rendered one by one, and the overflow is the number left over. */
  method EmitSection<T>(blocks: seq<Block>, sec: Sec, xs: seq<T>, render: T -> ItemView, divider: bool)
    returns (r: seq<Block>)
    ensures r == blocks + SectionBlocks(sec, |xs|, Shown(xs, render), divider)
  {
    r := blocks;
    if |xs| > 0 {
      if divider {
        r := r + [Divider];
      }
      r := r + [SectionHeader(sec, |xs|)];
      ghost var head := r;
      assert head == blocks + SectionHead(sec, |xs|, divider);
      r := EmitItems(r, sec, xs, render);
      var overflow := |xs| - MaxItemsPerSection;
      ghost var body := r;
      if overflow > 0 {
        r := r + [Overflow(sec, overflow)];
      }
      assert r == body + OverflowNote(sec, |xs| - |Shown(xs, render)|);
      SectionBlocksOfHead(blocks, head, body, r, sec, |xs|, Shown(xs, render), divider);
    }
  }

  /** A section assembled from its head, its item blocks and its overflow note. */
  lemma SectionBlocksOfHead(blocks: seq<Block>, head: seq<Block>, body: seq<Block>, r: seq<Block>,
                            sec: Sec, count: nat, shown: seq<ItemView>, divider: bool)
    requires count > 0
    requires head == blocks + SectionHead(sec, count, divider)
    requires body == head + ItemBlocks(sec, shown)
    requires r == body + OverflowNote(sec, count - |shown|)
    ensures r == blocks + SectionBlocks(sec, count, shown, divider)
  {
    AppendAssoc(blocks, SectionHead(sec, count, divider), ItemBlocks(sec, shown), OverflowNote(sec, count - |shown|));
  }

  lemma AppendAssoc<T>(a: seq<T>, b: seq<T>, c: seq<T>, d: seq<T>)
    ensures a + (b + c + d) == a + b + c + d
  {
  }

  /** The item loop of a section: one item block for each of the first five items. */
  method EmitItems<T>(blocks: seq<Block>, sec: Sec, xs: seq<T>, render: T -> ItemView) returns (r: seq<Block>)
    ensures r == blocks + ItemBlocks(sec, Shown(xs, render))
  {
    var shown := PyPrefix(xs, MaxItemsPerSection);
    ghost var views := Shown(xs, render);
    ShownItems(xs, render);
    r := blocks;
    for i := 0 to |shown|
      invariant r == blocks + ItemBlocks(sec, views[..i])
    {
      assert views[..i + 1][..i] == views[..i];
      r := r + [Item(sec, render(shown[i]))];
    }
    assert views[..|shown|] == views;
  }

  /** `build_daily_briefing_blocks`: only the three rendered lists are read, so buffered
      safety posts never appear. */
  method BuildDailyBriefingBlocks(items: Categories, date: string) returns (blocks: seq<Block>)
    ensures blocks == Briefing(items.blogPosts, items.arxivPapers, items.linkedPapers, date, true)
  {
    blocks := [Header(date)];
    blocks := EmitSection(blocks, BlogSection, items.blogPosts, BlogViewOf, true);
    blocks := EmitSection(blocks, ArxivSection, items.arxivPapers, ArxivViewOf, true);
    blocks := EmitSection(blocks, LinkedSection, items.linkedPapers, LinkedViewOf, true);
    var total := |items.blogPosts| + |items.arxivPapers| + |items.linkedPapers|;
    blocks := blocks + [Divider, Footer(|items.blogPosts|, |items.arxivPapers|, |items.linkedPapers|, total)];
  }

  /** `generate_briefing_markdown`: the same sections without per-section dividers, and a
      rule before the footer. */
  method GenerateBriefingMarkdown(items: Categories, date: string) returns (lines: seq<Block>)
    ensures lines == Briefing(items.blogPosts, items.arxivPapers, items.linkedPapers, date, false)
  {
    lines := [Header(date)];
    lines := EmitSection(lines, BlogSection, items.blogPosts, BlogViewOf, false);
    lines := EmitSection(lines, ArxivSection, items.arxivPapers, ArxivViewOf, false);
    lines := EmitSection(lines, LinkedSection, items.linkedPapers, LinkedViewOf, false);
    var total := |items.blogPosts| + |items.arxivPapers| + |items.linkedPapers|;
    lines := lines + [Divider, Footer(|items.blogPosts|, |items.arxivPapers|, |items.linkedPapers|, total)];
  }
}
