/** The two run modes of `src/main.py` on top of the state store: `run_collect` buffers
    what the feeds bring, `run_brief` sends the buffer and clears it only once every send
    has gone through. Feeds, sends and uploads are inputs: their items or their outcomes. */
module App {
  import opened Common
  import opened Records
  import opened StateModel
  import opened State
  import opened Slack

  /** The outcome of a fetch that may raise. */
  datatype Fetch<T> = FetchFailed | Fetched(items: seq<T>)

  // ---------------------------------------------------------------------------
  // `run_collect`
  // ---------------------------------------------------------------------------

  /** The arXiv loop's three results: the papers with a cross-reference hit, merged with
      the blog that mentioned them; the others; and the cross-reference map after each hit
      consumed its entry. */
  datatype Split = Split(linked: seq<LinkedItem>, keyword: seq<Paper>, links: map<string, BlogInfo>)

  /** The loop over the new papers: a lookup against the map as it stands, then either a
      merge that consumes the entry or a keyword paper. */
  function SplitPapers(links: map<string, BlogInfo>, papers: seq<Paper>): (r: Split)
    ensures |r.linked| + |r.keyword| == |papers|
    decreases |papers|
  {
    if |papers| == 0 then Split([], [], links)
    else
      var r := SplitPapers(links, papers[..|papers| - 1]);
      var p := papers[|papers| - 1];
      if p.arxivId in r.links then
        Split(r.linked + [LinkedItem(p, r.links[p.arxivId])], r.keyword, r.links - {p.arxivId})
      else Split(r.linked, r.keyword + [p], r.links)
  }

  function PapersOf(items: seq<LinkedItem>): (r: seq<Paper>)
    ensures |r| == |items| && forall i :: 0 <= i < |items| ==> r[i] == items[i].paper
  {
    seq(|items|, i requires 0 <= i < |items| => items[i].paper)
  }

  /** Every new paper lands in exactly one of the two lists. */
  lemma {:induction false} SplitIsPartition(links: map<string, BlogInfo>, papers: seq<Paper>)
    ensures multiset(SplitPapers(links, papers).keyword) + multiset(PapersOf(SplitPapers(links, papers).linked))
            == multiset(papers)
    decreases |papers|
  {
    if |papers| > 0 {
      var init := papers[..|papers| - 1];
      var p := papers[|papers| - 1];
      var r := SplitPapers(links, init);
      SplitIsPartition(links, init);
      assert papers == init + [p];
      if p.arxivId in r.links {
        assert PapersOf(r.linked + [LinkedItem(p, r.links[p.arxivId])]) == PapersOf(r.linked) + [p];
      }
    }
  }

  /** The loop takes out of the map exactly the IDs of the batch; nothing else changes. */
  lemma {:induction false} SplitConsumes(links: map<string, BlogInfo>, papers: seq<Paper>)
    ensures forall k :: k in SplitPapers(links, papers).links <==> k in links && k !in PaperIds(papers)
    ensures forall k :: k in SplitPapers(links, papers).links ==> SplitPapers(links, papers).links[k] == links[k]
    decreases |papers|
  {
    if |papers| > 0 {
      var init := papers[..|papers| - 1];
      SplitConsumes(links, init);
      assert PaperIds(papers) == PaperIds(init) + [papers[|papers| - 1].arxivId];
    }
  }

  /** Both lists hold only papers of the batch. */
  lemma {:induction false} SplitFromInput(links: map<string, BlogInfo>, papers: seq<Paper>)
    ensures forall p :: p in SplitPapers(links, papers).keyword ==> p in papers
    ensures forall it :: it in SplitPapers(links, papers).linked ==> it.paper in papers
    decreases |papers|
  {
    if |papers| > 0 {
      var init := papers[..|papers| - 1];
      SplitFromInput(links, init);
      assert forall p :: p in init ==> p in papers;
    }
  }

  /** With distinct IDs, the last paper's ID is not among the others. */
  lemma LastIdIsNew(papers: seq<Paper>)
    requires |papers| > 0 && NoDup(PaperIds(papers))
    ensures NoDup(PaperIds(papers[..|papers| - 1]))
    ensures forall q :: q in papers[..|papers| - 1] ==> q.arxivId != papers[|papers| - 1].arxivId
    ensures papers[|papers| - 1].arxivId !in PaperIds(papers[..|papers| - 1])
  {
    var init := papers[..|papers| - 1];
    assert PaperIds(init) == PaperIds(papers)[..|papers| - 1];
    forall q | q in init ensures q.arxivId != papers[|papers| - 1].arxivId {
      var i :| 0 <= i < |init| && init[i] == q;
      assert PaperIds(papers)[i] == q.arxivId;
    }
  }

  /** With distinct IDs, a paper becomes a keyword paper exactly when the map lacks its ID. */
  lemma {:induction false} SplitKeywordByLookup(links: map<string, BlogInfo>, papers: seq<Paper>)
    requires NoDup(PaperIds(papers))
    ensures forall p :: p in papers ==> (p in SplitPapers(links, papers).keyword <==> p.arxivId !in links)
    ensures forall p :: p in SplitPapers(links, papers).keyword ==> p in papers && p.arxivId !in links
    decreases |papers|
  {
    if |papers| > 0 {
      var init := papers[..|papers| - 1];
      LastIdIsNew(papers);
      SplitKeywordByLookup(links, init);
      SplitConsumes(links, init);
      assert papers == init + [papers[|papers| - 1]];
    }
  }

  /** With distinct IDs, a paper is merged exactly when the map has its ID, and carries the
      map's record for it. */
  lemma {:induction false} SplitLinkedByLookup(links: map<string, BlogInfo>, papers: seq<Paper>)
    requires NoDup(PaperIds(papers))
    ensures forall p :: p in papers && p.arxivId in links ==>
              LinkedItem(p, links[p.arxivId]) in SplitPapers(links, papers).linked
    ensures forall it :: it in SplitPapers(links, papers).linked ==>
              it.paper in papers && it.paper.arxivId in links && it.blogInfo == links[it.paper.arxivId]
    decreases |papers|
  {
    if |papers| > 0 {
      var init := papers[..|papers| - 1];
      LastIdIsNew(papers);
      SplitLinkedByLookup(links, init);
      SplitConsumes(links, init);
      assert papers == init + [papers[|papers| - 1]];
    }
  }

  /** The blog-feed step: new posts are marked and buffered, when there are any. */
  function CollectBlogPosts(d: Doc, posts: seq<Post>, clock: Clock): Doc {
    var newOnes := FilterNewBlogPosts(posts, d);
    if |newOnes| == 0 then d else BufferedBlogPosts(BlogMarked(d, newOnes, clock.now), newOnes, clock.today)
  }

  /** The safety-feed step, filtered against the URLs as the blog step left them. */
  function CollectSafetyPosts(d: Doc, posts: seq<Post>, clock: Clock): Doc {
    var newOnes := FilterNewBlogPosts(posts, d);
    if |newOnes| == 0 then d else BufferedSafetyPosts(BlogMarked(d, newOnes, clock.now), newOnes, clock.today)
  }

  /** The arXiv step once the fetch succeeded: split, buffer the non-empty lists, mark all
      new IDs (which prunes). */
  function CollectPapers(d: Doc, papers: seq<Paper>, clock: Clock): Doc {
    var newOnes := FilterNewPapers(papers, d);
    var sp := SplitPapers(d.blogArxivMap, newOnes);
    var d1 := d.(blogArxivMap := sp.links);
    var d2 := if |sp.linked| > 0 then BufferedLinkedPapers(d1, sp.linked, clock.today) else d1;
    var d3 := if |sp.keyword| > 0 then BufferedArxivPapers(d2, sp.keyword, clock.today) else d2;
    if |newOnes| > 0 then MarkedNotified(d3, PaperIds(newOnes), clock) else d3
  }

  /** The document `run_collect` saves. */
  function Collected(d: Doc, clock: Clock, blogs: seq<Post>, safety: seq<Post>, arxiv: Fetch<Paper>): Doc {
    var posted := CollectSafetyPosts(CollectBlogPosts(d, blogs, clock), safety, clock);
    match arxiv
    case FetchFailed => posted
    case Fetched(papers) => CollectPapers(posted, papers, clock)
  }

  /** After the blog step every blog URL counts as notified: already before, or now. */
  lemma BlogUrlsNotified(d: Doc, posts: seq<Post>, clock: Clock)
    ensures forall p :: p in posts ==> p.url in CollectBlogPosts(d, posts, clock).notifiedBlogUrls
    ensures forall u :: u in d.notifiedBlogUrls ==> u in CollectBlogPosts(d, posts, clock).notifiedBlogUrls
  {
    var newOnes := FilterNewBlogPosts(posts, d);
    if |newOnes| > 0 {
      var m := BlogMarked(d, newOnes, clock.now);
      assert BufferedBlogPosts(m, newOnes, clock.today).notifiedBlogUrls == m.notifiedBlogUrls;
    }
  }

  /** A URL in both feeds is buffered as a blog post only: the safety filter already sees
      every blog URL as notified. */
  lemma SafetySkipsBlogUrls(d: Doc, blogs: seq<Post>, safety: seq<Post>, clock: Clock)
    ensures forall q, p :: q in FilterNewBlogPosts(safety, CollectBlogPosts(d, blogs, clock)) && p in blogs ==>
              q.url != p.url
  {
    BlogUrlsNotified(d, blogs, clock);
  }

  /** The safety step keeps what the blog step recorded. */
  lemma SafetyKeepsUrls(d: Doc, posts: seq<Post>, clock: Clock)
    ensures forall p :: p in posts ==> p.url in CollectSafetyPosts(d, posts, clock).notifiedBlogUrls
    ensures forall u :: u in d.notifiedBlogUrls ==> u in CollectSafetyPosts(d, posts, clock).notifiedBlogUrls
  {
    var newOnes := FilterNewBlogPosts(posts, d);
    if |newOnes| > 0 {
      var m := BlogMarked(d, newOnes, clock.now);
      assert BufferedSafetyPosts(m, newOnes, clock.today).notifiedBlogUrls == m.notifiedBlogUrls;
    }
  }

  /** The blog step puts every new blog post in today's buffer and marks no paper. */
  lemma BlogStepBuffers(d: Doc, posts: seq<Post>, clock: Clock)
    ensures forall p :: p in FilterNewBlogPosts(posts, d) ==>
              clock.today in CollectBlogPosts(d, posts, clock).dailyBuffer
              && p.url in KeysOf(CollectBlogPosts(d, posts, clock).dailyBuffer[clock.today].blogPosts, PostKey)
    ensures CollectBlogPosts(d, posts, clock).notifiedIds == d.notifiedIds
  {
    var newOnes := FilterNewBlogPosts(posts, d);
    if |newOnes| > 0 {
      forall p | p in newOnes ensures p.url in KeysOf(newOnes, PostKey) {
        var i :| 0 <= i < |newOnes| && newOnes[i] == p;
        assert PostKey(newOnes[i]) in KeysOf(newOnes, PostKey);
      }
    }
  }

  /** The safety step leaves today's blog list as it was and marks no paper. */
  lemma SafetyStepKeeps(d: Doc, posts: seq<Post>, clock: Clock)
    ensures clock.today in d.dailyBuffer ==>
              clock.today in CollectSafetyPosts(d, posts, clock).dailyBuffer
              && CollectSafetyPosts(d, posts, clock).dailyBuffer[clock.today].blogPosts
                 == d.dailyBuffer[clock.today].blogPosts
    ensures CollectSafetyPosts(d, posts, clock).notifiedIds == d.notifiedIds
  {
  }

  /** The safety step puts every new safety post in today's buffer. */
  lemma SafetyStepBuffers(d: Doc, posts: seq<Post>, clock: Clock)
    ensures forall p :: p in FilterNewBlogPosts(posts, d) ==>
              clock.today in CollectSafetyPosts(d, posts, clock).dailyBuffer
              && p.url in KeysOf(CollectSafetyPosts(d, posts, clock).dailyBuffer[clock.today].safetyPosts, PostKey)
  {
    var newOnes := FilterNewBlogPosts(posts, d);
    if |newOnes| > 0 {
      forall p | p in newOnes ensures p.url in KeysOf(newOnes, PostKey) {
        var i :| 0 <= i < |newOnes| && newOnes[i] == p;
        assert PostKey(newOnes[i]) in KeysOf(newOnes, PostKey);
      }
    }
  }

  /** Each post step records a cross-reference for every arXiv ID its new posts mention
      and keeps the ones already there. */
  lemma PostStepsRecordLinks(d: Doc, posts: seq<Post>, clock: Clock)
    ensures forall k :: k in MentionedIds(FilterNewBlogPosts(posts, d)) ==>
              k in CollectBlogPosts(d, posts, clock).blogArxivMap
              && k in CollectSafetyPosts(d, posts, clock).blogArxivMap
    ensures d.blogArxivMap.Keys <= CollectBlogPosts(d, posts, clock).blogArxivMap.Keys
    ensures d.blogArxivMap.Keys <= CollectSafetyPosts(d, posts, clock).blogArxivMap.Keys
  {
  }

  /** When the arXiv fetch raises, the saved document still has every post of both feeds
      notified, the new posts of both feeds in today's buffer, the cross-references of
      both feeds' new posts recorded, and no paper ID marked. */
  lemma FailedFetchKeepsPosts(d: Doc, clock: Clock, blogs: seq<Post>, safety: seq<Post>)
    ensures forall p :: p in blogs + safety ==> p.url in Collected(d, clock, blogs, safety, FetchFailed).notifiedBlogUrls
    ensures forall p :: p in FilterNewBlogPosts(blogs, d) ==>
              clock.today in Collected(d, clock, blogs, safety, FetchFailed).dailyBuffer
              && p.url in KeysOf(Collected(d, clock, blogs, safety, FetchFailed).dailyBuffer[clock.today].blogPosts, PostKey)
    ensures forall p :: p in FilterNewBlogPosts(safety, CollectBlogPosts(d, blogs, clock)) ==>
              clock.today in Collected(d, clock, blogs, safety, FetchFailed).dailyBuffer
              && p.url in KeysOf(Collected(d, clock, blogs, safety, FetchFailed).dailyBuffer[clock.today].safetyPosts, PostKey)
    ensures forall k :: k in MentionedIds(FilterNewBlogPosts(blogs, d))
                        || k in MentionedIds(FilterNewBlogPosts(safety, CollectBlogPosts(d, blogs, clock))) ==>
              k in Collected(d, clock, blogs, safety, FetchFailed).blogArxivMap
    ensures Collected(d, clock, blogs, safety, FetchFailed).notifiedIds == d.notifiedIds
  {
    var b := CollectBlogPosts(d, blogs, clock);
    BlogUrlsNotified(d, blogs, clock);
    SafetyKeepsUrls(b, safety, clock);
    BlogStepBuffers(d, blogs, clock);
    SafetyStepKeeps(b, safety, clock);
    SafetyStepBuffers(b, safety, clock);
    PostStepsRecordLinks(d, blogs, clock);
    PostStepsRecordLinks(b, safety, clock);
  }

  /** The blog step buffers again no post whose URL was notified before it. */
  lemma BlogStepNoRebuffer(d: Doc, posts: seq<Post>, clock: Clock, ids: set<string>, urls: set<string>)
    requires urls <= d.notifiedBlogUrls.Keys
    ensures NoRebuffer(d, CollectBlogPosts(d, posts, clock), ids, urls)
  {
    var newOnes := FilterNewBlogPosts(posts, d);
    if |newOnes| > 0 {
      var m := BlogMarked(d, newOnes, clock.now);
      BufferBlogPostsNoRebuffer(m, newOnes, clock.today, ids, urls);
    }
  }

  /** The safety step buffers again no post whose URL was notified before it. */
  lemma SafetyStepNoRebuffer(d: Doc, posts: seq<Post>, clock: Clock, ids: set<string>, urls: set<string>)
    requires urls <= d.notifiedBlogUrls.Keys
    ensures NoRebuffer(d, CollectSafetyPosts(d, posts, clock), ids, urls)
  {
    var newOnes := FilterNewBlogPosts(posts, d);
    if |newOnes| > 0 {
      var m := BlogMarked(d, newOnes, clock.now);
      BufferSafetyPostsNoRebuffer(m, newOnes, clock.today, ids, urls);
    }
  }

  /** Neither list of the split holds a paper whose ID was notified before the step. */
  lemma SplitHoldsNewIds(d: Doc, papers: seq<Paper>, ids: set<string>)
    requires ids <= d.notifiedIds.Keys
    ensures forall p :: p in SplitPapers(d.blogArxivMap, FilterNewPapers(papers, d)).keyword ==> p.arxivId !in ids
    ensures forall it :: it in SplitPapers(d.blogArxivMap, FilterNewPapers(papers, d)).linked ==>
              it.paper.arxivId !in ids
  {
    SplitFromInput(d.blogArxivMap, FilterNewPapers(papers, d));
  }

  /** The arXiv step buffers again no paper whose ID was notified before it: both lists
      hold new papers only, and marking only prunes days. */
  lemma PapersStepNoRebuffer(d: Doc, papers: seq<Paper>, clock: Clock, ids: set<string>, urls: set<string>)
    requires ids <= d.notifiedIds.Keys
    ensures NoRebuffer(d, CollectPapers(d, papers, clock), ids, urls)
  {
    var newOnes := FilterNewPapers(papers, d);
    var sp := SplitPapers(d.blogArxivMap, newOnes);
    SplitHoldsNewIds(d, papers, ids);
    var d1 := d.(blogArxivMap := sp.links);
    var d2 := if |sp.linked| > 0 then BufferedLinkedPapers(d1, sp.linked, clock.today) else d1;
    var d3 := if |sp.keyword| > 0 then BufferedArxivPapers(d2, sp.keyword, clock.today) else d2;
    if |sp.linked| > 0 {
      BufferLinkedPapersNoRebuffer(d1, sp.linked, clock.today, ids, urls);
    }
    if |sp.keyword| > 0 {
      BufferArxivPapersNoRebuffer(d2, sp.keyword, clock.today, ids, urls);
    }
    NoRebufferTrans(d, d2, d3, ids, urls);
    if |newOnes| > 0 {
      MarkNotifiedNoRebuffer(d3, PaperIds(newOnes), clock, ids, urls);
      NoRebufferTrans(d, d3, MarkedNotified(d3, PaperIds(newOnes), clock), ids, urls);
    }
  }

  /** A collect run never buffers again an item that was already notified when it
      started: every buffered paper whose ID, and every buffered post whose URL, was
      notified before the run already sat in the buffer on that day. */
  lemma CollectRebuffersNothing(d: Doc, clock: Clock, blogs: seq<Post>, safety: seq<Post>, arxiv: Fetch<Paper>)
    ensures NoRebuffer(d, Collected(d, clock, blogs, safety, arxiv), d.notifiedIds.Keys, d.notifiedBlogUrls.Keys)
  {
    var ids, urls := d.notifiedIds.Keys, d.notifiedBlogUrls.Keys;
    var b := CollectBlogPosts(d, blogs, clock);
    var s := CollectSafetyPosts(b, safety, clock);
    BlogStepNoRebuffer(d, blogs, clock, ids, urls);
    BlogUrlsNotified(d, blogs, clock);
    SafetyStepNoRebuffer(b, safety, clock, ids, urls);
    NoRebufferTrans(d, b, s, ids, urls);
    if arxiv.Fetched? {
      BlogStepBuffers(d, blogs, clock);
      SafetyStepKeeps(b, safety, clock);
      PapersStepNoRebuffer(s, arxiv.items, clock, ids, urls);
      NoRebufferTrans(d, s, CollectPapers(s, arxiv.items, clock), ids, urls);
    }
  }

  /** Every new paper's ID is among the IDs marked. */
  lemma NewIdsMarked(papers: seq<Paper>)
    ensures forall p :: p in papers ==> p.arxivId in PaperIds(papers)
  {
    forall p | p in papers ensures p.arxivId in PaperIds(papers) {
      var i :| 0 <= i < |papers| && papers[i] == p;
      assert PaperIds(papers)[i] == p.arxivId;
    }
  }

  /** After a successful arXiv step no new paper's ID is left in the cross-reference map. */
  lemma CollectPapersConsumesAll(d: Doc, papers: seq<Paper>, clock: Clock)
    ensures forall p :: p in FilterNewPapers(papers, d) ==> p.arxivId !in CollectPapers(d, papers, clock).blogArxivMap
  {
    var newOnes := FilterNewPapers(papers, d);
    var sp := SplitPapers(d.blogArxivMap, newOnes);
    SplitConsumes(d.blogArxivMap, newOnes);
    NewIdsMarked(newOnes);
    var d1 := d.(blogArxivMap := sp.links);
    var d2 := if |sp.linked| > 0 then BufferedLinkedPapers(d1, sp.linked, clock.today) else d1;
    var d3 := if |sp.keyword| > 0 then BufferedArxivPapers(d2, sp.keyword, clock.today) else d2;
    assert d2.blogArxivMap == sp.links;
    assert d3.blogArxivMap == sp.links;
  }

  /** After a successful arXiv step every new paper's ID is notified with the current time. */
  lemma CollectPapersMarksAll(d: Doc, papers: seq<Paper>, clock: Clock)
    ensures forall p :: p in FilterNewPapers(papers, d) ==>
              p.arxivId in CollectPapers(d, papers, clock).notifiedIds
              && CollectPapers(d, papers, clock).notifiedIds[p.arxivId] == clock.now
  {
    NewIdsMarked(FilterNewPapers(papers, d));
  }

  /** The blog or safety block of `run_collect` (lines 57-65 and 71-79). */
  method CollectPostsStep(st: StateStore, posts: seq<Post>, clock: Clock, safety: bool)
    modifies st
    ensures st.Snapshot() == if safety then CollectSafetyPosts(old(st.Snapshot()), posts, clock)
                             else CollectBlogPosts(old(st.Snapshot()), posts, clock)
  {
    var newPosts := FilterNewBlogPosts(posts, st.Snapshot());
    if |newPosts| > 0 {
      st.MarkBlogNotified(newPosts, clock.now);
      if safety {
        st.BufferSafetyPosts(newPosts, clock.today);
      } else {
        st.BufferBlogPosts(newPosts, clock.today);
      }
    }
  }

  /** The loop over the new papers: look up, then merge and consume, or keep as a
      keyword paper. */
  method SplitLoop(st: StateStore, newPapers: seq<Paper>) returns (linked: seq<LinkedItem>, keyword: seq<Paper>)
    modifies st
    ensures SplitPapers(old(st.blogArxivMap), newPapers) == Split(linked, keyword, st.blogArxivMap)
    ensures st.Snapshot() == old(st.Snapshot()).(blogArxivMap := st.blogArxivMap)
  {
    linked, keyword := [], [];
    for i := 0 to |newPapers|
      invariant SplitPapers(old(st.blogArxivMap), newPapers[..i]) == Split(linked, keyword, st.blogArxivMap)
      invariant st.Snapshot() == old(st.Snapshot()).(blogArxivMap := st.blogArxivMap)
    {
      var paper := newPapers[i];
      assert newPapers[..i + 1][..i] == newPapers[..i];
      var blogInfo := LookupBlogForArxiv(st.Snapshot(), paper.arxivId);
      if blogInfo.Some? {
        linked := linked + [LinkedItem(paper, blogInfo.value)];
        st.MarkBlogArxivLinked(paper.arxivId);
      } else {
        keyword := keyword + [paper];
      }
    }
    assert newPapers[..|newPapers|] == newPapers;
  }

  /** The body of the `try` once the fetch returned (lines 90-115). */
  method CollectPapersStep(st: StateStore, papers: seq<Paper>, clock: Clock)
    modifies st
    ensures st.Snapshot() == CollectPapers(old(st.Snapshot()), papers, clock)
  {
    var newPapers := FilterNewPapers(papers, st.Snapshot());
    var linked, keyword := SplitLoop(st, newPapers);
    if |linked| > 0 {
      st.BufferLinkedPapers(linked, clock.today);
    }
    if |keyword| > 0 {
      st.BufferArxivPapers(keyword, clock.today);
    }
    var allIds := PaperIds(newPapers);
    if |allIds| > 0 {
      st.MarkNotified(allIds, clock);
    }
  }

  /** `run_collect`: load, the two feed steps, the arXiv step under `try`, save. Returns the
      saved document and whether the arXiv step went through. */
  method RunCollect(stored: Stored, clock: Clock, blogs: seq<Post>, safety: seq<Post>, arxiv: Fetch<Paper>)
    returns (saved: Doc, arxivOk: bool)
    ensures saved == Collected(LoadState(stored, clock.now), clock, blogs, safety, arxiv)
    ensures arxivOk <==> arxiv.Fetched?
  {
    var st := new StateStore.FromDoc(LoadState(stored, clock.now));
    CollectPostsStep(st, blogs, clock, false);
    CollectPostsStep(st, safety, clock, true);
    arxivOk := true;
    match arxiv {
      case FetchFailed =>
        arxivOk := false;
      case Fetched(papers) =>
        CollectPapersStep(st, papers, clock);
    }
    saved := st.Snapshot();
  }

  // ---------------------------------------------------------------------------
  // `run_brief`
  // ---------------------------------------------------------------------------

  /** How the external steps of a brief run turn out: the message send, the Markdown
      upload, the best-effort PDF conversion and the PDF upload. */
  datatype Outcomes = Outcomes(sendOk: bool, markdownUploadOk: bool, pdfMade: bool, pdfUploadOk: bool)

  /** What a brief run hands to Slack, in order. */
  datatype Delivery = Message(blocks: seq<Block>) | MarkdownFile(lines: seq<Block>) | PdfFile

  /** Every step that can raise succeeds; a PDF that could not be made is skipped. */
  predicate BriefSucceeds(out: Outcomes) {
    out.sendOk && out.markdownUploadOk && (out.pdfMade ==> out.pdfUploadOk)
  }

  /** `run_brief`: peek, send, write and upload the Markdown, upload the PDF when it was
      made, then ack and save. Returns the saved document, if the run got that far, and the
      attempted posts. */
  method RunBrief(stored: Stored, now: Timestamp, date: string, out: Outcomes)
    returns (saved: Option<Doc>, posts: seq<Delivery>)
    ensures saved.Some? <==> BriefSucceeds(out)
    ensures saved.Some? ==> saved.value == Acked(LoadState(stored, now))
    ensures |posts| > 0
    ensures posts[0] == Message(Briefing(Aggregate(LoadState(stored, now).dailyBuffer).blogPosts,
                                         Aggregate(LoadState(stored, now).dailyBuffer).arxivPapers,
                                         Aggregate(LoadState(stored, now).dailyBuffer).linkedPapers, date, true))
    ensures out.sendOk <==>
              |posts| > 1 && posts[1] == MarkdownFile(Briefing(Aggregate(LoadState(stored, now).dailyBuffer).blogPosts,
                                                               Aggregate(LoadState(stored, now).dailyBuffer).arxivPapers,
                                                               Aggregate(LoadState(stored, now).dailyBuffer).linkedPapers, date, false))
    ensures PdfFile in posts <==> out.sendOk && out.markdownUploadOk && out.pdfMade
  {
    var st := new StateStore.FromDoc(LoadState(stored, now));
    var items := st.PeekBuffer();
    var blocks := BuildDailyBriefingBlocks(items, date);
    posts := [Message(blocks)];
    saved := None;
    if !out.sendOk {
      return;
    }
    var lines := GenerateBriefingMarkdown(items, date);
    posts := posts + [MarkdownFile(lines)];
    if !out.markdownUploadOk {
      return;
    }
    if out.pdfMade {
      posts := posts + [PdfFile];
      if !out.pdfUploadOk {
        return;
      }
    }
    st.AckBuffer();
    saved := Some(st.Snapshot());
  }

  // ---------------------------------------------------------------------------
  // `main`
  // ---------------------------------------------------------------------------

  datatype Mode = CollectMode | BriefMode

  /** The `MODE` variable: unset means collect; anything but the two names is an error. */
  function SelectMode(mode: Option<string>): (r: Option<Mode>)
    ensures r == Some(CollectMode) <==> mode.None? || mode.value == "collect"
    ensures r == Some(BriefMode) <==> mode == Some("brief")
    ensures r.None? <==> mode.Some? && mode.value != "collect" && mode.value != "brief"
  {
    var name := mode.GetOr("collect");
    if name == "collect" then Some(CollectMode)
    else if name == "brief" then Some(BriefMode)
    else None
  }

  /** What a run of `main` ends with. */
  datatype RunResult =
    | CollectRun(collected: Doc, arxivOk: bool)
    | BriefRun(acked: Option<Doc>, posts: seq<Delivery>)
    | UnknownMode(name: string)

  /** The inputs of one collect run: the two feeds and the arXiv fetch. */
  datatype Feeds = Feeds(blogs: seq<Post>, safety: seq<Post>, arxiv: Fetch<Paper>)

  /** `main`: dispatch on the mode; an unknown mode raises before anything is loaded. */
  method RunMain(mode: Option<string>, stored: Stored, clock: Clock, feeds: Feeds, date: string, out: Outcomes)
    returns (r: RunResult)
    ensures r.UnknownMode? <==> SelectMode(mode).None?
    ensures r.UnknownMode? ==> mode == Some(r.name)
    ensures r.CollectRun? <==> SelectMode(mode) == Some(CollectMode)
    ensures r.CollectRun? ==> r.collected == Collected(LoadState(stored, clock.now), clock, feeds.blogs, feeds.safety, feeds.arxiv)
    ensures r.BriefRun? ==> (r.acked.Some? <==> BriefSucceeds(out))
    ensures r.BriefRun? && r.acked.Some? ==> r.acked.value == Acked(LoadState(stored, clock.now))
  {
    match SelectMode(mode) {
      case Some(CollectMode) =>
        var saved, ok := RunCollect(stored, clock, feeds.blogs, feeds.safety, feeds.arxiv);
        r := CollectRun(saved, ok);
      case Some(BriefMode) =>
        var saved, posts := RunBrief(stored, clock.now, date, out);
        r := BriefRun(saved, posts);
      case None =>
        r := UnknownMode(mode.value);
    }
  }
}
