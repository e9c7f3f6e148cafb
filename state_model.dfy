/** The value-level meaning of `src/state.py`: the persisted document, and one function
    per operation saying what the document becomes. The class in module State changes
    its fields exactly as these functions say. */
module StateModel {
  import opened Common
  import opened Records

  /** The persisted state document: two "already notified" maps, the arXiv-to-blog
      cross-reference map and the date-keyed daily buffer. */
  datatype Doc = Doc(
    notifiedIds: map<string, Timestamp>,
    notifiedBlogUrls: map<string, Timestamp>,
    blogArxivMap: map<string, BlogInfo>,
    dailyBuffer: map<DateKey, Categories>)

  const DefaultDoc := Doc(map[], map[], map[], map[])

  // ---------------------------------------------------------------------------
  // Retention cutoffs and pruning
  // ---------------------------------------------------------------------------

  /** Paper IDs are kept for the fetch window plus one day. */
  function ArxivCutoff(now: Timestamp): Timestamp {
    now - (FetchHours + 24) * SecondsPerHour
  }

  function BlogCutoff(now: Timestamp): Timestamp {
    now - BlogRetentionDays * SecondsPerDay
  }

  function BufferCutoff(today: DateKey): DateKey {
    today - BufferRetentionDays
  }

  function KeepNewer(m: map<string, Timestamp>, cutoff: Timestamp): map<string, Timestamp> {
    map k | k in m && m[k] > cutoff :: m[k]
  }

  /** A cross-reference whose `added_at` is missing reads as "" and never beats the cutoff. */
  function KeepLinksNewer(m: map<string, BlogInfo>, cutoff: Timestamp): map<string, BlogInfo> {
    map k | k in m && m[k].addedAt.Some? && m[k].addedAt.value > cutoff :: m[k]
  }

  function KeepDaysFrom(buf: map<DateKey, Categories>, cutoff: DateKey): map<DateKey, Categories> {
    map k | k in buf && k >= cutoff :: buf[k]
  }

  function KeepDaysBefore(buf: map<DateKey, Categories>, cutoff: DateKey): map<DateKey, Categories> {
    map k | k in buf && k < cutoff :: buf[k]
  }

  /** `_prune_old_ids` (which ends by calling `_prune_buffer`): the notified maps and the
      cross-references keep exactly the entries strictly newer than their cutoff, the buffer
      keeps exactly the days at or after its cutoff. */
  function Pruned(d: Doc, clock: Clock): (r: Doc)
    ensures forall k :: k in r.notifiedIds <==>
              k in d.notifiedIds && d.notifiedIds[k] > ArxivCutoff(clock.now)
    ensures forall k :: k in r.notifiedIds ==> r.notifiedIds[k] == d.notifiedIds[k]
    ensures forall u :: u in r.notifiedBlogUrls <==>
              u in d.notifiedBlogUrls && d.notifiedBlogUrls[u] > BlogCutoff(clock.now)
    ensures forall u :: u in r.notifiedBlogUrls ==> r.notifiedBlogUrls[u] == d.notifiedBlogUrls[u]
    ensures forall k :: k in r.blogArxivMap <==>
              k in d.blogArxivMap && d.blogArxivMap[k].addedAt.Some?
              && d.blogArxivMap[k].addedAt.value > BlogCutoff(clock.now)
    ensures forall k :: k in r.blogArxivMap ==> r.blogArxivMap[k] == d.blogArxivMap[k]
    ensures forall day :: day in r.dailyBuffer <==>
              day in d.dailyBuffer && day >= BufferCutoff(clock.today)
    ensures forall day :: day in r.dailyBuffer ==> r.dailyBuffer[day] == d.dailyBuffer[day]
  {
    Doc(KeepNewer(d.notifiedIds, ArxivCutoff(clock.now)),
        KeepNewer(d.notifiedBlogUrls, BlogCutoff(clock.now)),
        KeepLinksNewer(d.blogArxivMap, BlogCutoff(clock.now)),
        KeepDaysFrom(d.dailyBuffer, BufferCutoff(clock.today)))
  }

  /** The inclusive/exclusive choices at the boundaries: an ID stamped exactly at the
      cutoff goes, one a second newer stays; a day exactly at the buffer cutoff stays. */
  lemma PruneBoundaries(d: Doc, clock: Clock, id: string, day: DateKey)
    requires id in d.notifiedIds && day in d.dailyBuffer
    ensures d.notifiedIds[id] == ArxivCutoff(clock.now) ==> id !in Pruned(d, clock).notifiedIds
    ensures d.notifiedIds[id] == ArxivCutoff(clock.now) + 1 ==> id in Pruned(d, clock).notifiedIds
    ensures day == BufferCutoff(clock.today) ==> day in Pruned(d, clock).dailyBuffer
    ensures day == BufferCutoff(clock.today) - 1 ==> day !in Pruned(d, clock).dailyBuffer
  {
  }

  /** Pruning twice with the same clock is pruning once. */
  lemma PruneIdempotent(d: Doc, clock: Clock)
    ensures Pruned(Pruned(d, clock), clock) == Pruned(d, clock)
  {
    var p := Pruned(d, clock);
    var q := Pruned(p, clock);
    assert q.notifiedIds == p.notifiedIds;
    assert q.notifiedBlogUrls == p.notifiedBlogUrls;
    assert q.blogArxivMap == p.blogArxivMap;
    assert q.dailyBuffer == p.dailyBuffer;
  }

  // ---------------------------------------------------------------------------
  // Filtering and marking
  // ---------------------------------------------------------------------------

  /** The items whose natural key is not yet notified, in input order. */
  function Unseen<T>(items: seq<T>, key: T -> string, notified: map<string, Timestamp>): (r: seq<T>)
    ensures |r| <= |items|
    ensures forall i :: 0 <= i < |r| ==> r[i] in items && key(r[i]) !in notified
    ensures forall i :: 0 <= i < |items| && key(items[i]) !in notified ==> items[i] in r
    decreases |items|
  {
    if |items| == 0 then []
    else
      var r := Unseen(items[..|items| - 1], key, notified);
      var last := items[|items| - 1];
      assert forall i :: 0 <= i < |items| - 1 ==> items[i] == items[..|items| - 1][i];
      if key(last) in notified then r else r + [last]
  }

  /** Filtering a concatenation filters each part: the filter keeps input order. */
  lemma {:induction false} UnseenOfConcat<T>(a: seq<T>, b: seq<T>, key: T -> string, notified: map<string, Timestamp>)
    ensures Unseen(a + b, key, notified) == Unseen(a, key, notified) + Unseen(b, key, notified)
    decreases |b|
  {
    if |b| > 0 {
      assert (a + b)[..|a + b| - 1] == a + b[..|b| - 1];
      UnseenOfConcat(a, b[..|b| - 1], key, notified);
    } else {
      assert a + b == a;
    }
  }

  /** `filter_new_papers`. */
  function FilterNewPapers(papers: seq<Paper>, d: Doc): (r: seq<Paper>)
    ensures forall p :: p in r <==> p in papers && p.arxivId !in d.notifiedIds
  {
    Unseen(papers, PaperKey, d.notifiedIds)
  }

  /** `filter_new_blog_posts`. */
  function FilterNewBlogPosts(posts: seq<Post>, d: Doc): (r: seq<Post>)
    ensures forall p :: p in r <==> p in posts && p.url !in d.notifiedBlogUrls
  {
    Unseen(posts, PostKey, d.notifiedBlogUrls)
  }

  /** Sets every key of `keys`, in order, to `v`. */
  function Assign<V>(m: map<string, V>, keys: seq<string>, v: V): (r: map<string, V>)
    ensures forall k :: k in r <==> k in m || k in keys
    ensures forall k :: k in keys ==> r[k] == v
    ensures forall k :: k in m && k !in keys ==> r[k] == m[k]
    decreases |keys|
  {
    if |keys| == 0 then m
    else
      assert keys == keys[..|keys| - 1] + [keys[|keys| - 1]];
      Assign(m, keys[..|keys| - 1], v)[keys[|keys| - 1] := v]
  }

  function PaperIds(papers: seq<Paper>): (r: seq<string>)
    ensures |r| == |papers| && forall i :: 0 <= i < |papers| ==> r[i] == papers[i].arxivId
  {
    seq(|papers|, i requires 0 <= i < |papers| => papers[i].arxivId)
  }

  function Urls(posts: seq<Post>): (r: seq<string>)
    ensures |r| == |posts| && forall i :: 0 <= i < |posts| ==> r[i] == posts[i].url
  {
    seq(|posts|, i requires 0 <= i < |posts| => posts[i].url)
  }

  /** `mark_notified`: stamp every ID with `now`, then prune. Every given ID survives the
      prune (now is newer than its cutoff); every other surviving entry is an old one,
      unchanged and newer than the cutoff. */
  function MarkedNotified(d: Doc, ids: seq<string>, clock: Clock): (r: Doc)
    ensures forall id :: id in ids ==> id in r.notifiedIds && r.notifiedIds[id] == clock.now
    ensures forall k :: k in r.notifiedIds && k !in ids ==>
              k in d.notifiedIds && r.notifiedIds[k] == d.notifiedIds[k]
              && d.notifiedIds[k] > ArxivCutoff(clock.now)
    ensures forall k :: k in d.notifiedIds && k !in ids && d.notifiedIds[k] > ArxivCutoff(clock.now) ==>
              k in r.notifiedIds
    // Forwards Pruned's contract for the other three fields: callers learn from it that
    // the URLs, the cross-references and the buffer are only pruned (MarkNotifiedNoRebuffer).
    ensures r == Pruned(d.(notifiedIds := Assign(d.notifiedIds, ids, clock.now)), clock)
  {
    Pruned(d.(notifiedIds := Assign(d.notifiedIds, ids, clock.now)), clock)
  }

  /** The cross-reference `mark_blog_notified` records for a post. */
  function LinkOf(p: Post, now: Timestamp): BlogInfo {
    BlogInfo(p.url, p.title, p.source, Some(now))
  }

  /** Every arXiv ID mentioned by `posts`, in order. */
  function MentionedIds(posts: seq<Post>): seq<string>
    decreases |posts|
  {
    if |posts| == 0 then [] else MentionedIds(posts[..|posts| - 1]) + posts[|posts| - 1].arxivIds
  }

  /** The cross-reference updates of `mark_blog_notified`, post by post. */
  function RecordPosts(m: map<string, BlogInfo>, posts: seq<Post>, now: Timestamp): (r: map<string, BlogInfo>)
    ensures forall k :: k in r <==> k in m || k in MentionedIds(posts)
    ensures forall k :: k in m && k !in MentionedIds(posts) ==> r[k] == m[k]
    decreases |posts|
  {
    if |posts| == 0 then m
    else
      var last := posts[|posts| - 1];
      Assign(RecordPosts(m, posts[..|posts| - 1], now), last.arxivIds, LinkOf(last, now))
  }

  /** Latest mention wins: an ID maps to the last post of the batch that mentions it. */
  lemma {:induction false} LatestMentionWins(m: map<string, BlogInfo>, posts: seq<Post>, now: Timestamp, aid: string, i: nat)
    requires i < |posts| && aid in posts[i].arxivIds
    requires forall j :: i < j < |posts| ==> aid !in posts[j].arxivIds
    ensures aid in RecordPosts(m, posts, now)
    ensures RecordPosts(m, posts, now)[aid] == LinkOf(posts[i], now)
    decreases |posts|
  {
    if i < |posts| - 1 {
      LatestMentionWins(m, posts[..|posts| - 1], now, aid, i);
    }
  }

  lemma UrlsOfPosts(posts: seq<Post>)
    ensures forall p :: p in posts ==> p.url in Urls(posts)
    ensures (set u | u in Urls(posts)) == set p | p in posts :: p.url
  {
    forall p | p in posts ensures p.url in Urls(posts) {
      var i :| 0 <= i < |posts| && posts[i] == p;
      assert Urls(posts)[i] == p.url;
    }
    forall u | u in Urls(posts) ensures u in set p | p in posts :: p.url {
      var i :| 0 <= i < |posts| && Urls(posts)[i] == u;
      assert posts[i] in posts;
    }
  }

  /** `mark_blog_notified`: no pruning happens here. */
  function BlogMarked(d: Doc, posts: seq<Post>, now: Timestamp): (r: Doc)
    ensures forall p :: p in posts ==> p.url in r.notifiedBlogUrls && r.notifiedBlogUrls[p.url] == now
    ensures forall u :: u in d.notifiedBlogUrls && u !in Urls(posts) ==>
              u in r.notifiedBlogUrls && r.notifiedBlogUrls[u] == d.notifiedBlogUrls[u]
    ensures r.notifiedBlogUrls.Keys == d.notifiedBlogUrls.Keys + set p | p in posts :: p.url
    ensures r.blogArxivMap.Keys == d.blogArxivMap.Keys + set k | k in MentionedIds(posts)
    ensures r.notifiedIds == d.notifiedIds && r.dailyBuffer == d.dailyBuffer
  {
    UrlsOfPosts(posts);
    d.(notifiedBlogUrls := Assign(d.notifiedBlogUrls, Urls(posts), now),
       blogArxivMap := RecordPosts(d.blogArxivMap, posts, now))
  }

  /** `lookup_blog_for_arxiv`. */
  function LookupBlogForArxiv(d: Doc, aid: string): (r: Option<BlogInfo>)
    ensures r.Some? <==> aid in d.blogArxivMap
    ensures r.Some? ==> r.value == d.blogArxivMap[aid]
  {
    if aid in d.blogArxivMap then Some(d.blogArxivMap[aid]) else None
  }

  /** `mark_blog_arxiv_linked`: removes the entry; removing an absent one changes nothing. */
  function Consumed(d: Doc, aid: string): (r: Doc)
    ensures LookupBlogForArxiv(r, aid) == None
    ensures forall k :: k != aid ==> LookupBlogForArxiv(r, k) == LookupBlogForArxiv(d, k)
    ensures aid !in d.blogArxivMap ==> r == d
    ensures r.notifiedIds == d.notifiedIds && r.notifiedBlogUrls == d.notifiedBlogUrls
    ensures r.dailyBuffer == d.dailyBuffer
  {
    d.(blogArxivMap := d.blogArxivMap - {aid})
  }

  /** A post recorded by `mark_blog_notified`, looked up, is found with the metadata of the
      last post mentioning it; once consumed it is gone. */
  lemma CrossReferenceRoundTrip(d: Doc, posts: seq<Post>, now: Timestamp, aid: string, i: nat)
    requires i < |posts| && aid in posts[i].arxivIds
    requires forall j :: i < j < |posts| ==> aid !in posts[j].arxivIds
    ensures LookupBlogForArxiv(BlogMarked(d, posts, now), aid) == Some(LinkOf(posts[i], now))
    ensures LookupBlogForArxiv(Consumed(BlogMarked(d, posts, now), aid), aid) == None
  {
    LatestMentionWins(d.blogArxivMap, posts, now, aid, i);
  }

  // ---------------------------------------------------------------------------
  // The daily buffer
  // ---------------------------------------------------------------------------

  function KeysOf<T>(s: seq<T>, key: T -> string): set<string> {
    set i | 0 <= i < |s| :: key(s[i])
  }

  /** No two items of `s` share a natural key. */
  ghost predicate UniqueKeys<T>(s: seq<T>, key: T -> string) {
    forall i, j :: 0 <= i < j < |s| ==> key(s[i]) != key(s[j])
  }

  lemma KeysOfSnoc<T>(s: seq<T>, x: T, key: T -> string)
    ensures KeysOf(s + [x], key) == KeysOf(s, key) + {key(x)}
  {
    var l, r := KeysOf(s + [x], key), KeysOf(s, key) + {key(x)};
    forall k | k in r ensures k in l {
      if k == key(x) {
        assert key((s + [x])[|s|]) == k;
      } else {
        var i :| 0 <= i < |s| && key(s[i]) == k;
        assert key((s + [x])[i]) == k;
      }
    }
  }

  /** The loop of every `buffer_*` function: append each item whose key is not yet in the
      list (the list as it grows, so duplicates within the batch collapse too). The old
      contents stay an unchanged prefix; the keys afterwards are the old keys plus the
      batch's; keys stay unique. */
  function AppendNew<T>(existing: seq<T>, items: seq<T>, key: T -> string): (r: seq<T>)
    ensures |existing| <= |r| && r[..|existing|] == existing
    ensures KeysOf(r, key) == KeysOf(existing, key) + KeysOf(items, key)
    ensures forall i :: |existing| <= i < |r| ==> r[i] in items
    ensures UniqueKeys(existing, key) ==> UniqueKeys(r, key)
    decreases |items|
  {
    if |items| == 0 then existing
    else
      var p, x := items[..|items| - 1], items[|items| - 1];
      assert items == p + [x];
      KeysOfSnoc(p, x, key);
      var r := AppendNew(existing, p, key);
      if key(x) in KeysOf(r, key) then r
      else
        KeysOfSnoc(r, x, key);
        assert forall i :: 0 <= i < |r| ==> key(r[i]) in KeysOf(r, key);
        r + [x]
  }

  lemma {:induction false} AppendNewOfKnown<T>(existing: seq<T>, items: seq<T>, key: T -> string)
    requires KeysOf(items, key) <= KeysOf(existing, key)
    ensures AppendNew(existing, items, key) == existing
    decreases |items|
  {
    if |items| > 0 {
      var p, x := items[..|items| - 1], items[|items| - 1];
      assert items == p + [x];
      KeysOfSnoc(p, x, key);
      AppendNewOfKnown(existing, p, key);
    }
  }

  /** Appending the same batch twice is appending it once. */
  lemma AppendNewIdempotent<T>(existing: seq<T>, items: seq<T>, key: T -> string)
    ensures AppendNew(AppendNew(existing, items, key), items, key) == AppendNew(existing, items, key)
  {
    AppendNewOfKnown(AppendNew(existing, items, key), items, key);
  }

  /** One item is appended exactly when its key is not in the list yet. */
  lemma AppendNewOfOne<T>(existing: seq<T>, x: T, key: T -> string)
    ensures AppendNew(existing, [x], key) == if key(x) in KeysOf(existing, key) then existing else existing + [x]
  {
    assert [x][..0] == [];
  }

  /** A batch is handled item by item in its own order: appending `a + b` is appending `a`,
      then `b` to the result. With the one-item case this fixes the appended part: the
      first item of each new key, in input order. */
  lemma {:induction false} AppendNewOfConcat<T>(existing: seq<T>, a: seq<T>, b: seq<T>, key: T -> string)
    ensures AppendNew(existing, a + b, key) == AppendNew(AppendNew(existing, a, key), b, key)
    decreases |b|
  {
    if |b| == 0 {
      assert a + b == a;
    } else {
      var p, x := b[..|b| - 1], b[|b| - 1];
      assert (a + b)[..|a + b| - 1] == a + p && (a + b)[|a + b| - 1] == x;
      AppendNewOfConcat(existing, a, p, key);
    }
  }

  /** Everything in the result was in the list or in the batch. */
  lemma AppendNewFrom<T>(existing: seq<T>, items: seq<T>, key: T -> string)
    ensures forall x :: x in AppendNew(existing, items, key) ==> x in existing || x in items
  {
    var r := AppendNew(existing, items, key);
    forall x | x in r ensures x in existing || x in items {
      var i :| 0 <= i < |r| && r[i] == x;
      if i < |existing| {
        assert r[..|existing|][i] == x;
      }
    }
  }

  /** `_ensure_buffer_day`: a missing day is created with four empty lists; an existing
      day is left as it is. */
  function WithDay(buf: map<DateKey, Categories>, day: DateKey): (r: map<DateKey, Categories>)
    ensures day in r
    ensures day in buf ==> r == buf
    ensures day !in buf ==> r == buf[day := NoItems] && r[day] == NoItems
  {
    if day in buf then buf else buf[day := NoItems]
  }

  /** Every day's four lists have unique natural keys. */
  ghost predicate BufferDeduped(buf: map<DateKey, Categories>) {
    forall k :: k in buf ==>
      UniqueKeys(buf[k].blogPosts, PostKey) && UniqueKeys(buf[k].arxivPapers, PaperKey)
      && UniqueKeys(buf[k].linkedPapers, LinkedKey) && UniqueKeys(buf[k].safetyPosts, PostKey)
  }

  /** `buffer_blog_posts`. */
  function BufferedBlogPosts(d: Doc, posts: seq<Post>, today: DateKey): (r: Doc)
    ensures today in r.dailyBuffer
    ensures r.dailyBuffer[today] == WithDay(d.dailyBuffer, today)[today].(blogPosts :=
              AppendNew(WithDay(d.dailyBuffer, today)[today].blogPosts, posts, PostKey))
    ensures r.dailyBuffer - {today} == d.dailyBuffer - {today}
    ensures r.(dailyBuffer := d.dailyBuffer) == d
    ensures BufferDeduped(d.dailyBuffer) ==> BufferDeduped(r.dailyBuffer)
  {
    var day := WithDay(d.dailyBuffer, today)[today];
    d.(dailyBuffer := d.dailyBuffer[today := day.(blogPosts := AppendNew(day.blogPosts, posts, PostKey))])
  }

  /** `buffer_safety_posts`. */
  function BufferedSafetyPosts(d: Doc, posts: seq<Post>, today: DateKey): (r: Doc)
    ensures today in r.dailyBuffer
    ensures r.dailyBuffer[today] == WithDay(d.dailyBuffer, today)[today].(safetyPosts :=
              AppendNew(WithDay(d.dailyBuffer, today)[today].safetyPosts, posts, PostKey))
    ensures r.dailyBuffer - {today} == d.dailyBuffer - {today}
    ensures r.(dailyBuffer := d.dailyBuffer) == d
    ensures BufferDeduped(d.dailyBuffer) ==> BufferDeduped(r.dailyBuffer)
  {
    var day := WithDay(d.dailyBuffer, today)[today];
    d.(dailyBuffer := d.dailyBuffer[today := day.(safetyPosts := AppendNew(day.safetyPosts, posts, PostKey))])
  }

  /** `buffer_arxiv_papers`. */
  function BufferedArxivPapers(d: Doc, papers: seq<Paper>, today: DateKey): (r: Doc)
    ensures today in r.dailyBuffer
    ensures r.dailyBuffer[today] == WithDay(d.dailyBuffer, today)[today].(arxivPapers :=
              AppendNew(WithDay(d.dailyBuffer, today)[today].arxivPapers, papers, PaperKey))
    ensures r.dailyBuffer - {today} == d.dailyBuffer - {today}
    ensures r.(dailyBuffer := d.dailyBuffer) == d
    ensures BufferDeduped(d.dailyBuffer) ==> BufferDeduped(r.dailyBuffer)
  {
    var day := WithDay(d.dailyBuffer, today)[today];
    d.(dailyBuffer := d.dailyBuffer[today := day.(arxivPapers := AppendNew(day.arxivPapers, papers, PaperKey))])
  }

  /** `buffer_linked_papers`. */
  function BufferedLinkedPapers(d: Doc, items: seq<LinkedItem>, today: DateKey): (r: Doc)
    ensures today in r.dailyBuffer
    ensures r.dailyBuffer[today] == WithDay(d.dailyBuffer, today)[today].(linkedPapers :=
              AppendNew(WithDay(d.dailyBuffer, today)[today].linkedPapers, items, LinkedKey))
    ensures r.dailyBuffer - {today} == d.dailyBuffer - {today}
    ensures r.(dailyBuffer := d.dailyBuffer) == d
    ensures BufferDeduped(d.dailyBuffer) ==> BufferDeduped(r.dailyBuffer)
  {
    var day := WithDay(d.dailyBuffer, today)[today];
    d.(dailyBuffer := d.dailyBuffer[today := day.(linkedPapers := AppendNew(day.linkedPapers, items, LinkedKey))])
  }

  /** Buffering the same batch twice on the same day is buffering it once (blog posts). */
  lemma BufferBlogPostsIdempotent(d: Doc, posts: seq<Post>, today: DateKey)
    ensures BufferedBlogPosts(BufferedBlogPosts(d, posts, today), posts, today) == BufferedBlogPosts(d, posts, today)
  {
    AppendNewIdempotent(WithDay(d.dailyBuffer, today)[today].blogPosts, posts, PostKey);
  }

  /** Buffering the same batch twice on the same day is buffering it once (safety posts). */
  lemma BufferSafetyPostsIdempotent(d: Doc, posts: seq<Post>, today: DateKey)
    ensures BufferedSafetyPosts(BufferedSafetyPosts(d, posts, today), posts, today) == BufferedSafetyPosts(d, posts, today)
  {
    AppendNewIdempotent(WithDay(d.dailyBuffer, today)[today].safetyPosts, posts, PostKey);
  }

  /** Buffering the same batch twice on the same day is buffering it once (papers). */
  lemma BufferArxivPapersIdempotent(d: Doc, papers: seq<Paper>, today: DateKey)
    ensures BufferedArxivPapers(BufferedArxivPapers(d, papers, today), papers, today) == BufferedArxivPapers(d, papers, today)
  {
    AppendNewIdempotent(WithDay(d.dailyBuffer, today)[today].arxivPapers, papers, PaperKey);
  }

  /** Buffering the same batch twice on the same day is buffering it once (linked papers). */
  lemma BufferLinkedPapersIdempotent(d: Doc, items: seq<LinkedItem>, today: DateKey)
    ensures BufferedLinkedPapers(BufferedLinkedPapers(d, items, today), items, today) == BufferedLinkedPapers(d, items, today)
  {
    AppendNewIdempotent(WithDay(d.dailyBuffer, today)[today].linkedPapers, items, LinkedKey);
  }

  /** Pruning keeps the buffer de-duplicated. */
  lemma PruneKeepsBufferDeduped(d: Doc, clock: Clock)
    requires BufferDeduped(d.dailyBuffer)
    ensures BufferDeduped(Pruned(d, clock).dailyBuffer)
  {
  }

  /** Every item of `r`'s buffer whose key is in `ids` (papers, by arXiv ID) or `urls`
      (posts, by URL) was already in `d`'s buffer on the same day. */
  ghost predicate NoRebuffer(d: Doc, r: Doc, ids: set<string>, urls: set<string>) {
    (forall k, p :: k in r.dailyBuffer && p in r.dailyBuffer[k].arxivPapers && p.arxivId in ids ==>
       k in d.dailyBuffer && p in d.dailyBuffer[k].arxivPapers)
    && (forall k, it :: k in r.dailyBuffer && it in r.dailyBuffer[k].linkedPapers && it.paper.arxivId in ids ==>
          k in d.dailyBuffer && it in d.dailyBuffer[k].linkedPapers)
    && (forall k, p :: k in r.dailyBuffer && p in r.dailyBuffer[k].blogPosts && p.url in urls ==>
          k in d.dailyBuffer && p in d.dailyBuffer[k].blogPosts)
    && (forall k, p :: k in r.dailyBuffer && p in r.dailyBuffer[k].safetyPosts && p.url in urls ==>
          k in d.dailyBuffer && p in d.dailyBuffer[k].safetyPosts)
  }

  lemma NoRebufferTrans(a: Doc, b: Doc, c: Doc, ids: set<string>, urls: set<string>)
    requires NoRebuffer(a, b, ids, urls) && NoRebuffer(b, c, ids, urls)
    ensures NoRebuffer(a, c, ids, urls)
  {
  }

  /** A buffer that only keeps some of `d`'s days, unchanged, buffers nothing again. */
  lemma NoRebufferOfKeptDays(d: Doc, r: Doc, ids: set<string>, urls: set<string>)
    requires forall k :: k in r.dailyBuffer ==> k in d.dailyBuffer && r.dailyBuffer[k] == d.dailyBuffer[k]
    ensures NoRebuffer(d, r, ids, urls)
  {
  }

  /** Marking IDs only prunes days, so it buffers nothing again. */
  lemma MarkNotifiedNoRebuffer(d: Doc, newIds: seq<string>, clock: Clock, ids: set<string>, urls: set<string>)
    ensures NoRebuffer(d, MarkedNotified(d, newIds, clock), ids, urls)
  {
    NoRebufferOfKeptDays(d, MarkedNotified(d, newIds, clock), ids, urls);
  }

  /** Buffering blog posts none of whose URLs is in `urls` buffers nothing again. */
  lemma BufferBlogPostsNoRebuffer(d: Doc, posts: seq<Post>, today: DateKey, ids: set<string>, urls: set<string>)
    requires forall p :: p in posts ==> p.url !in urls
    ensures NoRebuffer(d, BufferedBlogPosts(d, posts, today), ids, urls)
  {
    AppendNewFrom(WithDay(d.dailyBuffer, today)[today].blogPosts, posts, PostKey);
  }

  /** Buffering safety posts none of whose URLs is in `urls` buffers nothing again. */
  lemma BufferSafetyPostsNoRebuffer(d: Doc, posts: seq<Post>, today: DateKey, ids: set<string>, urls: set<string>)
    requires forall p :: p in posts ==> p.url !in urls
    ensures NoRebuffer(d, BufferedSafetyPosts(d, posts, today), ids, urls)
  {
    AppendNewFrom(WithDay(d.dailyBuffer, today)[today].safetyPosts, posts, PostKey);
  }

  /** Buffering papers none of whose IDs is in `ids` buffers nothing again. */
  lemma BufferArxivPapersNoRebuffer(d: Doc, papers: seq<Paper>, today: DateKey, ids: set<string>, urls: set<string>)
    requires forall p :: p in papers ==> p.arxivId !in ids
    ensures NoRebuffer(d, BufferedArxivPapers(d, papers, today), ids, urls)
  {
    AppendNewFrom(WithDay(d.dailyBuffer, today)[today].arxivPapers, papers, PaperKey);
  }

  /** Buffering merged papers none of whose IDs is in `ids` buffers nothing again. */
  lemma BufferLinkedPapersNoRebuffer(d: Doc, items: seq<LinkedItem>, today: DateKey, ids: set<string>, urls: set<string>)
    requires forall it :: it in items ==> it.paper.arxivId !in ids
    ensures NoRebuffer(d, BufferedLinkedPapers(d, items, today), ids, urls)
  {
    AppendNewFrom(WithDay(d.dailyBuffer, today)[today].linkedPapers, items, LinkedKey);
  }

  // ---------------------------------------------------------------------------
  // Peek and ack
  // ---------------------------------------------------------------------------

  lemma EmptyIfNoMember(ks: set<DateKey>)
    requires forall k :: k !in ks
    ensures ks == {}
  {
    var e: set<DateKey> := {};
    assert forall k :: k in ks <==> k in e;
    assert ks == e;
  }

  lemma NonEmptyHasMember(ks: set<DateKey>)
    requires ks != {}
    ensures exists k :: k in ks
  {
    if !(exists k :: k in ks) {
      EmptyIfNoMember(ks);
    }
  }

  /** Every non-empty set of date keys has an earliest one. */
  lemma {:induction false} HasEarliest(ks: set<DateKey>)
    requires ks != {}
    ensures exists m :: m in ks && forall k :: k in ks ==> m <= k
    decreases ks
  {
    NonEmptyHasMember(ks);
    var x :| x in ks;
    if y :| y in ks && y < x {
      assert y in ks - {x};
      HasEarliest(ks - {x});
      var z :| z in ks - {x} && forall k :: k in ks - {x} ==> z <= k;
      assert z <= y;
      forall k | k in ks ensures z <= k {
        if k != x {
          assert k in ks - {x};
        }
      }
    } else {
      assert forall k :: k in ks ==> x <= k;
    }
  }

  /** The earliest date key of a non-empty set. */
  ghost function MinKey(ks: set<DateKey>): (m: DateKey)
    requires ks != {}
    ensures m in ks && forall k :: k in ks ==> m <= k
  {
    HasEarliest(ks);
    var m :| m in ks && forall k :: k in ks ==> m <= k;
    m
  }

  /** The days `ks` of `buf`, concatenated in ascending date order. */
  ghost function AggregateKeys(buf: map<DateKey, Categories>, ks: set<DateKey>): Categories
    requires ks <= buf.Keys
    decreases ks
  {
    if ks == {} then NoItems
    else
      var d := MinKey(ks);
      Concat(buf[d], AggregateKeys(buf, ks - {d}))
  }

  /** What `peek_buffer` returns: each category concatenated over all days, oldest first. */
  ghost function Aggregate(buf: map<DateKey, Categories>): Categories {
    AggregateKeys(buf, buf.Keys)
  }

  lemma {:induction false} AggregateKeysFrame(a: map<DateKey, Categories>, b: map<DateKey, Categories>, ks: set<DateKey>)
    requires ks <= a.Keys && ks <= b.Keys
    requires forall k :: k in ks ==> a[k] == b[k]
    ensures AggregateKeys(a, ks) == AggregateKeys(b, ks)
    decreases ks
  {
    if ks != {} {
      AggregateKeysFrame(a, b, ks - {MinKey(ks)});
    }
  }

  /** The keys of `ks` before `c`. */
  function Below(ks: set<DateKey>, c: DateKey): set<DateKey> {
    set k | k in ks && k < c
  }

  /** The keys of `ks` from `c` on. */
  function From(ks: set<DateKey>, c: DateKey): set<DateKey> {
    set k | k in ks && k >= c
  }

  /** Removing the earliest key `m` of `ks` removes it from the side of `c` it lies on. */
  lemma SplitWithoutMin(ks: set<DateKey>, c: DateKey, m: DateKey)
    requires ks != {} && m == MinKey(ks)
    ensures m < c ==> m in Below(ks, c) && MinKey(Below(ks, c)) == m
                      && Below(ks, c) - {m} == Below(ks - {m}, c) && From(ks, c) == From(ks - {m}, c)
    ensures m >= c ==> Below(ks, c) == {} && From(ks, c) == ks
  {
    if m < c {
      assert m in Below(ks, c) && MinKey(Below(ks, c)) in ks;
    } else {
      assert forall k :: k in ks ==> k >= c;
    }
  }

  /** Days before `c` all come before the days from `c` on. */
  lemma {:induction false} AggregateKeysSplit(buf: map<DateKey, Categories>, ks: set<DateKey>, c: DateKey)
    requires ks <= buf.Keys
    ensures AggregateKeys(buf, ks) == Concat(AggregateKeys(buf, Below(ks, c)), AggregateKeys(buf, From(ks, c)))
    decreases ks
  {
    if ks == {} {
      assert Below(ks, c) == {} && From(ks, c) == {};
    } else {
      var m := MinKey(ks);
      AggregateKeysSplit(buf, ks - {m}, c);
      SplitWithoutMin(ks, c, m);
      if m < c {
        ConcatAssoc(buf[m], AggregateKeys(buf, Below(ks - {m}, c)), AggregateKeys(buf, From(ks, c)));
      } else {
        assert AggregateKeys(buf, {}) == NoItems;
      }
    }
  }

  /** The peek of a pruned buffer is the tail of the peek of the whole buffer. */
  lemma PeekOfPrunedIsSuffix(buf: map<DateKey, Categories>, c: DateKey)
    ensures Aggregate(buf) == Concat(Aggregate(KeepDaysBefore(buf, c)), Aggregate(KeepDaysFrom(buf, c)))
  {
    AggregateKeysSplit(buf, buf.Keys, c);
    var lo := Below(buf.Keys, c);
    var hi := From(buf.Keys, c);
    assert KeepDaysBefore(buf, c).Keys == lo;
    assert KeepDaysFrom(buf, c).Keys == hi;
    AggregateKeysFrame(buf, KeepDaysBefore(buf, c), lo);
    AggregateKeysFrame(buf, KeepDaysFrom(buf, c), hi);
  }

  /** The peek of a single day is that day. */
  lemma AggregateOfOneDay(today: DateKey, day: Categories)
    ensures Aggregate(map[today := day]) == day
  {
    var single := map[today := day];
    assert single.Keys == {today};
    assert MinKey(single.Keys) == today;
    assert single.Keys - {today} == {};
    assert AggregateKeys(single, {}) == NoItems;
    assert Concat(day, NoItems) == day;
  }

  /** Adding a day later than every buffered day splits, at that day, into the old buffer
      and the new day alone. */
  lemma SplitAtNewestDay(buf: map<DateKey, Categories>, today: DateKey, day: Categories)
    requires forall k :: k in buf ==> k < today
    ensures KeepDaysBefore(buf[today := day], today) == buf
    ensures KeepDaysFrom(buf[today := day], today) == map[today := day]
  {
    var b := buf[today := day];
    assert KeepDaysBefore(b, today).Keys == buf.Keys;
    assert KeepDaysFrom(b, today).Keys == {today};
  }

  /** Items written to a day newer than every buffered day come last in the peek. */
  lemma PeekWithNewestDay(buf: map<DateKey, Categories>, today: DateKey, day: Categories)
    requires forall k :: k in buf ==> k < today
    ensures Aggregate(buf[today := day]) == Concat(Aggregate(buf), day)
  {
    PeekOfPrunedIsSuffix(buf[today := day], today);
    SplitAtNewestDay(buf, today, day);
    AggregateOfOneDay(today, day);
  }

  /** `ack_buffer`: the buffer becomes empty; nothing else changes. */
  function Acked(d: Doc): (r: Doc)
    ensures Aggregate(r.dailyBuffer) == NoItems
    ensures r.notifiedIds == d.notifiedIds && r.notifiedBlogUrls == d.notifiedBlogUrls
    ensures r.blogArxivMap == d.blogArxivMap && r.dailyBuffer == map[]
  {
    d.(dailyBuffer := map[])
  }

  // ---------------------------------------------------------------------------
  // Loading
  // ---------------------------------------------------------------------------

  /** `notified_ids` as stored: the old list format or the current map format. */
  datatype StoredIds = IdList(ids: seq<string>) | IdMap(stamps: map<string, Timestamp>)

  /** A parsed state file; each top-level key may be missing. */
  datatype RawDoc = RawDoc(
    notifiedIds: Option<StoredIds>,
    notifiedBlogUrls: Option<map<string, Timestamp>>,
    blogArxivMap: Option<map<string, BlogInfo>>,
    dailyBuffer: Option<map<DateKey, Categories>>)

  /** What reading the state file gives. */
  datatype Stored = Missing | Corrupt | Parsed(raw: RawDoc)

  function MigrateIds(ids: StoredIds, now: Timestamp): (r: map<string, Timestamp>)
    ensures ids.IdList? ==> (forall k :: k in r <==> k in ids.ids) && (forall k :: k in r ==> r[k] == now)
    ensures ids.IdMap? ==> r == ids.stamps
  {
    match ids
    case IdList(l) => map k | k in l :: now
    case IdMap(m) => m
  }

  /** `load_state`: a missing or corrupt file gives the empty default; a list of IDs is
      upgraded to a map stamping every ID with `now`; missing keys get empty defaults and
      present ones are kept. */
  function LoadState(stored: Stored, now: Timestamp): (r: Doc)
    ensures !stored.Parsed? ==> r == DefaultDoc
    ensures stored.Parsed? && stored.raw.notifiedIds.Some? ==>
              r.notifiedIds == MigrateIds(stored.raw.notifiedIds.value, now)
    ensures stored.Parsed? && stored.raw.notifiedIds.None? ==> r.notifiedIds == map[]
    ensures stored.Parsed? ==> r.notifiedBlogUrls == stored.raw.notifiedBlogUrls.GetOr(map[])
    ensures stored.Parsed? ==> r.blogArxivMap == stored.raw.blogArxivMap.GetOr(map[])
    ensures stored.Parsed? ==> r.dailyBuffer == stored.raw.dailyBuffer.GetOr(map[])
  {
    match stored
    case Missing => DefaultDoc
    case Corrupt => DefaultDoc
    case Parsed(raw) =>
      Doc(if raw.notifiedIds.Some? then MigrateIds(raw.notifiedIds.value, now) else map[],
          raw.notifiedBlogUrls.GetOr(map[]),
          raw.blogArxivMap.GetOr(map[]),
          raw.dailyBuffer.GetOr(map[]))
  }

  /** After loading an old list-format file, every listed ID counts as already notified. */
  lemma MigratedIdsAreSeen(raw: RawDoc, now: Timestamp, papers: seq<Paper>)
    requires raw.notifiedIds.Some? && raw.notifiedIds.value.IdList?
    ensures forall p :: p in FilterNewPapers(papers, LoadState(Parsed(raw), now)) ==>
              p.arxivId !in raw.notifiedIds.value.ids
    ensures forall id :: id in raw.notifiedIds.value.ids ==>
              id in LoadState(Parsed(raw), now).notifiedIds
              && LoadState(Parsed(raw), now).notifiedIds[id] == now
  {
  }
}
