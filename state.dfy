/** The mutable state of `src/state.py`: the loaded JSON document as an object whose
    operations update it in place. Each method leaves the object equal to the value
    StateModel assigns to that operation. */
module State {
  import opened Common
  import opened Records
  import opened StateModel

  /** The loop of every `buffer_*` function: the key set of the day's list is built once,
      then each item whose key is not in it is appended and its key added. */
  method AppendUnseen<T>(existing: seq<T>, items: seq<T>, key: T -> string) returns (r: seq<T>)
    ensures r == AppendNew(existing, items, key)
  {
    r := existing;
    var seen := KeysOf(existing, key);
    for i := 0 to |items|
      invariant r == AppendNew(existing, items[..i], key)
      invariant seen == KeysOf(r, key)
    {
      assert items[..i + 1][..i] == items[..i];
      if key(items[i]) !in seen {
        KeysOfSnoc(r, items[i], key);
        r := r + [items[i]];
        seen := seen + {key(items[i])};
      }
    }
    assert items[..|items|] == items;
  }

  class StateStore {
    var notifiedIds: map<string, Timestamp>
    var notifiedBlogUrls: map<string, Timestamp>
    var blogArxivMap: map<string, BlogInfo>
    var dailyBuffer: map<DateKey, Categories>

    /** The document as it would be saved. */
    function Snapshot(): Doc
      reads this
    {
      Doc(notifiedIds, notifiedBlogUrls, blogArxivMap, dailyBuffer)
    }

    /** The state as `load_state` hands it over. */
    constructor FromDoc(d: Doc)
      ensures Snapshot() == d
    {
      notifiedIds := d.notifiedIds;
      notifiedBlogUrls := d.notifiedBlogUrls;
      blogArxivMap := d.blogArxivMap;
      dailyBuffer := d.dailyBuffer;
    }

    /** `_ensure_buffer_day`. */
    method EnsureBufferDay(day: DateKey)
      modifies this
      ensures Snapshot() == old(Snapshot()).(dailyBuffer := WithDay(old(dailyBuffer), day))
    {
      if day !in dailyBuffer {
        dailyBuffer := dailyBuffer[day := NoItems];
      }
    }

    /** `_prune_buffer`. */
    method PruneBuffer(today: DateKey)
      modifies this
      ensures Snapshot() == old(Snapshot()).(dailyBuffer := KeepDaysFrom(old(dailyBuffer), BufferCutoff(today)))
    {
      var cutoff := BufferCutoff(today);
      dailyBuffer := map k | k in dailyBuffer && k >= cutoff :: dailyBuffer[k];
    }

    /** `_prune_old_ids`. */
    method PruneOldIds(clock: Clock)
      modifies this
      ensures Snapshot() == Pruned(old(Snapshot()), clock)
    {
      var arxivCutoff := ArxivCutoff(clock.now);
      notifiedIds := map k | k in notifiedIds && notifiedIds[k] > arxivCutoff :: notifiedIds[k];
      var blogCutoff := BlogCutoff(clock.now);
      notifiedBlogUrls := map u | u in notifiedBlogUrls && notifiedBlogUrls[u] > blogCutoff :: notifiedBlogUrls[u];
      blogArxivMap := map k | k in blogArxivMap && blogArxivMap[k].addedAt.Some?
                                && blogArxivMap[k].addedAt.value > blogCutoff :: blogArxivMap[k];
      PruneBuffer(clock.today);
    }

    /** `mark_notified`. */
    method MarkNotified(ids: seq<string>, clock: Clock)
      modifies this
      ensures Snapshot() == MarkedNotified(old(Snapshot()), ids, clock)
    {
      for i := 0 to |ids|
        invariant notifiedIds == Assign(old(notifiedIds), ids[..i], clock.now)
        invariant notifiedBlogUrls == old(notifiedBlogUrls) && blogArxivMap == old(blogArxivMap)
        invariant dailyBuffer == old(dailyBuffer)
      {
        assert ids[..i + 1][..i] == ids[..i];
        notifiedIds := notifiedIds[ids[i] := clock.now];
      }
      assert ids[..|ids|] == ids;
      PruneOldIds(clock);
    }

    /** `mark_blog_notified`. */
    method MarkBlogNotified(posts: seq<Post>, now: Timestamp)
      modifies this
      ensures Snapshot() == BlogMarked(old(Snapshot()), posts, now)
    {
      for i := 0 to |posts|
        invariant notifiedBlogUrls == Assign(old(notifiedBlogUrls), Urls(posts[..i]), now)
        invariant blogArxivMap == RecordPosts(old(blogArxivMap), posts[..i], now)
        invariant notifiedIds == old(notifiedIds) && dailyBuffer == old(dailyBuffer)
      {
        var post := posts[i];
        assert posts[..i + 1][..i] == posts[..i];
        assert Urls(posts[..i + 1]) == Urls(posts[..i]) + [post.url];
        assert Urls(posts[..i + 1])[..i] == Urls(posts[..i]);
        notifiedBlogUrls := notifiedBlogUrls[post.url := now];
        ghost var before := blogArxivMap;
        ghost var urls := notifiedBlogUrls;
        for j := 0 to |post.arxivIds|
          invariant blogArxivMap == Assign(before, post.arxivIds[..j], LinkOf(post, now))
          invariant notifiedBlogUrls == urls
          invariant notifiedIds == old(notifiedIds) && dailyBuffer == old(dailyBuffer)
        {
          assert post.arxivIds[..j + 1][..j] == post.arxivIds[..j];
          blogArxivMap := blogArxivMap[post.arxivIds[j] := LinkOf(post, now)];
        }
        assert post.arxivIds[..|post.arxivIds|] == post.arxivIds;
      }
      assert posts[..|posts|] == posts;
    }

    /** `mark_blog_arxiv_linked`. */
    method MarkBlogArxivLinked(aid: string)
      modifies this
      ensures Snapshot() == Consumed(old(Snapshot()), aid)
    {
      blogArxivMap := blogArxivMap - {aid};
    }

    /** `buffer_blog_posts`. */
    method BufferBlogPosts(posts: seq<Post>, today: DateKey)
      modifies this
      ensures Snapshot() == BufferedBlogPosts(old(Snapshot()), posts, today)
    {
      EnsureBufferDay(today);
      var day := dailyBuffer[today];
      var l := AppendUnseen(day.blogPosts, posts, PostKey);
      dailyBuffer := dailyBuffer[today := day.(blogPosts := l)];
    }

    /** `buffer_safety_posts`. */
    method BufferSafetyPosts(posts: seq<Post>, today: DateKey)
      modifies this
      ensures Snapshot() == BufferedSafetyPosts(old(Snapshot()), posts, today)
    {
      EnsureBufferDay(today);
      var day := dailyBuffer[today];
      var l := AppendUnseen(day.safetyPosts, posts, PostKey);
      dailyBuffer := dailyBuffer[today := day.(safetyPosts := l)];
    }

    /** `buffer_arxiv_papers`. */
    method BufferArxivPapers(papers: seq<Paper>, today: DateKey)
      modifies this
      ensures Snapshot() == BufferedArxivPapers(old(Snapshot()), papers, today)
    {
      EnsureBufferDay(today);
      var day := dailyBuffer[today];
      var l := AppendUnseen(day.arxivPapers, papers, PaperKey);
      dailyBuffer := dailyBuffer[today := day.(arxivPapers := l)];
    }

    /** `buffer_linked_papers`. */
    method BufferLinkedPapers(items: seq<LinkedItem>, today: DateKey)
      modifies this
      ensures Snapshot() == BufferedLinkedPapers(old(Snapshot()), items, today)
    {
      EnsureBufferDay(today);
      var day := dailyBuffer[today];
      var l := AppendUnseen(day.linkedPapers, items, LinkedKey);
      dailyBuffer := dailyBuffer[today := day.(linkedPapers := l)];
    }

    /** `peek_buffer`: walks the days in ascending date order, extending each category;
        the buffer is not changed. */
    method PeekBuffer() returns (c: Categories)
      ensures c == Aggregate(dailyBuffer)
    {
      var remaining := dailyBuffer.Keys;
      c := NoItems;
      while remaining != {}
        invariant remaining <= dailyBuffer.Keys
        invariant Concat(c, AggregateKeys(dailyBuffer, remaining)) == Aggregate(dailyBuffer)
        decreases remaining
      {
        ghost var m := MinKey(remaining);
        var d :| d in remaining && forall k :: k in remaining ==> d <= k;
        assert d == m;
        ConcatAssoc(c, dailyBuffer[d], AggregateKeys(dailyBuffer, remaining - {d}));
        c := Concat(c, dailyBuffer[d]);
        remaining := remaining - {d};
      }
    }

    /** `ack_buffer`. */
    method AckBuffer()
      modifies this
      ensures Snapshot() == Acked(old(Snapshot()))
    {
      dailyBuffer := map[];
    }
  }
}
