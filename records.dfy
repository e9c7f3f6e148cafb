/** The records the bot passes between its clients, its state file and its briefing. */
module Records {
  import opened Common

  /** An instant, as whole seconds; ISO-8601 strings of one offset compare like these. */
  type Timestamp = int

  /** A calendar day in the fixed briefing timezone (YYYY-MM-DD), as a day number. */
  type DateKey = int

  /** The two readings of the clock a run uses: the UTC instant and today's date key. */
  datatype Clock = Clock(now: Timestamp, today: DateKey)

  /** Look-back window of the paper fetch, in hours. */
  const FetchHours: nat := 48
  /** Retention of blog URLs and cross-references, in days. */
  const BlogRetentionDays: nat := 30
  /** Retention of buffered days, in days. */
  const BufferRetentionDays: nat := 3

  const SecondsPerHour: nat := 3600
  const SecondsPerDay: nat := 86400

  /** An arXiv identifier without version: four digits, a dot, four or five digits. */
  ghost predicate IsArxivId(x: string) {
    (|x| == 9 || |x| == 10) && AllDigits(x[..4]) && x[4] == '.' && AllDigits(x[5..])
  }

  /** A parsed blog or safety feed entry. */
  datatype Post = Post(
    title: string,
    url: string,
    source: string,
    published: string,
    summary: string,
    arxivIds: seq<string>)

  /** A keyword-matched arXiv paper. */
  datatype Paper = Paper(
    arxivId: string,
    title: string,
    summary: string,
    authors: seq<string>,
    link: string,
    published: string,
    categories: seq<string>,
    matchedKeywords: seq<string>)

  /** What `blog_arxiv_map` remembers about the post that mentioned a paper;
      `addedAt` is absent when a stored record lacks `added_at`. */
  datatype BlogInfo = BlogInfo(
    blogUrl: string,
    blogTitle: string,
    blogSource: string,
    addedAt: Option<Timestamp>)

  /** A paper merged with the blog post that mentioned it. */
  datatype LinkedItem = LinkedItem(paper: Paper, blogInfo: BlogInfo)

  /** The four category lists of a buffered day, and of the aggregate `peek_buffer` returns. */
  datatype Categories = Categories(
    blogPosts: seq<Post>,
    arxivPapers: seq<Paper>,
    linkedPapers: seq<LinkedItem>,
    safetyPosts: seq<Post>)

  const NoItems := Categories([], [], [], [])

  /** Category-wise concatenation (the `extend` calls of `peek_buffer`). */
  function Concat(a: Categories, b: Categories): Categories {
    Categories(a.blogPosts + b.blogPosts, a.arxivPapers + b.arxivPapers,
               a.linkedPapers + b.linkedPapers, a.safetyPosts + b.safetyPosts)
  }

  lemma ConcatAssoc(a: Categories, b: Categories, c: Categories)
    ensures Concat(Concat(a, b), c) == Concat(a, Concat(b, c))
  {
  }

  /** Natural keys used for de-duplication. */
  function PostKey(p: Post): string { p.url }
  function PaperKey(p: Paper): string { p.arxivId }
  function LinkedKey(it: LinkedItem): string { it.paper.arxivId }
}
