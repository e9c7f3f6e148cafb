/** Small shared vocabulary: an option type, first-occurrence de-duplication,
    `str.join`, and the few Python string/slice behaviours the bot relies on. */
module Common {

  datatype Option<T> = None | Some(value: T) {
    function GetOr(default: T): T {
      if Some? then value else default
    }
  }

  /** No element occurs twice. */
  ghost predicate NoDup<T>(s: seq<T>) {
    forall i, j :: 0 <= i < j < |s| ==> s[i] != s[j]
  }

  /** Index of the first occurrence of `x` in `s`. */
  ghost function FirstIndex<T>(s: seq<T>, x: T): (i: nat)
    requires x in s
    ensures i < |s| && s[i] == x && x !in s[..i]
  {
    if s[0] == x then 0 else 1 + FirstIndex(s[1..], x)
  }

  /** The elements of `s`, each kept at its first occurrence: the list+seen-set loop
      used for arXiv IDs and keyword labels. */
  function Dedup<T(==)>(s: seq<T>): (r: seq<T>)
    ensures NoDup(r)
    ensures forall i :: 0 <= i < |r| ==> r[i] in s
    ensures forall i :: 0 <= i < |s| ==> s[i] in r
    ensures |r| <= |s|
    decreases |s|
  {
    if |s| == 0 then []
    else
      var d := Dedup(s[..|s| - 1]);
      assert forall i :: 0 <= i < |s| - 1 ==> s[i] == s[..|s| - 1][i];
      if s[|s| - 1] in d then d else d + [s[|s| - 1]]
  }

  /** One more element: kept if new, dropped if already seen. */
  lemma DedupSnoc<T>(s: seq<T>, x: T)
    ensures Dedup(s + [x]) == if x in Dedup(s) then Dedup(s) else Dedup(s) + [x]
  {
    assert (s + [x])[..|s|] == s;
  }

  lemma DedupSameMembers<T>(s: seq<T>)
    ensures forall i :: 0 <= i < |s| ==> s[i] in Dedup(s)
    ensures forall x :: x in Dedup(s) ==> x in s
  {
  }

  lemma FirstIndexOfExtension<T>(p: seq<T>, x: T, y: T)
    requires y in p
    ensures y in p + [x] && FirstIndex(p + [x], y) == FirstIndex(p, y)
  {
    if p[0] != y {
      assert (p + [x])[1..] == p[1..] + [x];
      FirstIndexOfExtension(p[1..], x, y);
    }
  }

  lemma FirstIndexOfNew<T>(p: seq<T>, x: T)
    requires x !in p
    ensures x in p + [x] && FirstIndex(p + [x], x) == |p|
  {
    if |p| > 0 {
      assert (p + [x])[1..] == p[1..] + [x];
      FirstIndexOfNew(p[1..], x);
    }
  }

  /** De-duplication keeps the order of first occurrence. */
  lemma {:induction false} DedupKeepsFirstOccurrenceOrder<T>(s: seq<T>, i: nat, j: nat)
    requires i < j < |Dedup(s)|
    ensures Dedup(s)[i] in s && Dedup(s)[j] in s
    ensures FirstIndex(s, Dedup(s)[i]) < FirstIndex(s, Dedup(s)[j])
    decreases |s|
  {
    var p, x := s[..|s| - 1], s[|s| - 1];
    assert s == p + [x];
    var d := Dedup(p);
    if x in d {
      DedupKeepsFirstOccurrenceOrder(p, i, j);
      FirstIndexOfExtension(p, x, d[i]);
      FirstIndexOfExtension(p, x, d[j]);
    } else if j < |d| {
      DedupKeepsFirstOccurrenceOrder(p, i, j);
      FirstIndexOfExtension(p, x, d[i]);
      FirstIndexOfExtension(p, x, d[j]);
    } else {
      FirstIndexOfExtension(p, x, d[i]);
      FirstIndexOfNew(p, x);
    }
  }

  /** The present, non-empty strings of `xs`, in order: Python's
      `[x.get(k, "") for x in xs if x.get(k)]`. */
  function Present(xs: seq<Option<string>>): (r: seq<string>)
    ensures |r| <= |xs|
    ensures forall k :: 0 <= k < |r| ==> r[k] != "" && Some(r[k]) in xs
    ensures forall i :: 0 <= i < |xs| && xs[i].Some? && xs[i].value != "" ==> xs[i].value in r
    decreases |xs|
  {
    if |xs| == 0 then []
    else
      var init := xs[..|xs| - 1];
      var last := xs[|xs| - 1];
      assert forall i :: 0 <= i < |xs| - 1 ==> xs[i] == init[i];
      Present(init) + (if last.Some? && last.value != "" then [last.value] else [])
  }

  /** Filtering keeps relative order: it distributes over concatenation. */
  lemma {:induction false} PresentOfConcat(a: seq<Option<string>>, b: seq<Option<string>>)
    ensures Present(a + b) == Present(a) + Present(b)
    decreases |b|
  {
    if |b| == 0 {
      assert a + b == a;
    } else {
      assert (a + b)[..|a + b| - 1] == a + b[..|b| - 1];
      PresentOfConcat(a, b[..|b| - 1]);
    }
  }

  /** Python's `sep.join(parts)`. */
  function Join(parts: seq<string>, sep: string): string {
    if |parts| == 0 then ""
    else if |parts| == 1 then parts[0]
    else parts[0] + sep + Join(parts[1..], sep)
  }

  /** Python's `s[:n]` for any integer `n` (a negative `n` counts from the end). */
  function PyPrefix<T>(s: seq<T>, n: int): (r: seq<T>)
    ensures n >= 0 ==> |r| == if n < |s| then n else |s|
    ensures n < 0 ==> |r| == if |s| + n > 0 then |s| + n else 0
    ensures r == s[..|r|]
  {
    if n >= 0 then (if n < |s| then s[..n] else s)
    else (if |s| + n > 0 then s[..|s| + n] else [])
  }

  predicate IsDigit(c: char) {
    '0' <= c <= '9'
  }

  /** Python's `str.isspace` for one character. */
  predicate IsSpace(c: char) {
    c == ' ' || '\t' <= c <= '\r' || '\U{1c}' <= c <= '\U{1f}' || c == '\U{85}' || c == '\U{a0}'
    || c == '\U{1680}' || '\U{2000}' <= c <= '\U{200a}' || c == '\U{2028}' || c == '\U{2029}'
    || c == '\U{202f}' || c == '\U{205f}' || c == '\U{3000}'
  }

  ghost predicate AllDigits(s: string) {
    forall k :: 0 <= k < |s| ==> IsDigit(s[k])
  }

  /** `s` with its leading whitespace removed. */
  function TrimStart(s: string): (r: string)
    ensures |r| <= |s| && r == s[|s| - |r|..]
    ensures r == [] || !IsSpace(r[0])
    ensures forall k :: 0 <= k < |s| - |r| ==> IsSpace(s[k])
  {
    if |s| > 0 && IsSpace(s[0]) then TrimStart(s[1..]) else s
  }

  /** `s` with its trailing whitespace removed. */
  function TrimEnd(s: string): (r: string)
    ensures |r| <= |s| && r == s[..|r|]
    ensures r == [] || !IsSpace(r[|r| - 1])
    ensures forall k :: |r| <= k < |s| ==> IsSpace(s[k])
  {
    if |s| > 0 && IsSpace(s[|s| - 1]) then TrimEnd(s[..|s| - 1]) else s
  }

  /** Python's `str.strip()` with no argument. */
  function Strip(s: string): (r: string)
    ensures r == [] || (!IsSpace(r[0]) && !IsSpace(r[|r| - 1]))
  {
    TrimEnd(TrimStart(s))
  }

  /** `r` is `s[a..b]` and everything outside `a..b` is whitespace. */
  predicate WhitespaceCut(s: string, a: int, b: int, r: string) {
    0 <= a <= b <= |s| && r == s[a..b]
    && (forall k :: 0 <= k < a ==> IsSpace(s[k]))
    && (forall k :: b <= k < |s| ==> IsSpace(s[k]))
  }

  /** Stripping is a contiguous cut of `s` that removes only whitespace. */
  lemma StripIsCut(s: string)
    ensures exists a, b :: WhitespaceCut(s, a, b, Strip(s))
  {
    var t := TrimStart(s);
    var a := |s| - |t|;
    TrimEndIsCut(s, a, t);
    assert WhitespaceCut(s, a, a + |TrimEnd(t)|, Strip(s));
  }

  /** Trimming the end of the suffix `t == s[a..]`, whose prefix `s[..a]` is whitespace,
      leaves a whitespace cut of `s`. */
  lemma TrimEndIsCut(s: string, a: nat, t: string)
    requires a <= |s| && t == s[a..]
    requires forall k :: 0 <= k < a ==> IsSpace(s[k])
    ensures WhitespaceCut(s, a, a + |TrimEnd(t)|, TrimEnd(t))
  {
    var u := TrimEnd(t);
    var b := a + |u|;
    assert s[a..][..|u|] == s[a..b];
    forall k | b <= k < |s|
      ensures IsSpace(s[k])
    {
      assert s[k] == t[k - a];
    }
  }

  /** The bounds of the slice `Strip(s)` keeps. */
  lemma StripBounds(s: string) returns (a: nat, b: nat)
    ensures a <= b <= |s| && Strip(s) == s[a..b]
  {
    var t := TrimStart(s);
    a := |s| - |t|;
    b := a + |TrimEnd(t)|;
    assert s[a..][..|TrimEnd(t)|] == s[a..b];
  }

  /** Stripping twice is stripping once. */
  lemma StripIdempotent(s: string)
    ensures Strip(Strip(s)) == Strip(s)
  {
    var r := Strip(s);
    assert TrimStart(r) == r;
    assert TrimEnd(r) == r;
  }
}
