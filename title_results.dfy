/** The computations of the results list: the sources panel (first title's sources,
    de-duplicated by uri, at most four shown plus a "+N mais" counter), the copy-all text and
    the empty-state guard. */
module TitleResults {
  import opened Types
  import opened Strings
  import GeminiService

  /** `titles?.[0]?.sources || []`: only the first title's sources are shown. `None` stands
      for a missing `titles` value. */
  function SourcesOf(titles: Option<seq<GeneratedTitle>>): (r: seq<Source>)
    ensures titles.None? || titles.value == [] ==> r == []
    ensures titles.Some? && titles.value != [] && titles.value[0].sources.None? ==> r == []
    ensures titles.Some? && titles.value != [] && titles.value[0].sources.Some? ==> r == titles.value[0].sources.value
  {
    if titles.Some? && |titles.value| > 0 && titles.value[0].sources.Some? then titles.value[0].sources.value
    else []
  }

  /** In trend mode every title carries the same list, so the panel shows exactly the list
      the service attached. */
  lemma PanelShowsAttachedSources(titles: seq<GeneratedTitle>, sources: seq<Source>)
    requires titles != [] && sources != []
    ensures SourcesOf(Some(GeminiService.AttachSources(titles, sources))) == sources
  {
  }

  /** `a.findIndex(v2 => v2.uri === uri)`. */
  function FindUri(a: seq<Source>, uri: string): (r: int)
    ensures -1 <= r < |a|
    ensures r >= 0 ==> a[r].uri == uri
    ensures forall j :: 0 <= j < |a| && (r == -1 || j < r) ==> a[j].uri != uri
  {
    if a == [] then -1
    else if a[0].uri == uri then 0
    else
      var k := FindUri(a[1..], uri);
      assert forall j :: 1 <= j < |a| ==> a[j] == a[1..][j - 1];
      if k == -1 then -1 else k + 1
  }

  /** Position `j` holds the first source with its uri. */
  predicate IsFirst(a: seq<Source>, j: int) {
    0 <= j < |a| && FindUri(a, a[j].uri) == j
  }

  /** The filter from position `i` on: each kept entry is the first one with its uri. */
  function DedupFrom(a: seq<Source>, i: nat): (r: seq<Source>)
    requires i <= |a|
    ensures |r| <= |a| - i
    ensures forall k :: 0 <= k < |r| ==> i <= FindUri(a, r[k].uri) && a[FindUri(a, r[k].uri)] == r[k]
    decreases |a| - i
  {
    if i == |a| then []
    else
      var rest := DedupFrom(a, i + 1);
      if FindUri(a, a[i].uri) == i then
        var r := [a[i]] + rest;
        assert forall k :: 1 <= k < |r| ==> r[k] == rest[k - 1];
        r
      else rest
  }

  /** The entries of `r` appear in the order of their uris' first positions in `a`. */
  predicate InFirstOrder(a: seq<Source>, r: seq<Source>) {
    forall p, q :: 0 <= p < q < |r| ==> FindUri(a, r[p].uri) < FindUri(a, r[q].uri)
  }

  /** An entry whose uri comes first in `a` before all of `rest` keeps the order. */
  lemma InFirstOrderCons(a: seq<Source>, x: Source, rest: seq<Source>)
    requires InFirstOrder(a, rest)
    requires forall k :: 0 <= k < |rest| ==> FindUri(a, x.uri) < FindUri(a, rest[k].uri)
    ensures InFirstOrder(a, [x] + rest)
  {
    var r := [x] + rest;
    forall p, q | 0 <= p < q < |r| ensures FindUri(a, r[p].uri) < FindUri(a, r[q].uri) {
      assert r[q] == rest[q - 1];
      if p > 0 {
        assert r[p] == rest[p - 1];
      }
    }
  }

  /** The kept entries follow the order of their first occurrences. */
  lemma {:induction false} DedupFromOrdered(a: seq<Source>, i: nat)
    requires i <= |a|
    ensures InFirstOrder(a, DedupFrom(a, i))
    decreases |a| - i
  {
    if i < |a| {
      DedupFromOrdered(a, i + 1);
      if FindUri(a, a[i].uri) == i {
        InFirstOrderCons(a, a[i], DedupFrom(a, i + 1));
      }
    }
  }

  /** Every first occurrence from position `i` on is kept. */
  lemma {:induction false} DedupFromComplete(a: seq<Source>, i: nat)
    requires i <= |a|
    ensures forall j :: i <= j < |a| && IsFirst(a, j) ==> a[j] in DedupFrom(a, i)
    decreases |a| - i
  {
    if i < |a| {
      DedupFromComplete(a, i + 1);
    }
  }

  /** `sources.filter((v, i, a) => a.findIndex(v2 => v2.uri === v.uri) === i)`: the first
      source for each uri, in the order of first occurrence. */
  function UniqueSources(sources: seq<Source>): (r: seq<Source>)
    ensures |r| <= |sources|
    // every kept entry is the first occurrence of its uri
    ensures forall k :: 0 <= k < |r| ==> IsFirst(sources, FindUri(sources, r[k].uri)) && sources[FindUri(sources, r[k].uri)] == r[k]
    // kept in the order of their positions in the input
    ensures forall p, q :: 0 <= p < q < |r| ==> FindUri(sources, r[p].uri) < FindUri(sources, r[q].uri)
    ensures DistinctUris(r)
    // every uri of the input is represented
    ensures forall i :: 0 <= i < |sources| ==> exists k :: 0 <= k < |r| && r[k].uri == sources[i].uri
  {
    var r := DedupFrom(sources, 0);
    forall k | 0 <= k < |r| ensures IsFirst(sources, FindUri(sources, r[k].uri)) {
      var f := FindUri(sources, r[k].uri);
      assert sources[f].uri == r[k].uri;
    }
    DedupFromOrdered(sources, 0);
    assert DistinctUris(r) by {
      forall p, q | 0 <= p < q < |r| ensures r[p].uri != r[q].uri {
        assert FindUri(sources, r[p].uri) < FindUri(sources, r[q].uri);
      }
    }
    DedupFromComplete(sources, 0);
    forall i | 0 <= i < |sources| ensures exists k :: 0 <= k < |r| && r[k].uri == sources[i].uri {
      var f := FindUri(sources, sources[i].uri);
      assert IsFirst(sources, f);
      var k :| 0 <= k < |r| && r[k] == sources[f];
    }
    r
  }

  /** No two entries share a uri. */
  predicate DistinctUris(a: seq<Source>) {
    forall p, q :: 0 <= p < q < |a| ==> a[p].uri != a[q].uri
  }

  /** `uniqueSources.slice(0, 4)`: the links shown. */
  function SourceLinks(unique: seq<Source>): (r: seq<Source>)
    ensures |r| <= 4
    ensures |r| == if |unique| < 4 then |unique| else 4
    ensures r == unique[..|r|]
  {
    if |unique| <= 4 then unique else unique[..4]
  }

  /** The "+N mais" counter: present only beyond four sources. */
  function MoreCounter(unique: seq<Source>): (n: Option<int>)
    ensures n.Some? <==> |unique| > 4
    ensures n.Some? ==> n.value > 0
  {
    if |unique| > 4 then Some(|unique| - 4) else None
  }

  /** The links shown and the counter together account for every unique source. */
  lemma ShownPlusCounted(unique: seq<Source>)
    ensures |SourceLinks(unique)| + (if MoreCounter(unique).Some? then MoreCounter(unique).value else 0) == |unique|
  {
  }

  /** The sources panel is rendered only when there is at least one unique source. */
  function ShowsSourcesPanel(titles: Option<seq<GeneratedTitle>>): (b: bool)
    ensures b <==> SourcesOf(titles) != []
  {
    var sources := SourcesOf(titles);
    var unique := UniqueSources(sources);
    assert sources != [] ==> exists k :: 0 <= k < |unique| && unique[k].uri == sources[0].uri;
    |unique| > 0
  }

  /** The titles' own text, in order. */
  function TitleTexts(titles: seq<GeneratedTitle>): (r: seq<string>)
    ensures |r| == |titles|
    ensures forall i :: 0 <= i < |titles| ==> r[i] == titles[i].title
  {
    seq(|titles|, i requires 0 <= i < |titles| => titles[i].title)
  }

  /** `titles.map(t => t.title).join('\n')`. */
  function CopyAllText(titles: seq<GeneratedTitle>): string {
    Join(TitleTexts(titles), "\n")
  }

  /** Splitting the copied text at line breaks gives back every title, in order, when no
      title has a line break of its own. */
  lemma CopyAllRoundTrip(titles: seq<GeneratedTitle>)
    requires titles != []
    requires forall i :: 0 <= i < |titles| ==> '\n' !in titles[i].title
    ensures Split(CopyAllText(titles), '\n') == TitleTexts(titles)
  {
    SplitJoin(TitleTexts(titles), '\n');
  }

  /** The empty-state guard: no titles value, or an empty list. */
  function ShowsEmptyState(titles: Option<seq<GeneratedTitle>>): (b: bool)
    ensures b <==> titles.None? || |titles.value| == 0
    ensures b ==> !ShowsSourcesPanel(titles)
  {
    titles.None? || |titles.value| == 0
  }
}
