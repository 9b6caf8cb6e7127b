/**
 * The query side of `searchPrompts` and the usage ranking shared with `getStatistics`: which
 * records a query and a filter object admit, and the order by descending `usageCount`.
 */
module Search {
  import opened Wrappers
  import opened Seqs
  import opened Strings
  import opened PromptModel

  /**
   * The `filters` object. An empty `aiModel` or `application` is a falsy value, which filters
   * nothing; `isCustom` and `tags` filter exactly when they are present.
   */
  datatype SearchFilters = SearchFilters(
    aiModel: string,
    application: string,
    isCustom: Option<bool>,
    tags: Option<seq<string>>)

  /** `filters = {}`. */
  const NoFilters := SearchFilters("", "", None, None)

  /** The record survives the four `continue` tests. */
  predicate PassesFilters(p: Prompt, f: SearchFilters) {
    (f.aiModel == "" || p.category.aiModel == f.aiModel) &&
    (f.application == "" || p.category.application == f.application) &&
    (f.isCustom.None? || p.isCustom == f.isCustom.value) &&
    (f.tags.None? || exists t :: t in f.tags.value && t in p.tags)
  }

  /** The texts the query is looked for in: title, description, content, then every tag. */
  function SearchFields(p: Prompt): seq<string> {
    [p.title, p.description, p.content] + p.tags
  }

  /** The lowered, space-joined search text of a record. */
  function SearchText(p: Prompt): string {
    Lower(Join(SearchFields(p), " "))
  }

  /** The record is pushed onto `results`. */
  predicate Matches(p: Prompt, query: string, f: SearchFilters) {
    PassesFilters(p, f) && (query == "" || Contains(SearchText(p), Lower(query)))
  }

  /** Lowering distributes over concatenation. */
  lemma LowerConcat(a: string, b: string)
    ensures Lower(a + b) == Lower(a) + Lower(b)
  {
    assert forall i :: 0 <= i < |a + b| ==> Lower(a + b)[i] == (Lower(a) + Lower(b))[i];
  }

  /** Every lowered part stands in the lowered join. */
  lemma {:induction false} LowerJoinContains(parts: seq<string>, sep: string, k: nat, q: string)
    requires k < |parts| && Contains(Lower(parts[k]), q)
    ensures Contains(Lower(Join(parts, sep)), q)
  {
    if |parts| == 1 {
    } else {
      var rest := Join(parts[1..], sep);
      assert Join(parts, sep) == parts[0] + (sep + rest);
      LowerConcat(parts[0], sep + rest);
      LowerConcat(sep, rest);
      if k == 0 {
        ContainsConcat(Lower(parts[0]), Lower(sep + rest), q);
      } else {
        assert parts[1..][k - 1] == parts[k];
        LowerJoinContains(parts[1..], sep, k - 1, q);
        ContainsConcat(Lower(sep), Lower(rest), q);
        ContainsConcat(Lower(parts[0]), Lower(sep) + Lower(rest), q);
      }
    }
  }

  /**
   * A query found, ignoring case, in the title, the description, the content or one tag of a
   * record that passes the filters, finds the record.
   */
  lemma FieldHitMatches(p: Prompt, query: string, f: SearchFilters, k: nat)
    requires PassesFilters(p, f)
    requires k < |SearchFields(p)| && Contains(Lower(SearchFields(p)[k]), Lower(query))
    ensures Matches(p, query, f)
  {
    LowerJoinContains(SearchFields(p), " ", k, Lower(query));
  }

  /** A record failing a filter is never found, whatever the query. */
  lemma FilterFailureExcludes(p: Prompt, query: string, f: SearchFilters)
    requires !PassesFilters(p, f)
    ensures !Matches(p, query, f)
  {
  }

  /** The empty query with no filters finds every record. */
  lemma EmptySearchFindsAll(p: Prompt)
    ensures Matches(p, "", NoFilters)
  {
  }

  /** A present but empty `tags` filter has no tag to overlap with, so it finds nothing. */
  lemma EmptyTagFilterExcludes(p: Prompt, query: string, f: SearchFilters)
    requires f.tags == Some([])
    ensures !Matches(p, query, f)
  {
  }

  /** The records among `ps` that a search pushes onto `results`, in the order it visits them. */
  function Found(ps: seq<Prompt>, query: string, f: SearchFilters): (r: seq<Prompt>)
    ensures forall p :: p in r <==> p in ps && Matches(p, query, f)
  {
    Filter(ps, p => Matches(p, query, f))
  }

  /** Searching one more record extends the results by that record when it matches. */
  lemma FoundStep(ps: seq<Prompt>, i: nat, query: string, f: SearchFilters)
    requires i < |ps|
    ensures Found(ps[..i + 1], query, f) == Found(ps[..i], query, f) + (if Matches(ps[i], query, f) then [ps[i]] else [])
  {
    assert ps[..i + 1] == ps[..i] + [ps[i]];
    FilterSnoc(ps[..i], ps[i], q => Matches(q, query, f));
  }

  /** The order of `searchPrompts` and of `mostUsed`: `usageCount` never increases. */
  predicate ByUsage(s: seq<Prompt>) {
    forall i, j :: 0 <= i < j < |s| ==> s[i].usageCount >= s[j].usageCount
  }

  /** A record used at least as much as the head of a ranking can go in front of it. */
  lemma ByUsageCons(x: Prompt, s: seq<Prompt>)
    requires ByUsage(s) && (s != [] ==> x.usageCount >= s[0].usageCount)
    ensures ByUsage([x] + s)
  {
    var r := [x] + s;
    forall i, j | 0 <= i < j < |r| ensures r[i].usageCount >= r[j].usageCount {
      assert r[j] == s[j - 1];
      if i > 0 {
        assert r[i] == s[i - 1];
      }
    }
  }

  /** The head of a ranking is used at least as much as every record after it. */
  lemma ByUsageHead(s: seq<Prompt>)
    requires ByUsage(s) && s != []
    ensures forall y :: y in s[1..] ==> y.usageCount <= s[0].usageCount
  {
    forall y | y in s[1..] ensures y.usageCount <= s[0].usageCount {
      var k :| 0 <= k < |s[1..]| && s[1..][k] == y;
      assert s[k + 1] == y;
    }
  }

  /** Places `x` before the first record used no more than it, so that `x` precedes its equals. */
  function InsertByUsage(x: Prompt, s: seq<Prompt>): (r: seq<Prompt>)
    requires ByUsage(s)
    ensures ByUsage(r)
    ensures multiset(r) == multiset(s) + multiset{x}
    ensures forall y :: y in r ==> y == x || y in s
  {
    if s == [] then [x]
    else if x.usageCount >= s[0].usageCount then
      ByUsageCons(x, s);
      [x] + s
    else
      assert ByUsage(s[1..]);
      var tail := InsertByUsage(x, s[1..]);
      ByUsageHead(s);
      assert tail[0] in tail;
      ByUsageCons(s[0], tail);
      assert s == [s[0]] + s[1..];
      [s[0]] + tail
  }

  /**
   * `sort((a, b) => b.usageCount - a.usageCount)`: a stable sort by descending use. It is a
   * permutation of its input.
   */
  function SortByUsage(s: seq<Prompt>): (r: seq<Prompt>)
    ensures ByUsage(r)
    ensures multiset(r) == multiset(s)
    ensures |r| == |s|
    ensures forall y :: y in r ==> y in s
  {
    if s == [] then []
    else
      assert s == [s[0]] + s[1..];
      InsertByUsage(s[0], SortByUsage(s[1..]))
  }

  /**
   * The first `k` records of the ranking are the most used: any record left out of them is used
   * no more than the last one kept.
   */
  lemma RankingFront(s: seq<Prompt>, k: nat, q: Prompt)
    requires 0 < k <= |s| && q in s && q !in SortByUsage(s)[..k]
    ensures q.usageCount <= SortByUsage(s)[k - 1].usageCount
  {
    var r := SortByUsage(s);
    assert multiset(r)[q] > 0;
    var j :| 0 <= j < |r| && r[j] == q;
  }

  /** `RankingFront` for `slice(0, n)` with a positive `n`. */
  lemma RankingPrefix(s: seq<Prompt>, n: nat, q: Prompt)
    requires 0 < n && q in s && q !in Slice(SortByUsage(s), n)
    ensures var top := Slice(SortByUsage(s), n);
            top != [] && q.usageCount <= top[|top| - 1].usageCount
  {
    var k := SliceEnd(|s|, n);
    RankingFront(s, k, q);
  }

  /** `slice(0, n)` of the ranking keeps its order and holds `n` records of `s`, or all of them. */
  lemma RankingPrefixShape(s: seq<Prompt>, n: nat)
    ensures var top := Slice(SortByUsage(s), n);
            ByUsage(top) && |top| == (if |s| < n then |s| else n) && forall p :: p in top ==> p in s
    ensures multiset(Slice(SortByUsage(s), n)) <= multiset(s)
  {
    var ranked := SortByUsage(s);
    var top := Slice(ranked, n);
    assert forall i :: 0 <= i < |top| ==> top[i] == ranked[i];
    assert ranked == top + ranked[|top|..];
  }
}
