/** The newsletter repository over the Astro content collection
    (src/infrastructure/repositories/AstroNewsletterRepository.ts). Every finder reads the
    collection without its drafts and converts entries with `NewsletterIssue.create`,
    which throws on an invalid entry; a throw is a `Failure` here and propagates out of
    the finder, as the rejected promise does.

    The collection, the Markdown renderer and the reading-time estimate are not part of
    this model and come in as `ContentSource`; the clock is a parameter of
    `FindPublished`. */
module AstroRepository {
  import opened Wrappers
  import opened Text
  import opened Sequences
  import opened Content
  import opened Issues

  /** The collection `getCollection('newsletters')` returns, `markdownToHtml` and
      `calculateReadingTime(body).minutes`. */
  datatype ContentSource = ContentSource(
    entries: seq<Entry>,
    render: string -> string,
    estimateMinutes: string -> int)

  /** The argument `collectionEntryToNewsletterIssue` hands to `NewsletterIssue.create`.
      A falsy reading time (absent or 0) is replaced by the estimate, a falsy preview
      text (absent or empty) by the description, absent tags by `[]`. */
  function IssueFields(src: ContentSource, e: Entry): NewsletterIssue {
    var d := e.data;
    NewsletterIssue(
      e.id, d.title, d.description, src.render(e.body), e.slug, d.issue, d.publishedAt,
      d.tags.GetOr([]),
      if d.readingTime.Some? && d.readingTime.value != 0 then d.readingTime.value else src.estimateMinutes(e.body),
      Some(if d.previewText.Some? && d.previewText.value != [] then d.previewText.value else d.description))
  }

  /** `collectionEntryToNewsletterIssue(entry)`. It keeps the slug and the date. */
  function Convert(src: ContentSource, e: Entry): (r: Result<NewsletterIssue, string>)
    ensures r.Success? ==> r.value.slug == e.slug && r.value.publishedAt == e.data.publishedAt
  {
    Create(IssueFields(src, e))
  }

  /** What a conversion yields, field by field: it fails exactly when `create` rejects the
      entry, and otherwise applies the falsy-value fallbacks and the trimming of `create`. */
  lemma ConversionDefaults(src: ContentSource, e: Entry)
    ensures var r := Convert(src, e);
      && (r.Success? <==> !AllWhitespace(e.data.title) && !AllWhitespace(src.render(e.body)) && e.data.issue > 0)
      && (r.Success? ==>
        && r.value.id == e.id && r.value.issue == e.data.issue
        && r.value.title == Trim(e.data.title) && r.value.description == Trim(e.data.description)
        && r.value.content == src.render(e.body)
        && r.value.tags == (if e.data.tags.Some? then e.data.tags.value else [])
        && (e.data.readingTime.Some? && e.data.readingTime.value != 0 ==> r.value.readingTime == e.data.readingTime.value)
        && (e.data.readingTime.None? || e.data.readingTime.value == 0 ==> r.value.readingTime == src.estimateMinutes(e.body))
        && (e.data.previewText.Some? && e.data.previewText.value != [] ==> r.value.previewText == Some(Trim(e.data.previewText.value)))
        && (e.data.previewText.None? || e.data.previewText.value == [] ==> r.value.previewText == Some(Trim(e.data.description))))
  {
  }

  /** `xs.map(f)` where `f` may throw: every element mapped in order, or the error of
      the first element that fails. */
  function MapAll<A, B>(xs: seq<A>, f: A -> Result<B, string>): (r: Result<seq<B>, string>)
    ensures r.Success? <==> forall i :: 0 <= i < |xs| ==> f(xs[i]).Success?
    ensures r.Success? ==> |r.value| == |xs| && forall i :: 0 <= i < |xs| ==> r.value[i] == f(xs[i]).value
    ensures r.Failure? ==> exists i :: 0 <= i < |xs| && f(xs[i]) == Failure(r.error)
                                       && forall j :: 0 <= j < i ==> f(xs[j]).Success?
  {
    if xs == [] then Success([])
    else
      match f(xs[0])
      case Failure(err) => Failure(err)
      case Success(first) =>
        match MapAll(xs[1..], f)
        case Failure(err) =>
          var i :| 0 <= i < |xs[1..]| && f(xs[1..][i]) == Failure(err)
                   && forall j :: 0 <= j < i ==> f(xs[1..][j]).Success?;
          assert f(xs[i + 1]) == Failure(err);
          Failure(err)
        case Success(rest) => Success([first] + rest)
  }

  /** The non-draft entries sorted newest first: what `findAll` converts. */
  function Listed(src: ContentSource): (r: seq<Entry>)
    ensures NewestFirst(r)
    ensures multiset(r) == multiset(FilterDrafts(src.entries))
    ensures forall e :: e in r <==> e in src.entries && !IsDraft(e)
  {
    var r := SortNewestFirst(FilterDrafts(src.entries));
    assert forall e :: e in r <==> e in multiset(r);
    r
  }

  predicate IssuesNewestFirst(s: seq<NewsletterIssue>) {
    forall i, j :: 0 <= i < j < |s| ==> s[i].publishedAt >= s[j].publishedAt
  }

  /** `findAll()`: it succeeds exactly when every listed entry converts, and otherwise
      fails with the error of the first listed entry that does not. */
  function FindAll(src: ContentSource): (r: Result<seq<NewsletterIssue>, string>)
    ensures r.Success? <==> forall i :: 0 <= i < |Listed(src)| ==> Convert(src, Listed(src)[i]).Success?
    ensures r.Failure? ==> exists i :: 0 <= i < |Listed(src)| && Convert(src, Listed(src)[i]) == Failure(r.error)
                                       && forall j :: 0 <= j < i ==> Convert(src, Listed(src)[j]).Success?
    ensures r.Success? ==> |r.value| == |Listed(src)|
    ensures r.Success? ==> forall i :: 0 <= i < |r.value| ==> Convert(src, Listed(src)[i]) == Success(r.value[i])
    ensures r.Success? ==> IssuesNewestFirst(r.value)
    ensures r.Success? ==> forall i :: i in r.value ==> !StartsWith(i.slug, "_")
  {
    var ls := Listed(src);
    var r := MapAll(ls, (e: Entry) => Convert(src, e));
    if r.Failure? then r
    else
      ConvertedKeepsOrder(src, ls, r.value);
      r
  }

  /** Converting entry by entry keeps each slug and date in place, so a list sorted newest
      first stays sorted and a list without drafts stays without drafts. */
  lemma ConvertedKeepsOrder(src: ContentSource, ls: seq<Entry>, out: seq<NewsletterIssue>)
    requires |out| == |ls| && forall i :: 0 <= i < |ls| ==> Convert(src, ls[i]) == Success(out[i])
    requires NewestFirst(ls) && forall e :: e in ls ==> !IsDraft(e)
    ensures IssuesNewestFirst(out)
    ensures forall i :: i in out ==> !StartsWith(i.slug, "_")
  {
    forall i | 0 <= i < |ls|
      ensures out[i].slug == ls[i].slug && out[i].publishedAt == ls[i].data.publishedAt
    {
      assert Convert(src, ls[i]).value == out[i];
    }
    forall x | x in out ensures !StartsWith(x.slug, "_") {
      var k :| 0 <= k < |out| && out[k] == x;
      assert ls[k] in ls;
    }
  }

  /** `findLatest()`: the head of `findAll()`, or null when there is none. */
  function FindLatest(src: ContentSource): (r: Result<Option<NewsletterIssue>, string>)
    ensures r.Success? <==> FindAll(src).Success?
    ensures r.Success? ==> (r.value.None? <==> FindAll(src).value == [])
    ensures r.Success? && r.value.Some? ==>
      && r.value.value == FindAll(src).value[0]
      && forall i :: i in FindAll(src).value ==> i.publishedAt <= r.value.value.publishedAt
  {
    var all :- FindAll(src);
    if |all| > 0 then
      IssuesHeadIsNewest(all);
      Success(Some(all[0]))
    else Success(None)
  }

  /** In a list sorted newest first, no issue is newer than the head. */
  lemma IssuesHeadIsNewest(s: seq<NewsletterIssue>)
    requires IssuesNewestFirst(s) && s != []
    ensures forall i :: i in s ==> i.publishedAt <= s[0].publishedAt
  {
    forall i | i in s ensures i.publishedAt <= s[0].publishedAt {
      var k :| 0 <= k < |s| && s[k] == i;
      if k > 0 {
        assert s[0].publishedAt >= s[k].publishedAt;
      }
    }
  }

  lemma {:induction false} FilterKeepsNewestFirst(xs: seq<NewsletterIssue>, p: NewsletterIssue -> bool)
    requires IssuesNewestFirst(xs)
    ensures IssuesNewestFirst(Filter(xs, p))
  {
    if xs != [] {
      FilterKeepsNewestFirst(xs[1..], p);
      var rest := Filter(xs[1..], p);
      if p(xs[0]) {
        assert Filter(xs, p) == [xs[0]] + rest;
        forall y | y in rest ensures y.publishedAt <= xs[0].publishedAt {
          var k :| 0 <= k < |xs[1..]| && xs[1..][k] == y;
          assert xs[k + 1] == y;
        }
        IssuesConsSorted(xs[0], rest);
      } else {
        assert Filter(xs, p) == rest;
      }
    }
  }

  /** An issue at least as new as every issue of a sorted list can go in front of it. */
  lemma IssuesConsSorted(h: NewsletterIssue, rest: seq<NewsletterIssue>)
    requires IssuesNewestFirst(rest)
    requires forall y :: y in rest ==> y.publishedAt <= h.publishedAt
    ensures IssuesNewestFirst([h] + rest)
  {
    var s := [h] + rest;
    forall i, j | 0 <= i < j < |s| ensures s[i].publishedAt >= s[j].publishedAt {
      assert s[j] == rest[j - 1];
      if i > 0 {
        assert s[i] == rest[i - 1];
      }
    }
  }

  /** `findPublished()` at time `now`: the issues already published, newest first. */
  function FindPublished(src: ContentSource, now: int): (r: Result<seq<NewsletterIssue>, string>)
    ensures r.Success? <==> FindAll(src).Success?
    ensures r.Success? ==> r.value == Filter(FindAll(src).value, (i: NewsletterIssue) => IsPublished(i, now))
    ensures r.Success? ==> forall i :: i in r.value <==> i in FindAll(src).value && IsPublished(i, now)
    ensures r.Success? ==> IssuesNewestFirst(r.value)
    ensures r.Success? ==> forall i :: i in r.value ==> !StartsWith(i.slug, "_")
  {
    var all :- FindAll(src);
    FilterKeepsNewestFirst(all, (i: NewsletterIssue) => IsPublished(i, now));
    Success(Filter(all, (i: NewsletterIssue) => IsPublished(i, now)))
  }

  /** `findByTag(tag)`: the issues whose tags include `tag`. */
  function FindByTag(src: ContentSource, tag: string): (r: Result<seq<NewsletterIssue>, string>)
    ensures r.Success? <==> FindAll(src).Success?
    ensures r.Success? ==> r.value == Filter(FindAll(src).value, (i: NewsletterIssue) => tag in GetTags(i))
    ensures r.Success? ==> forall i :: i in r.value <==> i in FindAll(src).value && tag in i.tags
    ensures r.Success? ==> IssuesNewestFirst(r.value)
  {
    var all :- FindAll(src);
    FilterKeepsNewestFirst(all, (i: NewsletterIssue) => tag in GetTags(i));
    Success(Filter(all, (i: NewsletterIssue) => tag in GetTags(i)))
  }

  /** `findByDateRange(start, end)`: both ends inclusive. */
  function FindByDateRange(src: ContentSource, start: int, end: int): (r: Result<seq<NewsletterIssue>, string>)
    ensures r.Success? <==> FindAll(src).Success?
    ensures r.Success? ==> r.value == Filter(FindAll(src).value, (i: NewsletterIssue) => start <= i.publishedAt && i.publishedAt <= end)
    ensures r.Success? ==> forall i :: i in r.value <==> i in FindAll(src).value && start <= i.publishedAt <= end
    ensures r.Success? ==> IssuesNewestFirst(r.value)
  {
    var all :- FindAll(src);
    FilterKeepsNewestFirst(all, (i: NewsletterIssue) => start <= i.publishedAt && i.publishedAt <= end);
    Success(Filter(all, (i: NewsletterIssue) => start <= i.publishedAt && i.publishedAt <= end))
  }

  /** `newsletters.find(n => n.slug === slug)`: the first entry with that slug. */
  function FirstWithSlug(es: seq<Entry>, slug: string): (r: Option<Entry>)
    ensures r.None? <==> forall e :: e in es ==> e.slug != slug
    ensures r.Some? ==> r.value in es && r.value.slug == slug
    ensures r.Some? ==> exists k :: 0 <= k < |es| && es[k] == r.value && forall j :: 0 <= j < k ==> es[j].slug != slug
  {
    if es == [] then None
    else if es[0].slug == slug then Some(es[0])
    else
      var r := FirstWithSlug(es[1..], slug);
      if r.Some? then
        var k :| 0 <= k < |es[1..]| && es[1..][k] == r.value && forall j :: 0 <= j < k ==> es[1..][j].slug != slug;
        assert es[k + 1] == r.value;
        r
      else r
  }

  /** Only a slug starting with "_" can belong to a draft, so for any other slug, dropping
      the drafts does not change which entry is the first with that slug. */
  lemma {:induction false} FirstWithSlugSkipsDrafts(es: seq<Entry>, slug: string)
    ensures !StartsWith(slug, "_") ==> FirstWithSlug(FilterDrafts(es), slug) == FirstWithSlug(es, slug)
  {
    if es != [] && !StartsWith(slug, "_") {
      FirstWithSlugSkipsDrafts(es[1..], slug);
      FilterDraftsCons(es);
      FirstWithSlugCons(es, slug);
      var f := FilterDrafts(es);
      if IsDraft(es[0]) {
        assert es[0].slug != slug;
        assert f == FilterDrafts(es[1..]);
      } else {
        assert f == [es[0]] + FilterDrafts(es[1..]);
        FirstWithSlugCons(f, slug);
        assert f[1..] == FilterDrafts(es[1..]);
      }
    }
  }

  /** `FirstWithSlug` one entry at a time. */
  lemma FirstWithSlugCons(es: seq<Entry>, slug: string)
    requires es != []
    ensures FirstWithSlug(es, slug) == if es[0].slug == slug then Some(es[0]) else FirstWithSlug(es[1..], slug)
  {
  }

  /** `findBySlug(slug)`: the first non-draft entry with that slug, in collection order,
      converted; null when there is none. A draft is never found. */
  function FindBySlug(src: ContentSource, slug: string): (r: Result<Option<NewsletterIssue>, string>)
    ensures StartsWith(slug, "_") ==> r == Success(None)
    ensures r.Success? && r.value.Some? ==> r.value.value.slug == slug
    ensures (forall e :: e in src.entries ==> e.slug != slug) ==> r == Success(None)
    ensures r.Success? && r.value.Some? ==> exists e :: e in src.entries && e.slug == slug && Convert(src, e) == Success(r.value.value)
    ensures !StartsWith(slug, "_") && FirstWithSlug(src.entries, slug).Some? ==>
      var c := Convert(src, FirstWithSlug(src.entries, slug).value);
      && (c.Success? ==> r == Success(Some(c.value)))
      && (c.Failure? ==> r == Failure(c.error))
  {
    FirstWithSlugSkipsDrafts(src.entries, slug);
    match FirstWithSlug(FilterDrafts(src.entries), slug)
    case None => Success(None)
    case Some(e) =>
      var i :- Convert(src, e);
      Success(Some(i))
  }
}
