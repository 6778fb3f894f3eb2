/** The newsletter content collection as both the Astro repository
    (src/infrastructure/repositories/AstroNewsletterRepository.ts) and the page helpers
    (src/lib/newsletter-utils.ts) see it: entries with a slug, a Markdown body and
    front-matter data, the draft filter both files define, and the sort by publication
    date, newest first, that both apply.

    `Array.prototype.sort` is stable, so entries with the same date keep their collection
    order; `SortNewestFirst` is an insertion sort with that property, and the lemmas below
    prove it sorted, a permutation and stable. */
module Content {
  import opened Wrappers
  import opened Text
  import opened Sequences

  /** The front matter of one newsletter file. `tags` is `None` when the file has none
      (the collection schema fills in `[]`; the repository's `|| []` covers it again);
      `readingTime` and `previewText` are optional. Dates are milliseconds. */
  datatype EntryData = EntryData(
    title: string,
    description: string,
    publishedAt: int,
    tags: Option<seq<string>>,
    featured: bool,
    previewText: Option<string>,
    issue: int,
    readingTime: Option<int>)

  datatype Entry = Entry(id: string, slug: string, body: string, data: EntryData)

  /** Files whose slug starts with '_' are drafts. */
  predicate IsDraft(e: Entry) {
    StartsWith(e.slug, "_")
  }

  /** `getCollection('newsletters', filterDrafts)`: the entries that are not drafts. */
  function FilterDrafts(entries: seq<Entry>): (r: seq<Entry>)
    ensures forall e :: e in r <==> e in entries && !IsDraft(e)
    ensures multiset(r) <= multiset(entries)
  {
    Filter(entries, (e: Entry) => !IsDraft(e))
  }

  /** `FilterDrafts` one entry at a time. */
  lemma FilterDraftsCons(entries: seq<Entry>)
    requires entries != []
    ensures FilterDrafts(entries) == (if IsDraft(entries[0]) then [] else [entries[0]]) + FilterDrafts(entries[1..])
  {
  }

  /** Newest first: publication dates never increase along the sequence. */
  predicate NewestFirst(s: seq<Entry>) {
    forall i, j :: 0 <= i < j < |s| ==> s[i].data.publishedAt >= s[j].data.publishedAt
  }

  /** Insert `x` before the first entry that is not newer than it. */
  function Insert(x: Entry, s: seq<Entry>): (r: seq<Entry>)
    ensures multiset(r) == multiset(s) + multiset{x}
    ensures |r| == |s| + 1
  {
    if s == [] || s[0].data.publishedAt <= x.data.publishedAt then [x] + s
    else
      assert s == [s[0]] + s[1..];
      [s[0]] + Insert(x, s[1..])
  }

  /** Inserting into a list sorted newest first keeps it sorted, and the head is either the
      new entry or the old head. */
  lemma {:induction false} InsertSorted(x: Entry, s: seq<Entry>)
    requires NewestFirst(s)
    ensures NewestFirst(Insert(x, s))
    ensures Insert(x, s)[0] == x || (s != [] && Insert(x, s)[0] == s[0])
  {
    if s != [] && s[0].data.publishedAt > x.data.publishedAt {
      var tail := s[1..];
      InsertSorted(x, tail);
      var rest := Insert(x, tail);
      assert Insert(x, s) == [s[0]] + rest;
      HeadIsNewest(s);
      forall e | e in rest ensures e.data.publishedAt <= s[0].data.publishedAt {
        assert e in multiset(tail) + multiset{x};
        if e != x {
          assert e in multiset(tail);
          assert e in tail;
        }
      }
      ConsSorted(s[0], rest);
    }
  }

  /** The head of a list sorted newest first is at least as new as every later entry. */
  lemma HeadIsNewest(s: seq<Entry>)
    requires NewestFirst(s) && s != []
    ensures forall e :: e in s[1..] ==> e.data.publishedAt <= s[0].data.publishedAt
  {
    forall e | e in s[1..] ensures e.data.publishedAt <= s[0].data.publishedAt {
      var m :| 0 <= m < |s[1..]| && s[1..][m] == e;
      assert s[m + 1] == e;
    }
  }

  /** An entry at least as new as every entry of a sorted list can go in front of it. */
  lemma ConsSorted(h: Entry, rest: seq<Entry>)
    requires NewestFirst(rest)
    requires forall e :: e in rest ==> e.data.publishedAt <= h.data.publishedAt
    ensures NewestFirst([h] + rest)
  {
    var r := [h] + rest;
    forall i, j | 0 <= i < j < |r| ensures r[i].data.publishedAt >= r[j].data.publishedAt {
      assert r[j] == rest[j - 1];
      if i > 0 {
        assert r[i] == rest[i - 1];
      }
    }
  }

  /** `entries.sort((a, b) => b.publishedAt - a.publishedAt)`. */
  function SortNewestFirst(xs: seq<Entry>): (r: seq<Entry>)
    ensures NewestFirst(r)
    ensures multiset(r) == multiset(xs)
    ensures |r| == |xs|
  {
    if xs == [] then []
    else
      assert xs == [xs[0]] + xs[1..];
      var rest := SortNewestFirst(xs[1..]);
      InsertSorted(xs[0], rest);
      Insert(xs[0], rest)
  }

  /** The entries published at exactly time `t`, in order. */
  function PublishedAt(xs: seq<Entry>, t: int): seq<Entry> {
    if xs == [] then [] else (if xs[0].data.publishedAt == t then [xs[0]] else []) + PublishedAt(xs[1..], t)
  }

  lemma {:induction false} InsertKeepsTies(x: Entry, s: seq<Entry>, t: int)
    ensures PublishedAt(Insert(x, s), t) == (if x.data.publishedAt == t then [x] else []) + PublishedAt(s, t)
  {
    if s == [] || s[0].data.publishedAt <= x.data.publishedAt {
      assert Insert(x, s) == [x] + s;
      assert ([x] + s)[1..] == s;
    } else {
      var r := Insert(x, s);
      assert r == [s[0]] + Insert(x, s[1..]);
      assert r[1..] == Insert(x, s[1..]);
      InsertKeepsTies(x, s[1..], t);
      assert PublishedAt(s, t) == (if s[0].data.publishedAt == t then [s[0]] else []) + PublishedAt(s[1..], t);
    }
  }

  /** The sort is stable: entries with the same publication date come out in the order
      they went in. */
  lemma {:induction false} SortIsStable(xs: seq<Entry>, t: int)
    ensures PublishedAt(SortNewestFirst(xs), t) == PublishedAt(xs, t)
  {
    if xs != [] {
      SortIsStable(xs[1..], t);
      InsertKeepsTies(xs[0], SortNewestFirst(xs[1..]), t);
    }
  }

  /** Every entry that is not a draft is at most as new as the first of the sorted list. */
  lemma FirstIsNewest(entries: seq<Entry>)
    requires FilterDrafts(entries) != []
    ensures var s := SortNewestFirst(FilterDrafts(entries));
      forall e :: e in entries && !IsDraft(e) ==> e.data.publishedAt <= s[0].data.publishedAt
  {
    var f := FilterDrafts(entries);
    var s := SortNewestFirst(f);
    HeadIsNewest(s);
    forall e | e in entries && !IsDraft(e)
      ensures e.data.publishedAt <= s[0].data.publishedAt
    {
      assert e in multiset(f);
      assert e in s;
      assert s == [s[0]] + s[1..];
    }
  }
}
