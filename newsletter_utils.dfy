/** The page helpers of src/lib/newsletter-utils.ts: the non-draft entries, newest first,
    with exactly the newest one marked as featured. */
module NewsletterUtils {
  import opened Wrappers
  import opened Content

  /** `sorted.map((n, index) => ({...n, data: {...n.data, featured: index === 0}}))`. */
  function MarkFeatured(xs: seq<Entry>): (r: seq<Entry>)
    ensures |r| == |xs|
    ensures forall i :: 0 <= i < |r| ==> (r[i].data.featured <==> i == 0)
    ensures forall i :: 0 <= i < |r| ==> r[i].(data := r[i].data.(featured := xs[i].data.featured)) == xs[i]
  {
    seq(|xs|, i requires 0 <= i < |xs| => xs[i].(data := xs[i].data.(featured := i == 0)))
  }

  /** `getNewslettersWithAutoFeatured()` over the collection `entries`. */
  function GetNewslettersWithAutoFeatured(entries: seq<Entry>): (r: seq<Entry>)
    ensures |r| == |FilterDrafts(entries)|
    ensures forall i, j :: 0 <= i < j < |r| ==> r[i].data.publishedAt >= r[j].data.publishedAt
    ensures forall i :: 0 <= i < |r| ==> (r[i].data.featured <==> i == 0)
  {
    MarkFeatured(SortNewestFirst(FilterDrafts(entries)))
  }

  /** The list holds exactly the non-draft entries, newest first, with only the first one
      featured and every other field as in the collection. */
  lemma AutoFeaturedSpec(entries: seq<Entry>)
    ensures var r := GetNewslettersWithAutoFeatured(entries);
      var s := SortNewestFirst(FilterDrafts(entries));
      && |r| == |FilterDrafts(entries)|
      && (forall i :: 0 <= i < |r| ==> !IsDraft(r[i]))
      && (forall i, j :: 0 <= i < j < |r| ==> r[i].data.publishedAt >= r[j].data.publishedAt)
      && (forall i :: 0 <= i < |r| ==> (r[i].data.featured <==> i == 0))
      && (forall i :: 0 <= i < |r| ==> r[i].(data := r[i].data.(featured := s[i].data.featured)) == s[i])
      && multiset(s) == multiset(FilterDrafts(entries))
  {
    var s := SortNewestFirst(FilterDrafts(entries));
    forall i | 0 <= i < |s| ensures !IsDraft(s[i]) {
      assert s[i] in multiset(s);
      assert s[i] in multiset(FilterDrafts(entries));
    }
  }

  /** The head of the non-empty list is the newest non-draft entry, marked as featured. */
  lemma FeaturedHead(entries: seq<Entry>)
    requires FilterDrafts(entries) != []
    ensures var all := GetNewslettersWithAutoFeatured(entries);
      var s := SortNewestFirst(FilterDrafts(entries));
      && all != [] && s != []
      && all[0].data.featured && !IsDraft(all[0])
      && all[0].data.publishedAt == s[0].data.publishedAt
  {
    var f := FilterDrafts(entries);
    var s := SortNewestFirst(f);
    var all := MarkFeatured(s);
    assert s[0] in multiset(f);
    assert s[0] in f;
    assert all[0].(data := all[0].data.(featured := s[0].data.featured)) == s[0];
  }

  /** `getFeaturedNewsletter()`: the first entry of the list, or null when it is empty.
      It is featured and no non-draft entry is newer. */
  function GetFeaturedNewsletter(entries: seq<Entry>): (r: Option<Entry>)
    ensures r.None? <==> GetNewslettersWithAutoFeatured(entries) == []
    ensures r.Some? ==> GetNewslettersWithAutoFeatured(entries) != [] && r.value == GetNewslettersWithAutoFeatured(entries)[0]
    ensures r.None? <==> forall e :: e in entries ==> IsDraft(e)
    ensures r.Some? ==> r.value.data.featured && !IsDraft(r.value)
    ensures r.Some? ==> forall e :: e in entries && !IsDraft(e) ==> e.data.publishedAt <= r.value.data.publishedAt
  {
    var all := GetNewslettersWithAutoFeatured(entries);
    if |all| > 0 then
      var f := FilterDrafts(entries);
      assert f != [] && f[0] in f;
      FeaturedHead(entries);
      FirstIsNewest(entries);
      Some(all[0])
    else
      assert forall e :: e in entries ==> IsDraft(e) by {
        assert FilterDrafts(entries) == [];
      }
      None
  }
}
