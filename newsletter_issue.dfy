/** The NewsletterIssue entity (src/domain/entities/NewsletterIssue.ts): an immutable
    value built by a validating factory, with derived accessors. Dates are milliseconds
    and `isPublished` takes the current time as a parameter. */
module Issues {
  import opened Wrappers
  import opened Text

  /** The entity's fields. `create` takes an argument with exactly these fields, so the
      same datatype describes the factory's input. */
  datatype NewsletterIssue = NewsletterIssue(
    id: string,
    title: string,
    description: string,
    content: string,
    slug: string,
    issue: int,
    publishedAt: int,
    tags: seq<string>,
    readingTime: int,
    previewText: Option<string>)

  /** What `toEmailData()` returns. */
  datatype EmailData = EmailData(title: string, content: string, previewText: string, issue: int, slug: string)

  const TitleRequired := "Newsletter title is required"
  const ContentRequired := "Newsletter content is required"
  const IssueNotPositive := "Newsletter issue must be positive"

  /** `previewText?.trim()`. */
  function TrimOption(p: Option<string>): Option<string> {
    match p
    case None => None
    case Some(s) => Some(Trim(s))
  }

  /** `NewsletterIssue.create(data)`: the checks run in order (title, content, issue), the
      first that fails is the thrown error; title, description and preview text are
      stored trimmed, everything else as given. */
  function Create(data: NewsletterIssue): (r: Result<NewsletterIssue, string>)
    ensures r.Success? <==> Trim(data.title) != [] && Trim(data.content) != [] && data.issue > 0
    ensures r == Failure(TitleRequired) <==> AllWhitespace(data.title)
    ensures r == Failure(ContentRequired) <==> !AllWhitespace(data.title) && AllWhitespace(data.content)
    ensures r == Failure(IssueNotPositive)
            <==> !AllWhitespace(data.title) && !AllWhitespace(data.content) && data.issue <= 0
    ensures r.Success? ==>
      && r.value.title == Trim(data.title) && r.value.description == Trim(data.description)
      && r.value.previewText == TrimOption(data.previewText)
      && r.value.(title := data.title, description := data.description, previewText := data.previewText) == data
  {
    if Trim(data.title) == [] then Failure(TitleRequired)
    else if Trim(data.content) == [] then Failure(ContentRequired)
    else if data.issue <= 0 then Failure(IssueNotPositive)
    else Success(data.(title := Trim(data.title), description := Trim(data.description),
                       previewText := TrimOption(data.previewText)))
  }

  /** What every issue built by `create` satisfies. */
  predicate Created(i: NewsletterIssue) {
    i.title != [] && IsTrimmed(i.title) && IsTrimmed(i.description)
    && (i.previewText.Some? ==> IsTrimmed(i.previewText.value))
    && Trim(i.content) != [] && i.issue > 0
  }

  /** Every successful `create` yields a `Created` issue, and feeding that issue back to
      `create` gives it back unchanged: validation and trimming are idempotent. */
  lemma CreateIdempotent(data: NewsletterIssue)
    requires Create(data).Success?
    ensures Created(Create(data).value)
    ensures Create(Create(data).value) == Create(data)
  {
    var i := Create(data).value;
    TrimIdempotent(data.title);
    TrimIdempotent(data.description);
    if data.previewText.Some? {
      TrimIdempotent(data.previewText.value);
    }
    assert TrimOption(i.previewText) == i.previewText;
  }

  /** `getTags()`. The source copies the array; a Dafny sequence is a value, so the
      caller can never change the issue through it. */
  function GetTags(i: NewsletterIssue): (r: seq<string>)
    ensures |r| == |i.tags| && forall k :: 0 <= k < |r| ==> r[k] == i.tags[k]
  {
    i.tags
  }

  /** `getPreviewText()`: `previewText || description`, where an empty preview is falsy. */
  function GetPreviewText(i: NewsletterIssue): (r: string)
    ensures i.previewText.Some? && i.previewText.value != [] ==> r == i.previewText.value
    ensures (i.previewText.None? || i.previewText.value == []) ==> r == i.description
  {
    if i.previewText.Some? && i.previewText.value != [] then i.previewText.value else i.description
  }

  /** `isPublished()` at time `now`. */
  predicate IsPublished(i: NewsletterIssue, now: int)
    ensures IsPublished(i, now) <==> i.publishedAt <= now
  {
    i.publishedAt <= now
  }

  /** Publication is permanent: an issue published at `now` is still published later. */
  lemma PublishedStaysPublished(i: NewsletterIssue, now: int, later: int)
    requires IsPublished(i, now) && now <= later
    ensures IsPublished(i, later)
  {
  }

  const SubjectSeparator := " - Puro Suco #"

  /** `getEmailSubject()`: `${title} - Puro Suco #${issue}`. */
  function GetEmailSubject(i: NewsletterIssue): (r: string)
    ensures |r| > |i.title| + |SubjectSeparator|
    ensures r[..|i.title|] == i.title
    ensures r[|i.title|..|i.title| + |SubjectSeparator|] == SubjectSeparator
    ensures r[|i.title| + |SubjectSeparator|..] == IntToString(i.issue)
  {
    i.title + SubjectSeparator + IntToString(i.issue)
  }

  /** The number of decimal digits at the end of `x`. */
  function TrailingDigits(x: string): nat {
    if x != [] && '0' <= x[|x| - 1] <= '9' then 1 + TrailingDigits(x[..|x| - 1]) else 0
  }

  /** In a text ending in '#' followed by decimal digits, the digits are exactly the
      trailing digit run. */
  lemma {:induction false} DigitRunAfterHash(p: string, d: string)
    requires p != [] && p[|p| - 1] == '#'
    requires forall i :: 0 <= i < |d| ==> '0' <= d[i] <= '9'
    ensures TrailingDigits(p + d) == |d|
  {
    if d != [] {
      var d' := d[..|d| - 1];
      assert (p + d)[..|p + d| - 1] == p + d';
      DigitRunAfterHash(p, d');
    } else {
      assert p + d == p;
    }
  }

  /** A subject names its issue: two issues with non-negative numbers have the same subject
      only when they have the same title and the same number. The number is the run of
      digits after the last '#', and a title never ends inside that run. */
  lemma EmailSubjectInjective(a: NewsletterIssue, b: NewsletterIssue)
    requires a.issue >= 0 && b.issue >= 0
    requires GetEmailSubject(a) == GetEmailSubject(b)
    ensures a.title == b.title && a.issue == b.issue
  {
    var x := GetEmailSubject(a);
    var da, db := NatToString(a.issue), NatToString(b.issue);
    assert x == (a.title + SubjectSeparator) + da;
    assert x == (b.title + SubjectSeparator) + db;
    DigitRunAfterHash(a.title + SubjectSeparator, da);
    DigitRunAfterHash(b.title + SubjectSeparator, db);
    assert da == x[|x| - |da|..] == db;
    NatToStringInjective(a.issue, b.issue);
    assert a.title == x[..|a.title|] == b.title;
  }

  /** `toEmailData()`. */
  function ToEmailData(i: NewsletterIssue): (e: EmailData)
    ensures e.title == i.title && e.content == i.content && e.slug == i.slug
    ensures e.previewText == GetPreviewText(i) && e.issue == i.issue
  {
    EmailData(i.title, i.content, GetPreviewText(i), i.issue, i.slug)
  }

  /** The email data of a created issue, in terms of the factory's input: the trimmed
      title, the content as given, the trimmed preview text when it is not blank and the
      trimmed description otherwise, a positive issue number and the slug as given. */
  lemma EmailDataOfCreated(data: NewsletterIssue)
    requires Create(data).Success?
    ensures var e := ToEmailData(Create(data).value);
      && e.title == Trim(data.title) && e.title != []
      && e.content == data.content
      && e.previewText == (if data.previewText.Some? && !AllWhitespace(data.previewText.value)
                           then Trim(data.previewText.value) else Trim(data.description))
      && IsTrimmed(e.previewText)
      && e.issue == data.issue && e.issue > 0
      && e.slug == data.slug
  {
  }
}
