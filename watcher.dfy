/** The newsletter watcher script (scripts/watch-newsletter.ts): it reacts to file-system
    events in the newsletters directory, remembers in `processedFiles` the slugs it has
    scheduled, and sends each new newsletter through the HTTP API with a bounded retry.

    The file system and the HTTP API are parameters: an event carries whether the file
    exists when the callback runs, and the replies to the send requests come from an oracle
    indexed by attempt number. */
module Watcher {
  import opened Wrappers
  import opened Text

  /** The position of the last `c` in `s`. */
  function LastIndexOf(s: string, c: char): (r: Option<nat>)
    ensures r.None? ==> c !in s
    ensures r.Some? ==> r.value < |s| && s[r.value] == c && forall j :: r.value < j < |s| ==> s[j] != c
  {
    if s == [] then None
    else if s[|s| - 1] == c then Some(|s| - 1)
    else LastIndexOf(s[..|s| - 1], c)
  }

  /** `path.basename(f)`: the part after the last slash. */
  function Basename(f: string): (b: string)
    ensures '/' !in b
    ensures '/' !in f ==> b == f
  {
    match LastIndexOf(f, '/')
    case None => f
    case Some(i) =>
      var b := f[i + 1..];
      assert forall j | 0 <= j < |b| :: b[j] == f[i + 1 + j];
      b
  }

  /** `path.extname(b)` on a basename: from the last dot to the end, except that a name with
      no dot, a name whose only leading dot is its last one (".env") and the name ".." have
      no extension. */
  function Extname(b: string): (e: string)
    ensures e == [] || (|e| < |b| && EndsWith(b, e) && e[0] == '.' && '.' !in e[1..])
  {
    match LastIndexOf(b, '.')
    case None => ""
    case Some(d) =>
      if d == 0 || b == ".." then ""
      else
        var e := b[d..];
        assert forall j :: 0 <= j < |e| - 1 ==> e[1..][j] == b[d + 1 + j];
        e
  }

  /** `getSlugFromFilename(f)`: `basename(f, extname(f))`, the basename without its final
      extension. */
  function SlugOf(f: string): (s: string)
    ensures s + Extname(Basename(f)) == Basename(f)
  {
    var b := Basename(f);
    b[..|b| - |Extname(b)|]
  }

  /** `isValidNewsletterFile(f)`. */
  predicate IsValidNewsletterFile(f: string)
    ensures IsValidNewsletterFile(f) ==> |f| > |".md"| && !IsDraftFile(f)
  {
    EndsWith(f, ".md") && !StartsWith(f, ".") && !StartsWith(f, "_")
  }

  /** `isDraftFile(f)`. */
  predicate IsDraftFile(f: string)
    ensures IsDraftFile(f) ==> |f| > |".md"| && f[0] == '_'
  {
    var draft := StartsWith(f, "_") && EndsWith(f, ".md");
    assert draft ==> f[0] == '_' && f[|f| - 3] == '.';
    draft
  }

  /** A draft is never a valid newsletter file, and a valid one is never a draft. */
  lemma DraftIsNotValid(f: string)
    ensures !(IsDraftFile(f) && IsValidNewsletterFile(f))
  {
  }

  /** The slug of a valid newsletter file named without a directory is its name without
      ".md". */
  lemma ValidFileSlug(f: string)
    requires IsValidNewsletterFile(f) && '/' !in f
    ensures SlugOf(f) + ".md" == f
  {
    assert f[|f| - 3] == '.';
    assert f[|f| - 3..][1..] == "md";
    assert |f| > 3;
    assert Extname(f) == ".md";
  }

  /** One call of the `fs.watch` callback: the event type, the file name (`None` when the
      platform gives none) and whether the file exists when `existsSync` runs. */
  datatype Event = Event(eventType: string, filename: Option<string>, fileExists: bool)

  /** The event concerns a valid, non-draft newsletter file, the only ones the callback acts
      on. */
  predicate Relevant(e: Event) {
    e.filename.Some? && e.filename.value != "" && !IsDraftFile(e.filename.value)
    && IsValidNewsletterFile(e.filename.value) && e.eventType == "rename"
  }

  /** The file of a relevant event was removed. */
  predicate IsRemovalOf(e: Event, slug: string) {
    Relevant(e) && !e.fileExists && SlugOf(e.filename.value) == slug
  }

  /** The callback's effect on `processedFiles`, and the slug it schedules a send for, if any.
      A created file is scheduled when its slug is new; a removed file forgets its slug;
      other events change nothing. */
  function WatchStep(processed: set<string>, e: Event): (r: (set<string>, Option<string>))
    ensures r.1.Some? ==> Relevant(e) && e.fileExists && r.1.value == SlugOf(e.filename.value)
                          && r.1.value !in processed && r.0 == processed + {r.1.value}
    ensures r.1.None? && !(Relevant(e) && !e.fileExists) ==> r.0 == processed
    ensures Relevant(e) && !e.fileExists ==> r.0 == processed - {SlugOf(e.filename.value)} && r.1.None?
  {
    if !Relevant(e) then (processed, None)
    else
      var slug := SlugOf(e.filename.value);
      if e.fileExists then
        if slug !in processed then (processed + {slug}, Some(slug)) else (processed, None)
      else (processed - {slug}, None)
  }

  /** The callback called on each event in turn: the final `processedFiles` and the slugs
      scheduled, in order. */
  function Replay(processed: set<string>, events: seq<Event>): (set<string>, seq<string>)
    decreases |events|
  {
    if events == [] then (processed, [])
    else
      var (p1, s1) := WatchStep(processed, events[0]);
      var (p2, rest) := Replay(p1, events[1..]);
      (p2, (if s1.Some? then [s1.value] else []) + rest)
  }

  /** While its file is not removed, a slug is scheduled at most once, and not at all if it
      was already processed; it stays processed. */
  lemma {:induction false} ScheduledAtMostOnce(processed: set<string>, events: seq<Event>, slug: string)
    requires forall i :: 0 <= i < |events| ==> !IsRemovalOf(events[i], slug)
    ensures var (p, scheduled) := Replay(processed, events);
      && multiset(scheduled)[slug] <= (if slug in processed then 0 else 1)
      && (slug in processed ==> slug in p)
      && (multiset(scheduled)[slug] == 1 ==> slug in p)
    decreases |events|
  {
    if events != [] {
      var (p1, s1) := WatchStep(processed, events[0]);
      assert !IsRemovalOf(events[0], slug);
      assert forall i :: 0 <= i < |events[1..]| ==> !IsRemovalOf(events[1..][i], slug) by {
        forall i | 0 <= i < |events[1..]| ensures !IsRemovalOf(events[1..][i], slug) {
          assert events[1..][i] == events[i + 1];
        }
      }
      ScheduledAtMostOnce(p1, events[1..], slug);
      var (p2, rest) := Replay(p1, events[1..]);
      var head := if s1.Some? then [s1.value] else [];
      assert multiset(head + rest)[slug] == multiset(head)[slug] + multiset(rest)[slug];
      if slug in processed {
        assert slug in p1;
      }
    }
  }

  /** Removing a newsletter file and creating it again schedules its slug again. */
  lemma RecreatedFileIsScheduledAgain(processed: set<string>, f: string)
    requires f != "" && IsValidNewsletterFile(f)
    ensures var (p1, s1) := WatchStep(processed, Event("rename", Some(f), false));
      WatchStep(p1, Event("rename", Some(f), true)).1 == Some(SlugOf(f))
  {
    DraftIsNotValid(f);
  }

  /** The watcher's state: the `processedFiles` set, and the log of the sends it scheduled. */
  class NewsletterWatcher {
    var processedFiles: set<string>
    var scheduled: seq<string>

    /** A slug is marked processed only after a send was scheduled for it. */
    predicate Valid()
      reads this
    {
      forall s :: s in processedFiles ==> s in scheduled
    }

    constructor()
      ensures processedFiles == {} && scheduled == [] && Valid()
    {
      processedFiles := {};
      scheduled := [];
    }

    /** The `fs.watch` callback. */
    method OnEvent(e: Event)
      requires Valid()
      modifies this
      ensures Valid()
      ensures var (p, s) := WatchStep(old(processedFiles), e);
        processedFiles == p && scheduled == old(scheduled) + (if s.Some? then [s.value] else [])
    {
      if e.filename.None? || e.filename.value == "" {
        return;
      }
      var filename := e.filename.value;
      var slug := SlugOf(filename);
      if IsDraftFile(filename) {
        return;
      }
      if !IsValidNewsletterFile(filename) {
        return;
      }
      if e.eventType == "rename" {
        if e.fileExists {
          if slug !in processedFiles {
            processedFiles := processedFiles + {slug};
            scheduled := scheduled + [slug];
          }
        } else {
          processedFiles := processedFiles - {slug};
        }
      }
    }
  }

  /** What the API answered: a thrown error (network failure, a body that is not JSON), or a
      response with its `ok` flag and the `success` and `message` fields of its body. */
  datatype Reply = Threw | Responded(ok: bool, success: bool, message: Option<string>)

  predicate Delivered(r: Reply) {
    r.Responded? && r.ok && r.success
  }

  /** A failed attempt worth retrying: a thrown error, or a body whose message says the
      newsletter was not found yet (the site may not have rebuilt). */
  predicate Retryable(r: Reply) {
    r.Threw? || (!Delivered(r) && r.message.Some? && Contains(r.message.value, "não encontrada"))
  }

  datatype SendOutcome = SendOutcome(sent: bool, attempts: nat)

  /** `sendNewsletter(slug, retries)`, whose first request is attempt number `attempt`:
      whether it returns true, and how many requests it made. */
  function SendNewsletter(reply: nat -> Reply, attempt: nat, retries: nat): (r: SendOutcome)
    ensures 1 <= r.attempts <= retries + 1
    ensures r.sent <==> Delivered(reply(attempt + r.attempts - 1))
    ensures forall i :: attempt <= i < attempt + r.attempts - 1 ==> !Delivered(reply(i)) && Retryable(reply(i))
    ensures r.attempts <= retries ==> Delivered(reply(attempt + r.attempts - 1)) || !Retryable(reply(attempt + r.attempts - 1))
    decreases retries
  {
    var x := reply(attempt);
    if Delivered(x) then SendOutcome(true, 1)
    else if Retryable(x) && retries > 0 then
      var next := SendNewsletter(reply, attempt + 1, retries - 1);
      SendOutcome(next.sent, next.attempts + 1)
    else SendOutcome(false, 1)
  }

  /** When every reply is a retryable failure, the retries run out: exactly `retries + 1`
      requests, then false. */
  lemma {:induction false} RetriesExhausted(reply: nat -> Reply, attempt: nat, retries: nat)
    requires forall i :: attempt <= i <= attempt + retries ==> !Delivered(reply(i)) && Retryable(reply(i))
    ensures SendNewsletter(reply, attempt, retries) == SendOutcome(false, retries + 1)
    decreases retries
  {
    if retries > 0 {
      RetriesExhausted(reply, attempt + 1, retries - 1);
    }
  }
}
