/** The `Email` value object the Subscriber entity validates with. Its source is not part
    of this model; `ValidEmail` stands in for it with the usual JavaScript address pattern
    `^[^\s@]+@[^\s@]+\.[^\s@]+$`, and the lemmas below check it against the
    addresses the Subscriber tests accept and reject. */
module EmailAddress {
  import opened Text

  /** No whitespace and no '@' anywhere in `s`. */
  predicate PlainRun(s: string) {
    forall i :: 0 <= i < |s| ==> s[i] != '@' && !IsWhitespace(s[i])
  }

  /** A domain part: a plain run with a '.' that is neither its first nor its last character. */
  predicate ValidDomain(d: string) {
    PlainRun(d) && exists k :: 0 < k < |d| - 1 && d[k] == '.'
  }

  /** `local@domain`, local part non-empty. */
  predicate ValidEmail(s: string) {
    exists at :: 0 < at < |s| && s[at] == '@' && PlainRun(s[..at]) && ValidDomain(s[at + 1..])
  }

  /** A valid address splits at exactly one '@'. */
  lemma SingleAt(s: string, at: nat)
    requires ValidEmail(s)
    requires at < |s| && s[at] == '@'
    ensures PlainRun(s[..at]) && ValidDomain(s[at + 1..])
  {
    var at' :| 0 < at' < |s| && s[at'] == '@' && PlainRun(s[..at']) && ValidDomain(s[at' + 1..]);
  }

  lemma Accepts(s: string, at: nat, dot: nat)
    requires 0 < at < |s| && s[at] == '@'
    requires PlainRun(s[..at]) && PlainRun(s[at + 1..])
    requires at + 1 < dot < |s| - 1 && s[dot] == '.'
    ensures ValidEmail(s)
  {
    var d := s[at + 1..];
    assert d[dot - at - 1] == '.';
  }

  /** The addresses Subscriber.create must accept. */
  lemma AcceptedTestExample1()
    ensures ValidEmail("test@example.com")
  {
    Accepts("test@example.com", 4, 12);
  }

  lemma AcceptedTestExample2()
    ensures ValidEmail("user.name+tag@example.co.uk")
  {
    Accepts("user.name+tag@example.co.uk", 13, 21);
  }

  lemma AcceptedTestExample3()
    ensures ValidEmail("123@456.com")
  {
    Accepts("123@456.com", 3, 7);
  }

  /** An address without '@', or with '@' first or last, is rejected. */
  lemma RejectsMisplacedAt(s: string)
    requires (forall i :: 0 <= i < |s| ==> s[i] != '@') || (s != [] && (s[0] == '@' || s[|s| - 1] == '@'))
    ensures !ValidEmail(s)
  {
    if ValidEmail(s) {
      var at :| 0 < at < |s| && s[at] == '@' && PlainRun(s[..at]) && ValidDomain(s[at + 1..]);
    }
  }

  /** The addresses Subscriber.create must reject. */
  lemma RejectedTestExamples()
    ensures !ValidEmail("invalid-email")
    ensures !ValidEmail("")
    ensures !ValidEmail("test@")
    ensures !ValidEmail("@example.com")
  {
    RejectsMisplacedAt("invalid-email");
    RejectsMisplacedAt("");
    RejectsMisplacedAt("test@");
    RejectsMisplacedAt("@example.com");
  }
}
