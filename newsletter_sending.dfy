/** The newsletter sending use case (src/domain/usecases/NewsletterSendingUseCase.ts):
    find an issue, check that it is published, and send it to every confirmed
    subscriber one by one, each with a personal unsubscribe link, counting the sends that
    went through and those that threw. A failed send does not stop the batch.

    `process.env.PUBLIC_SITE_URL` is the field `siteUrl`; the clock is the parameter
    `now`. The pause between sends is left out. */
module NewsletterSending {
  import opened Wrappers
  import opened Text
  import opened SubscriberEntity
  import opened SubscriberStore
  import opened Issues
  import opened Mail
  import opened AstroRepository

  const DefaultBaseUrl := "http://localhost:3000"
  const NewsletterNotFound := "Newsletter não encontrada"
  const NewsletterNotPublished := "Newsletter ainda não foi publicada"
  const NoNewsletter := "Nenhuma newsletter encontrada"
  const LatestNotPublished := "Newsletter mais recente ainda não foi publicada"
  const SendingError := "Erro interno ao enviar newsletter"
  const NoActiveSubscribers := "Nenhum subscriber ativo encontrado"
  const SendFailed := "Falha ao enviar newsletter"
  const SentPrefix := "Newsletter enviada com sucesso! "
  const FailedSuffix := " emails falharam."

  /** `{success, message, sentCount?, failedCount?}`. */
  datatype SendingResult = SendingResult(success: bool, message: string, sentCount: Option<nat>, failedCount: Option<nat>)

  /** `a || b` on strings: `a` unless it is empty. */
  function OrElse(a: string, b: string): string {
    if a != [] then a else b
  }

  /** `baseUrl || process.env.PUBLIC_SITE_URL || 'http://localhost:3000'`. */
  function FinalBaseUrl(baseUrl: string, siteUrl: Option<string>): (r: string)
    ensures r != []
    ensures baseUrl != [] ==> r == baseUrl
    ensures baseUrl == [] && siteUrl.Some? && siteUrl.value != [] ==> r == siteUrl.value
    ensures baseUrl == [] && (siteUrl.None? || siteUrl.value == []) ==> r == DefaultBaseUrl
  {
    OrElse(baseUrl, OrElse(siteUrl.GetOr([]), DefaultBaseUrl))
  }

  /** `${base}/unsubscribe/${token}`. */
  function UnsubscribeUrl(base: string, token: string): string {
    base + "/unsubscribe/" + token
  }

  /** The sends of one batch, in repository order: one email per subscriber, addressed to
      that subscriber alone, with that subscriber's unsubscribe link. */
  function BatchMessages(subscribers: seq<Subscriber>, data: EmailData, base: string): (ms: seq<Message>)
    ensures |ms| == |subscribers|
    ensures forall i :: 0 <= i < |ms| ==> ms[i].NewsletterEmail? && ms[i].recipients == [subscribers[i].email]
    ensures forall i :: 0 <= i < |ms| ==> ms[i].data == data
    ensures forall i :: 0 <= i < |ms| ==> ms[i].unsubscribeUrl == UnsubscribeUrl(base, subscribers[i].unsubscribeToken)
  {
    seq(|subscribers|, i requires 0 <= i < |subscribers| =>
      NewsletterEmail([subscribers[i].email], data, UnsubscribeUrl(base, subscribers[i].unsubscribeToken)))
  }

  /** How many of the sends `ms`, attempted as numbers `start`, `start + 1`, ..., are
      delivered. */
  function DeliveredCount(delivers: (nat, Message) -> bool, start: nat, ms: seq<Message>): (n: nat)
    ensures n <= |ms|
  {
    if ms == [] then 0
    else DeliveredCount(delivers, start, ms[..|ms| - 1]) + (if delivers(start + |ms| - 1, ms[|ms| - 1]) then 1 else 0)
  }

  /** Counting one more send adds one exactly when it is delivered. */
  lemma DeliveredStep(delivers: (nat, Message) -> bool, start: nat, ms: seq<Message>, i: nat)
    requires i < |ms|
    ensures DeliveredCount(delivers, start, ms[..i + 1])
            == DeliveredCount(delivers, start, ms[..i]) + (if delivers(start + i, ms[i]) then 1 else 0)
  {
    assert ms[..i + 1][..i] == ms[..i];
  }

  /** The message of a finished batch. */
  function BatchMessage(sent: nat, failed: nat): string {
    var m := if sent > 0 then SentPrefix + NatToString(sent) + " emails enviados" else SendFailed;
    if failed > 0 then m + ". " + NatToString(failed) + FailedSuffix else m
  }

  /** The result of a batch over `active` subscribers of which `sent` were delivered. */
  function BatchResult(active: nat, sent: nat): (r: SendingResult)
    requires sent <= active
    ensures active == 0 ==> r == SendingResult(false, NoActiveSubscribers, Some(0), None)
    ensures active > 0 ==> r.sentCount == Some(sent) && r.failedCount == Some(active - sent)
    ensures active > 0 ==> (r.success <==> sent > 0)
  {
    if active == 0 then SendingResult(false, NoActiveSubscribers, Some(0), None)
    else SendingResult(sent > 0, BatchMessage(sent, active - sent), Some(sent), Some(active - sent))
  }

  /** The counts of a batch add up to the number of active subscribers, the message
      announces a success exactly when something was sent, and it reports failures
      exactly when some send failed. */
  lemma BatchResultMessage(active: nat, sent: nat)
    requires 0 < active && sent <= active
    ensures var r := BatchResult(active, sent);
      && r.sentCount.value + r.failedCount.value == active
      && (StartsWith(r.message, SentPrefix) <==> sent > 0)
      && (EndsWith(r.message, FailedSuffix) <==> sent < active)
  {
    var r := BatchResult(active, sent);
    var m := if sent > 0 then SentPrefix + NatToString(sent) + " emails enviados" else SendFailed;
    var tail := if sent < active then ". " + NatToString(active - sent) + FailedSuffix else [];
    assert r.message == m + tail;
    if sent > 0 {
      assert r.message[..|SentPrefix|] == SentPrefix;
    } else {
      assert r.message[0] == 'F';
    }
    if sent < active {
      assert r.message == (m + ". " + NatToString(active - sent)) + FailedSuffix;
    } else {
      assert r.message == m;
      assert m[|m| - 1] != '.';
      assert FailedSuffix[|FailedSuffix| - 1] == '.';
    }
  }

  class NewsletterSendingUseCase {
    const subscriberRepository: InMemorySubscriberRepository
    const newsletters: ContentSource
    const emailService: EmailService
    /** `process.env.PUBLIC_SITE_URL`. */
    const siteUrl: Option<string>

    constructor (subscriberRepository: InMemorySubscriberRepository, newsletters: ContentSource,
                 emailService: EmailService, siteUrl: Option<string>)
      ensures this.subscriberRepository == subscriberRepository && this.newsletters == newsletters
      ensures this.emailService == emailService && this.siteUrl == siteUrl
    {
      this.subscriberRepository := subscriberRepository;
      this.newsletters := newsletters;
      this.emailService := emailService;
      this.siteUrl := siteUrl;
    }

    /** The sends a batch of `issue` makes with the base URL argument `baseUrl`. */
    function Batch(issue: NewsletterIssue, baseUrl: string): seq<Message>
      reads subscriberRepository, subscriberRepository.subscribers.Values
      requires subscriberRepository.Valid()
    {
      BatchMessages(subscriberRepository.FindAllActive(), ToEmailData(issue), FinalBaseUrl(baseUrl, siteUrl))
    }

    /** `sendNewsletterToAll(newsletter, baseUrl?)`; an absent `baseUrl` is `""`, which is
        falsy as well. */
    method SendNewsletterToAll(issue: NewsletterIssue, baseUrl: string) returns (r: SendingResult)
      requires subscriberRepository.Valid()
      modifies emailService
      ensures var ms := Batch(issue, baseUrl);
        && emailService.sent == old(emailService.sent) + ms
        && r == BatchResult(|ms|, DeliveredCount(emailService.delivers, |old(emailService.sent)|, ms))
    {
      var active := subscriberRepository.FindAllActive();
      ghost var ms := Batch(issue, baseUrl);
      assert |ms| == |active|;
      if |active| == 0 {
        assert ms == [];
        return SendingResult(false, NoActiveSubscribers, Some(0), None);
      }
      var sentCount, failedCount := SendEach(active, ToEmailData(issue), FinalBaseUrl(baseUrl, siteUrl));
      assert failedCount == |active| - sentCount;
      r := BatchResult(|active|, sentCount);
    }

    /** The loop of `sendNewsletterToAll`: one send per subscriber, in order; a send that
        throws counts as failed and the loop goes on. */
    method SendEach(active: seq<Subscriber>, data: EmailData, base: string) returns (sentCount: nat, failedCount: nat)
      modifies emailService
      ensures var ms := BatchMessages(active, data, base);
        && emailService.sent == old(emailService.sent) + ms
        && sentCount == DeliveredCount(emailService.delivers, |old(emailService.sent)|, ms)
        && sentCount + failedCount == |active|
    {
      ghost var ms := BatchMessages(active, data, base);
      ghost var start := |emailService.sent|;
      sentCount, failedCount := 0, 0;
      for i := 0 to |active|
        invariant emailService.sent == old(emailService.sent) + ms[..i]
        invariant sentCount == DeliveredCount(emailService.delivers, start, ms[..i])
        invariant sentCount + failedCount == i
      {
        var s := active[i];
        assert ms[i] == NewsletterEmail([s.email], data, UnsubscribeUrl(base, s.unsubscribeToken));
        assert |emailService.sent| == start + i;
        var ok := emailService.SendNewsletter([s.email], data, UnsubscribeUrl(base, s.unsubscribeToken));
        assert ms[..i + 1] == ms[..i] + [ms[i]];
        DeliveredStep(emailService.delivers, start, ms, i);
        if ok {
          sentCount := sentCount + 1;
        } else {
          failedCount := failedCount + 1;
        }
      }
      assert ms[..|active|] == ms;
    }

    /** `sendToAllSubscribers(newsletter, baseUrl)`. The store never throws, so the
        catch-all is not reached. */
    method SendToAllSubscribers(issue: NewsletterIssue, baseUrl: string) returns (r: SendingResult)
      requires subscriberRepository.Valid()
      modifies emailService
      ensures var ms := Batch(issue, baseUrl);
        && emailService.sent == old(emailService.sent) + ms
        && r == BatchResult(|ms|, DeliveredCount(emailService.delivers, |old(emailService.sent)|, ms))
    {
      r := SendNewsletterToAll(issue, baseUrl);
    }

    /** `sendNewsletterBySlug(slug)` at time `now`. A missing, unpublished or unconvertible
        issue sends nothing. */
    method SendNewsletterBySlug(slug: string, now: int) returns (r: SendingResult)
      requires subscriberRepository.Valid()
      modifies emailService
      ensures var found := FindBySlug(newsletters, slug);
        && (found.Failure? ==> r == SendingResult(false, SendingError, None, None) && unchanged(emailService))
        && (found == Success(None) ==> r == SendingResult(false, NewsletterNotFound, None, None) && unchanged(emailService))
        && (found.Success? && found.value.Some? && !IsPublished(found.value.value, now) ==>
              r == SendingResult(false, NewsletterNotPublished, None, None) && unchanged(emailService))
        && (found.Success? && found.value.Some? && IsPublished(found.value.value, now) ==>
              var ms := Batch(found.value.value, "");
              && emailService.sent == old(emailService.sent) + ms
              && r == BatchResult(|ms|, DeliveredCount(emailService.delivers, |old(emailService.sent)|, ms)))
    {
      var found := FindBySlug(newsletters, slug);
      if found.Failure? {
        return SendingResult(false, SendingError, None, None);
      }
      if found.value.None? {
        return SendingResult(false, NewsletterNotFound, None, None);
      }
      var issue := found.value.value;
      if !IsPublished(issue, now) {
        return SendingResult(false, NewsletterNotPublished, None, None);
      }
      r := SendNewsletterToAll(issue, "");
    }

    /** `sendLatestNewsletter()` at time `now`. */
    method SendLatestNewsletter(now: int) returns (r: SendingResult)
      requires subscriberRepository.Valid()
      modifies emailService
      ensures var found := FindLatest(newsletters);
        && (found.Failure? ==> r == SendingResult(false, SendingError, None, None) && unchanged(emailService))
        && (found == Success(None) ==> r == SendingResult(false, NoNewsletter, None, None) && unchanged(emailService))
        && (found.Success? && found.value.Some? && !IsPublished(found.value.value, now) ==>
              r == SendingResult(false, LatestNotPublished, None, None) && unchanged(emailService))
        && (found.Success? && found.value.Some? && IsPublished(found.value.value, now) ==>
              var ms := Batch(found.value.value, "");
              && emailService.sent == old(emailService.sent) + ms
              && r == BatchResult(|ms|, DeliveredCount(emailService.delivers, |old(emailService.sent)|, ms)))
    {
      var found := FindLatest(newsletters);
      if found.Failure? {
        return SendingResult(false, SendingError, None, None);
      }
      if found.value.None? {
        return SendingResult(false, NoNewsletter, None, None);
      }
      var issue := found.value.value;
      if !IsPublished(issue, now) {
        return SendingResult(false, LatestNotPublished, None, None);
      }
      r := SendNewsletterToAll(issue, "");
    }

    /** `sendConfirmationEmail(email)`: only to a pending subscriber, with the link
        `${base}/confirm/${token}`; true exactly when that send goes through. */
    method SendConfirmationEmail(email: string) returns (ok: bool)
      requires subscriberRepository.Valid()
      modifies emailService
      ensures var found := subscriberRepository.FindByEmail(email);
        if found.Some? && found.value.status == PendingConfirmation then
          var m := ConfirmationEmail(found.value.email,
                                     OrElse(siteUrl.GetOr([]), DefaultBaseUrl) + "/confirm/" + found.value.unsubscribeToken);
          emailService.sent == old(emailService.sent) + [m] && ok == emailService.delivers(|old(emailService.sent)|, m)
        else
          !ok && unchanged(emailService)
    {
      var found := subscriberRepository.FindByEmail(email);
      if found.None? || !found.value.IsPending() {
        return false;
      }
      var s := found.value;
      var base := OrElse(siteUrl.GetOr([]), DefaultBaseUrl);
      ok := emailService.SendConfirmationEmail(s.email, base + "/confirm/" + s.unsubscribeToken);
    }

    /** `sendWelcomeEmail(email)`: only to a confirmed subscriber, with the link
        `${base}/unsubscribe/${token}`; true exactly when that send goes through. */
    method SendWelcomeEmail(email: string) returns (ok: bool)
      requires subscriberRepository.Valid()
      modifies emailService
      ensures var found := subscriberRepository.FindByEmail(email);
        if found.Some? && found.value.status == Confirmed then
          var m := WelcomeEmail(found.value.email, UnsubscribeUrl(OrElse(siteUrl.GetOr([]), DefaultBaseUrl), found.value.unsubscribeToken));
          emailService.sent == old(emailService.sent) + [m] && ok == emailService.delivers(|old(emailService.sent)|, m)
        else
          !ok && unchanged(emailService)
    {
      var found := subscriberRepository.FindByEmail(email);
      if found.None? || !found.value.IsActive() {
        return false;
      }
      var s := found.value;
      var base := OrElse(siteUrl.GetOr([]), DefaultBaseUrl);
      ok := emailService.SendWelcomeEmail(s.email, UnsubscribeUrl(base, s.unsubscribeToken));
    }
  }
}
