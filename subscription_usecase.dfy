/** The subscription use case (src/domain/usecases/SubscriptionUseCase.ts): subscribe,
    confirm and unsubscribe as decision trees over the subscriber store and the email
    service. Every failure, including a thrown error, becomes a result with
    `success == false`; nothing escapes as an exception.

    `SubscribeEffect`, `ConfirmEffect` and `UnsubscribeEffect` state each decision tree on
    the status of the subscriber found; the methods of `SubscriptionUseCase` are proved to
    follow them and state the exact new state of the store and of the email log. */
module Subscription {
  import opened Wrappers
  import opened EmailAddress
  import opened SubscriberEntity
  import opened SubscriberStore
  import opened Mail

  const AlreadySubscribed := "Este email já está inscrito na newsletter"
  const ConfirmationAlreadySent := "Já enviamos um email de confirmação. Verifique sua caixa de entrada."
  const SubscribedMessage := "Inscrição realizada com sucesso! Confirme seu email."
  const InternalError := "Erro interno. Tente novamente mais tarde."
  const InvalidToken := "Token de confirmação inválido"
  const AlreadyConfirmed := "Email já confirmado anteriormente"
  const NotConfirmable := "Este token não é válido para confirmação"
  const ConfirmedMessage := "Email confirmado com sucesso! Bem-vindo ao Puro Suco!"
  const SubscriberNotFound := "Subscriber não encontrado"
  const AlreadyUnsubscribed := "Você já havia cancelado a inscrição"
  const UnsubscribedMessage := "Cancelamento realizado com sucesso"

  /** `{success, message}`, and for `subscribe` the new subscriber on success. */
  datatype Outcome = Outcome(success: bool, message: string)
  datatype SubscriptionResult = SubscriptionResult(success: bool, message: string, subscriber: Option<Subscriber>)

  /** What one call does: its result, whether it saves a subscriber, whether it sends
      an email. */
  datatype Effect = Effect(success: bool, message: string, saves: bool, mails: bool)

  /** `${baseUrl}/api/confirm/${token}`. */
  function ConfirmationUrl(baseUrl: string, token: string): string {
    baseUrl + "/api/confirm/" + token
  }

  /** `subscribe`, as written. `existing` is the status of the subscriber `findByEmail`
      returns, `valid` whether the Email value object accepts the address (otherwise
      `Subscriber.create` throws), `delivered` whether the confirmation email would be
      sent without error. */
  function SubscribeEffect(existing: Option<Status>, valid: bool, delivered: bool): (e: Effect)
    ensures existing == Some(Confirmed) ==> e == Effect(false, AlreadySubscribed, false, false)
    ensures existing == Some(PendingConfirmation) ==> e == Effect(false, ConfirmationAlreadySent, false, false)
    ensures e.saves <==> valid && (existing.None? || existing == Some(Unsubscribed))
    ensures e.mails <==> valid && existing.None?
    ensures e.success <==> valid && (existing == Some(Unsubscribed) || (existing.None? && delivered))
    ensures e.success ==> e.saves && e.message == SubscribedMessage
    ensures !e.success && (existing.None? || existing == Some(Unsubscribed)) ==> e.message == InternalError
  {
    match existing
    case Some(Confirmed) => Effect(false, AlreadySubscribed, false, false)
    case Some(PendingConfirmation) => Effect(false, ConfirmationAlreadySent, false, false)
    case Some(Unsubscribed) =>
      if valid then Effect(true, SubscribedMessage, true, false) else Effect(false, InternalError, false, false)
    case None =>
      if !valid then Effect(false, InternalError, false, false)
      else if delivered then Effect(true, SubscribedMessage, true, true)
      else Effect(false, InternalError, true, true)
  }

  /** An email sent to a subscriber always ends in a stored pending record: `subscribe`
      never mails without saving, and a failed delivery keeps the record. */
  lemma SubscribeMailsOnlyAfterSaving(existing: Option<Status>, valid: bool, delivered: bool)
    ensures SubscribeEffect(existing, valid, delivered).mails ==> SubscribeEffect(existing, valid, delivered).saves
    ensures existing.None? && valid && !delivered ==>
      SubscribeEffect(existing, valid, delivered) == Effect(false, InternalError, true, true)
  {
  }

  /** The same `subscribe` with the confirmation email also sent when an unsubscribed
      address subscribes again. */
  function SubscribeEffectCorrected(existing: Option<Status>, valid: bool, delivered: bool): (e: Effect)
    ensures existing == Some(Confirmed) ==> e == Effect(false, AlreadySubscribed, false, false)
    ensures existing == Some(PendingConfirmation) ==> e == Effect(false, ConfirmationAlreadySent, false, false)
  {
    match existing
    case Some(Confirmed) => Effect(false, AlreadySubscribed, false, false)
    case Some(PendingConfirmation) => Effect(false, ConfirmationAlreadySent, false, false)
    case _ =>
      if !valid then Effect(false, InternalError, false, false)
      else if delivered then Effect(true, SubscribedMessage, true, true)
      else Effect(false, InternalError, true, true)
  }

  /** With the correction, every subscription that stores a pending record also sends the
      confirmation email, and a successful one was delivered. */
  lemma CorrectedSubscribeAlwaysConfirms(existing: Option<Status>, valid: bool, delivered: bool)
    ensures var e := SubscribeEffectCorrected(existing, valid, delivered);
      && (e.saves <==> e.mails)
      && (e.success ==> e.saves && e.mails && delivered)
      && (e.saves <==> valid && (existing.None? || existing == Some(Unsubscribed)))
  {
  }

  /** As written, an unsubscribed address that subscribes again gets a new pending record
      and a success message, but no confirmation email; a pending address that calls
      `subscribe` is told a confirmation email was already sent. With the correction,
      the reactivation mails. `SubscriptionUseCase.SubscribeTwiceAfterUnsubscribing`
      chains the two calls on the store. */
  lemma ResubscribeSendsNoConfirmation(delivered: bool)
    ensures var e := SubscribeEffect(Some(Unsubscribed), true, delivered);
      e.success && e.saves && !e.mails
    ensures SubscribeEffect(Some(PendingConfirmation), true, delivered).message == ConfirmationAlreadySent
    ensures SubscribeEffectCorrected(Some(Unsubscribed), true, delivered).mails
  {
  }

  /** `confirmSubscription`, on the status of the subscriber `findByToken` returns. */
  function ConfirmEffect(found: Option<Status>): (e: Effect)
    ensures e.success <==> found == Some(Confirmed) || found == Some(PendingConfirmation)
    ensures e.saves <==> found == Some(PendingConfirmation)
    ensures !e.mails
    ensures found.None? ==> e.message == InvalidToken
  {
    match found
    case None => Effect(false, InvalidToken, false, false)
    case Some(Confirmed) => Effect(true, AlreadyConfirmed, false, false)
    case Some(Unsubscribed) => Effect(false, NotConfirmable, false, false)
    case Some(PendingConfirmation) => Effect(true, ConfirmedMessage, true, false)
  }

  /** Following a confirmation link again succeeds without changing anything. */
  lemma ConfirmTwice(s: Status)
    ensures var after := if ConfirmEffect(Some(s)).saves then Confirmed else s;
      ConfirmEffect(Some(s)).success ==> ConfirmEffect(Some(after)) == Effect(true, AlreadyConfirmed, false, false)
  {
  }

  /** `unsubscribe`, on the status of the subscriber found by token or by email. */
  function UnsubscribeEffect(found: Option<Status>): (e: Effect)
    ensures e.success <==> found.Some?
    ensures e.saves <==> found == Some(Confirmed) || found == Some(PendingConfirmation)
    ensures !e.mails
    ensures found.None? ==> e.message == SubscriberNotFound
  {
    match found
    case None => Effect(false, SubscriberNotFound, false, false)
    case Some(Unsubscribed) => Effect(true, AlreadyUnsubscribed, false, false)
    case Some(_) => Effect(true, UnsubscribedMessage, true, false)
  }

  /** `unsubscribe` is idempotent: a second call succeeds and saves nothing. */
  lemma UnsubscribeTwice(found: Option<Status>)
    requires found.Some?
    ensures var after := if UnsubscribeEffect(found).saves then Unsubscribed else found.value;
      UnsubscribeEffect(Some(after)) == Effect(true, AlreadyUnsubscribed, false, false)
  {
  }

  /** The status of an optional subscriber. */
  function StatusOf(s: Option<Subscriber>): Option<Status>
    reads if s.Some? then {s.value} else {}
  {
    if s.Some? then Some(s.value.status) else None
  }

  class SubscriptionUseCase {
    const subscriberRepository: InMemorySubscriberRepository
    const emailService: EmailService

    constructor (subscriberRepository: InMemorySubscriberRepository, emailService: EmailService)
      ensures this.subscriberRepository == subscriberRepository && this.emailService == emailService
    {
      this.subscriberRepository := subscriberRepository;
      this.emailService := emailService;
    }

    /** The subscriber `findByEmail(email)` returns. */
    function ByEmail(email: string): (r: Option<Subscriber>)
      reads subscriberRepository
      ensures r.Some? ==> r.value in subscriberRepository.subscribers.Values
    {
      subscriberRepository.FindByEmail(email)
    }

    /** The subscriber `findByToken(token)` returns. */
    function ByToken(token: string): (r: Option<Subscriber>)
      reads subscriberRepository
      ensures r.Some? ==> r.value in subscriberRepository.subscribers.Values
    {
      subscriberRepository.FindByToken(token)
    }

    /** `subscribe(email, baseUrl)`; `newId`, `newToken` and `now` are what the id and
        token generators and the clock would give `Subscriber.create`. */
    method Subscribe(email: string, baseUrl: string, newId: string, newToken: string, now: int)
      returns (r: SubscriptionResult)
      requires subscriberRepository.Valid()
      requires newId != "" && newToken != ""
      modifies subscriberRepository, emailService
      ensures subscriberRepository.Valid()
      ensures var mail := ConfirmationEmail(email, ConfirmationUrl(baseUrl, newToken));
        var e := SubscribeEffect(old(StatusOf(ByEmail(email))), ValidEmail(email),
                                 emailService.delivers(|old(emailService.sent)|, mail));
        && r.success == e.success && r.message == e.message
        && emailService.sent == old(emailService.sent) + (if e.mails then [mail] else [])
        && (!e.saves ==> unchanged(subscriberRepository) && r.subscriber.None?)
        && (e.saves ==>
              && newId in subscriberRepository.subscribers
              && var s := subscriberRepository.subscribers[newId];
              && fresh(s)
              && s.ToPersistence() == CreatedRecord(email, newId, newToken, now).value
              && subscriberRepository.SavedFrom(old(subscriberRepository.subscribers), old(subscriberRepository.order),
                                                old(subscriberRepository.emailIndex), old(subscriberRepository.tokenIndex), s)
              && r.subscriber == if e.success then Some(s) else None)
    {
      var existing := subscriberRepository.FindByEmail(email);
      if existing.Some? {
        if existing.value.IsActive() {
          return SubscriptionResult(false, AlreadySubscribed, None);
        }
        if existing.value.IsPending() {
          return SubscriptionResult(false, ConfirmationAlreadySent, None);
        }
        // The remaining status is UNSUBSCRIBED: reactivate with a new record.
        var created := Subscriber.Create(email, newId, newToken, now);
        if created.Failure? {
          return SubscriptionResult(false, InternalError, None);
        }
        subscriberRepository.Save(created.value);
        return SubscriptionResult(true, SubscribedMessage, Some(created.value));
      }
      var created := Subscriber.Create(email, newId, newToken, now);
      if created.Failure? {
        return SubscriptionResult(false, InternalError, None);
      }
      var subscriber := created.value;
      subscriberRepository.Save(subscriber);
      var ok := emailService.SendConfirmationEmail(email, ConfirmationUrl(baseUrl, subscriber.unsubscribeToken));
      if !ok {
        return SubscriptionResult(false, InternalError, None);
      }
      return SubscriptionResult(true, SubscribedMessage, Some(subscriber));
    }

    /** `subscribe` with the correction: the reactivation path sends the confirmation
        email too. */
    method SubscribeCorrected(email: string, baseUrl: string, newId: string, newToken: string, now: int)
      returns (r: SubscriptionResult)
      requires subscriberRepository.Valid()
      requires newId != "" && newToken != ""
      modifies subscriberRepository, emailService
      ensures subscriberRepository.Valid()
      ensures var mail := ConfirmationEmail(email, ConfirmationUrl(baseUrl, newToken));
        var e := SubscribeEffectCorrected(old(StatusOf(ByEmail(email))), ValidEmail(email),
                                          emailService.delivers(|old(emailService.sent)|, mail));
        && r.success == e.success && r.message == e.message
        && emailService.sent == old(emailService.sent) + (if e.mails then [mail] else [])
        && (!e.saves ==> unchanged(subscriberRepository) && r.subscriber.None?)
        && (e.saves ==>
              && newId in subscriberRepository.subscribers
              && var s := subscriberRepository.subscribers[newId];
              && fresh(s)
              && s.ToPersistence() == CreatedRecord(email, newId, newToken, now).value
              && subscriberRepository.SavedFrom(old(subscriberRepository.subscribers), old(subscriberRepository.order),
                                                old(subscriberRepository.emailIndex), old(subscriberRepository.tokenIndex), s)
              && r.subscriber == if e.success then Some(s) else None)
    {
      var existing := subscriberRepository.FindByEmail(email);
      if existing.Some? {
        if existing.value.IsActive() {
          return SubscriptionResult(false, AlreadySubscribed, None);
        }
        if existing.value.IsPending() {
          return SubscriptionResult(false, ConfirmationAlreadySent, None);
        }
      }
      var created := Subscriber.Create(email, newId, newToken, now);
      if created.Failure? {
        return SubscriptionResult(false, InternalError, None);
      }
      var subscriber := created.value;
      subscriberRepository.Save(subscriber);
      var ok := emailService.SendConfirmationEmail(email, ConfirmationUrl(baseUrl, subscriber.unsubscribeToken));
      if !ok {
        return SubscriptionResult(false, InternalError, None);
      }
      return SubscriptionResult(true, SubscribedMessage, Some(subscriber));
    }

    /** An unsubscribed address subscribing again through `subscribe`, as written and with
        the in-memory store: the first call succeeds without sending the confirmation
        email, and a second call is refused because a confirmation email was supposedly
        sent, again without sending one. */
    method SubscribeTwiceAfterUnsubscribing(email: string, baseUrl: string, id1: string, token1: string,
                                            id2: string, token2: string, now: int)
      returns (first: SubscriptionResult, second: SubscriptionResult)
      requires subscriberRepository.Valid()
      requires ValidEmail(email) && StatusOf(ByEmail(email)) == Some(Unsubscribed)
      requires id1 != "" && token1 != "" && id2 != "" && token2 != ""
      modifies subscriberRepository, emailService
      ensures first.success && first.message == SubscribedMessage && first.subscriber.Some?
      ensures !second.success && second.message == ConfirmationAlreadySent && second.subscriber.None?
      ensures emailService.sent == old(emailService.sent)
    {
      first := Subscribe(email, baseUrl, id1, token1, now);
      second := Subscribe(email, baseUrl, id2, token2, now);
    }

    /** `confirmSubscription(token)`, with the clock passed in. A pending subscriber is
        confirmed in place and saved again under its own id. */
    method ConfirmSubscription(token: string, now: int) returns (r: Outcome)
      requires subscriberRepository.Valid()
      modifies subscriberRepository, subscriberRepository.subscribers.Values
      ensures subscriberRepository.Valid()
      ensures var found := old(ByToken(token));
        var e := ConfirmEffect(old(StatusOf(found)));
        && r == Outcome(e.success, e.message)
        && (!e.saves ==> unchanged(subscriberRepository) && unchanged(old(subscriberRepository.subscribers.Values)))
        && (e.saves ==>
              && found.value.ToPersistence() == ConfirmedRecord(old(found.value.ToPersistence()), now).value
              && subscriberRepository.subscribers == old(subscriberRepository.subscribers)
              && subscriberRepository.SavedFrom(old(subscriberRepository.subscribers), old(subscriberRepository.order),
                                                old(subscriberRepository.emailIndex), old(subscriberRepository.tokenIndex), found.value)
              && forall x :: x in old(subscriberRepository.subscribers.Values) && x != found.value ==> unchanged(x))
    {
      var subscriber := subscriberRepository.FindByToken(token);
      if subscriber.None? {
        return Outcome(false, InvalidToken);
      }
      var s := subscriber.value;
      if s.IsActive() {
        return Outcome(true, AlreadyConfirmed);
      }
      if !s.IsPending() {
        return Outcome(false, NotConfirmable);
      }
      var _ := s.Confirm(now);
      subscriberRepository.Save(s);
      return Outcome(true, ConfirmedMessage);
    }

    /** `unsubscribe(email, token?)`: by token when a non-empty token is given, by email
        otherwise. An unsubscribed subscriber is left as it is. */
    method Unsubscribe(email: string, token: Option<string>, now: int) returns (r: Outcome)
      requires subscriberRepository.Valid()
      modifies subscriberRepository, subscriberRepository.subscribers.Values
      ensures subscriberRepository.Valid()
      ensures var found := old(if token.Some? && token.value != "" then ByToken(token.value) else ByEmail(email));
        var e := UnsubscribeEffect(old(StatusOf(found)));
        && r == Outcome(e.success, e.message)
        && (!e.saves ==> unchanged(subscriberRepository) && unchanged(old(subscriberRepository.subscribers.Values)))
        && (e.saves ==>
              && found.value.ToPersistence() == UnsubscribedRecord(old(found.value.ToPersistence()), now).value
              && subscriberRepository.subscribers == old(subscriberRepository.subscribers)
              && subscriberRepository.SavedFrom(old(subscriberRepository.subscribers), old(subscriberRepository.order),
                                                old(subscriberRepository.emailIndex), old(subscriberRepository.tokenIndex), found.value)
              && forall x :: x in old(subscriberRepository.subscribers.Values) && x != found.value ==> unchanged(x))
    {
      var subscriber;
      if token.Some? && token.value != "" {
        subscriber := subscriberRepository.FindByToken(token.value);
      } else {
        subscriber := subscriberRepository.FindByEmail(email);
      }
      if subscriber.None? {
        return Outcome(false, SubscriberNotFound);
      }
      var s := subscriber.value;
      if s.IsUnsubscribed() {
        return Outcome(true, AlreadyUnsubscribed);
      }
      var _ := s.Unsubscribe(now);
      subscriberRepository.Save(s);
      return Outcome(true, UnsubscribedMessage);
    }

    /** `getStats()`: the number of confirmed subscribers, never more than the total. */
    method GetStats() returns (activeCount: nat)
      requires subscriberRepository.Valid()
      ensures activeCount == |WithStatus(subscriberRepository.FindAll(), Confirmed)|
      ensures activeCount <= subscriberRepository.GetTotalCount()
    {
      activeCount := subscriberRepository.GetActiveCount();
      subscriberRepository.CountsAddUp();
    }
  }
}
