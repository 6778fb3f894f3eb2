/** The Subscriber entity (src/domain/entities/Subscriber.ts): a three-state lifecycle
    (pending confirmation, confirmed, unsubscribed) with guarded transitions and a
    mapping to and from a flat persisted record.

    The record functions below are the specification; the class `Subscriber` is the
    entity object, whose `Confirm` and `Unsubscribe` update its fields in place as the
    source does. The clock and the random id/token generators are parameters. */
module SubscriberEntity {
  import opened Wrappers
  import opened EmailAddress

  datatype Status = PendingConfirmation | Confirmed | Unsubscribed

  /** What `toPersistence` returns and `fromPersistence` takes. Dates are milliseconds. */
  datatype Record = Record(
    id: string,
    email: string,
    status: Status,
    subscribedAt: int,
    unsubscribeToken: string,
    confirmedAt: Option<int>,
    unsubscribedAt: Option<int>)

  /** Why an entity operation throws. */
  datatype EntityError =
    | InvalidEmail(address: string)
    | InvalidState(message: string)

  const ConfirmRejected := "Subscriber must be pending confirmation to be confirmed"
  const UnsubscribeRejected := "Subscriber is already unsubscribed"

  predicate ActiveStatus(s: Status) { s == Confirmed }
  predicate PendingStatus(s: Status) { s == PendingConfirmation }
  predicate UnsubscribedStatus(s: Status) { s == Unsubscribed }

  /** Exactly one of the three status queries holds. */
  lemma ExactlyOneStatus(s: Status)
    ensures PendingStatus(s) || ActiveStatus(s) || UnsubscribedStatus(s)
    ensures !(PendingStatus(s) && ActiveStatus(s))
    ensures !(PendingStatus(s) && UnsubscribedStatus(s))
    ensures !(ActiveStatus(s) && UnsubscribedStatus(s))
  {
  }

  /** The fields no transition may touch. */
  predicate SameIdentity(a: Record, b: Record) {
    a.id == b.id && a.email == b.email && a.subscribedAt == b.subscribedAt
    && a.unsubscribeToken == b.unsubscribeToken
  }

  /** `Subscriber.create(email)`, with the generated id and token and the clock passed in. */
  function CreatedRecord(email: string, newId: string, newToken: string, now: int): (r: Result<Record, EntityError>)
    requires newId != "" && newToken != ""
    ensures r.Success? <==> ValidEmail(email)
    ensures r.Failure? ==> r.error == InvalidEmail(email)
    ensures r.Success? ==> r.value.status == PendingConfirmation
    ensures r.Success? ==> r.value.confirmedAt.None? && r.value.unsubscribedAt.None?
    ensures r.Success? ==> r.value.email == email && r.value.subscribedAt == now
    ensures r.Success? ==> r.value.id == newId && r.value.unsubscribeToken == newToken
  {
    if ValidEmail(email) then Success(Record(newId, email, PendingConfirmation, now, newToken, None, None))
    else Failure(InvalidEmail(email))
  }

  /** `subscriber.confirm()` on a record. */
  function ConfirmedRecord(r: Record, now: int): (res: Result<Record, EntityError>)
    ensures res.Success? <==> r.status == PendingConfirmation
    ensures res.Failure? ==> res.error == InvalidState(ConfirmRejected)
    ensures res.Success? ==> res.value.status == Confirmed && res.value.confirmedAt == Some(now)
    ensures res.Success? ==> SameIdentity(r, res.value) && res.value.unsubscribedAt == r.unsubscribedAt
  {
    if r.status != PendingConfirmation then Failure(InvalidState(ConfirmRejected))
    else Success(r.(status := Confirmed, confirmedAt := Some(now)))
  }

  /** `subscriber.unsubscribe()` on a record. */
  function UnsubscribedRecord(r: Record, now: int): (res: Result<Record, EntityError>)
    ensures res.Success? <==> r.status != Unsubscribed
    ensures res.Failure? ==> res.error == InvalidState(UnsubscribeRejected)
    ensures res.Success? ==> res.value.status == Unsubscribed && res.value.unsubscribedAt == Some(now)
    ensures res.Success? ==> SameIdentity(r, res.value) && res.value.confirmedAt == r.confirmedAt
  {
    if r.status == Unsubscribed then Failure(InvalidState(UnsubscribeRejected))
    else Success(r.(status := Unsubscribed, unsubscribedAt := Some(now)))
  }

  /** `Subscriber.fromPersistence(data)`. The id and token value objects keep the stored
      value unless it is empty, in which case they generate a fresh one (`id || randomUUID()`);
      the email is validated again by the Email value object. */
  function RestoredRecord(data: Record, freshId: string, freshToken: string): (r: Result<Record, EntityError>)
    requires freshId != "" && freshToken != ""
    ensures r.Success? <==> ValidEmail(data.email)
    ensures r.Failure? ==> r.error == InvalidEmail(data.email)
    ensures r.Success? ==> r.value.id == (if data.id != "" then data.id else freshId)
    ensures r.Success? ==> r.value.unsubscribeToken == (if data.unsubscribeToken != "" then data.unsubscribeToken else freshToken)
    ensures r.Success? ==> r.value.id != "" && r.value.unsubscribeToken != ""
  {
    if !ValidEmail(data.email) then Failure(InvalidEmail(data.email))
    else
      Success(data.(id := if data.id != "" then data.id else freshId,
                    unsubscribeToken := if data.unsubscribeToken != "" then data.unsubscribeToken else freshToken))
  }

  /** A record every entity the model builds satisfies: non-empty keys, valid email. */
  predicate WellFormed(r: Record) {
    r.id != "" && r.unsubscribeToken != "" && ValidEmail(r.email)
  }

  /** Persisting and restoring a well-formed subscriber reproduces every field, whatever
      fresh values the generators would have offered. */
  lemma PersistenceRoundTrip(r: Record, freshId: string, freshToken: string)
    requires WellFormed(r)
    requires freshId != "" && freshToken != ""
    ensures RestoredRecord(r, freshId, freshToken) == Success(r)
  {
  }

  /** Restoring a record with an empty id or token does not reproduce it: the value
      objects replace the empty key by the generated one. */
  lemma RestoreReplacesEmptyKeys(r: Record, freshId: string, freshToken: string)
    requires ValidEmail(r.email) && (r.id == "" || r.unsubscribeToken == "")
    requires freshId != "" && freshToken != ""
    ensures RestoredRecord(r, freshId, freshToken) != Success(r)
  {
  }

  /** Every transition keeps a record well-formed. */
  lemma TransitionsKeepWellFormed(r: Record, now: int)
    requires WellFormed(r)
    ensures ConfirmedRecord(r, now).Success? ==> WellFormed(ConfirmedRecord(r, now).value)
    ensures UnsubscribedRecord(r, now).Success? ==> WellFormed(UnsubscribedRecord(r, now).value)
  {
  }

  /** A confirmation is recorded once: confirming a confirmed subscriber fails and a later
      unsubscribe keeps the recorded confirmation time. */
  lemma ConfirmedAtRecordedOnce(r: Record, t1: int, t2: int, t3: int)
    requires r.status == PendingConfirmation
    ensures var c := ConfirmedRecord(r, t1).value;
      && ConfirmedRecord(c, t2).Failure?
      && UnsubscribedRecord(c, t3).value.confirmedAt == Some(t1)
      && ConfirmedRecord(UnsubscribedRecord(c, t3).value, t2).Failure?
  {
  }

  /** The entity object. The readonly fields are `const`; the three fields the
      business methods update are `var`. */
  class Subscriber {
    const id: string
    const email: string
    var status: Status
    const subscribedAt: int
    const unsubscribeToken: string
    var confirmedAt: Option<int>
    var unsubscribedAt: Option<int>

    /** `toPersistence()`: the flat record of the current state. */
    function ToPersistence(): (r: Record)
      reads this
      ensures r.id == id && r.email == email && r.subscribedAt == subscribedAt
      ensures r.unsubscribeToken == unsubscribeToken
      ensures r.status == status && r.confirmedAt == confirmedAt && r.unsubscribedAt == unsubscribedAt
    {
      Record(id, email, status, subscribedAt, unsubscribeToken, confirmedAt, unsubscribedAt)
    }

    /** The private constructor: an object holding exactly the fields of `r`. */
    constructor Of(r: Record)
      ensures ToPersistence() == r
    {
      id, email, status, subscribedAt := r.id, r.email, r.status, r.subscribedAt;
      unsubscribeToken, confirmedAt, unsubscribedAt := r.unsubscribeToken, r.confirmedAt, r.unsubscribedAt;
    }

    /** `Subscriber.create(email)`. */
    static method Create(email: string, newId: string, newToken: string, now: int)
      returns (r: Result<Subscriber, EntityError>)
      requires newId != "" && newToken != ""
      ensures r.Success? <==> ValidEmail(email)
      ensures r.Failure? ==> r.error == InvalidEmail(email)
      ensures r.Success? ==> fresh(r.value)
      ensures r.Success? ==> r.value.ToPersistence() == CreatedRecord(email, newId, newToken, now).value
    {
      var rec := CreatedRecord(email, newId, newToken, now);
      if rec.Failure? {
        return Failure(rec.error);
      }
      var s := new Subscriber.Of(rec.value);
      return Success(s);
    }

    /** `Subscriber.fromPersistence(data)`. */
    static method FromPersistence(data: Record, freshId: string, freshToken: string)
      returns (r: Result<Subscriber, EntityError>)
      requires freshId != "" && freshToken != ""
      ensures r.Success? <==> ValidEmail(data.email)
      ensures r.Failure? ==> r.error == InvalidEmail(data.email)
      ensures r.Success? ==> fresh(r.value)
      ensures r.Success? ==> r.value.ToPersistence() == RestoredRecord(data, freshId, freshToken).value
    {
      var rec := RestoredRecord(data, freshId, freshToken);
      if rec.Failure? {
        return Failure(rec.error);
      }
      var s := new Subscriber.Of(rec.value);
      return Success(s);
    }

    predicate IsActive() reads this { ActiveStatus(status) }
    predicate IsPending() reads this { PendingStatus(status) }
    predicate IsUnsubscribed() reads this { UnsubscribedStatus(status) }

    /** `confirm()`: from pending only; otherwise throws and changes nothing. */
    method Confirm(now: int) returns (r: Result<(), EntityError>)
      modifies this
      ensures var spec := ConfirmedRecord(old(ToPersistence()), now);
        && r.Success? == spec.Success?
        && (spec.Success? ==> ToPersistence() == spec.value)
        && (spec.Failure? ==> r == Failure(spec.error) && ToPersistence() == old(ToPersistence()))
    {
      if status != PendingConfirmation {
        return Failure(InvalidState(ConfirmRejected));
      }
      status := Confirmed;
      confirmedAt := Some(now);
      return Success(());
    }

    /** `unsubscribe()`: from pending or confirmed; otherwise throws and changes nothing. */
    method Unsubscribe(now: int) returns (r: Result<(), EntityError>)
      modifies this
      ensures var spec := UnsubscribedRecord(old(ToPersistence()), now);
        && r.Success? == spec.Success?
        && (spec.Success? ==> ToPersistence() == spec.value)
        && (spec.Failure? ==> r == Failure(spec.error) && ToPersistence() == old(ToPersistence()))
    {
      if status == Unsubscribed {
        return Failure(InvalidState(UnsubscribeRejected));
      }
      status := Unsubscribed;
      unsubscribedAt := Some(now);
      return Success(());
    }
  }
}
