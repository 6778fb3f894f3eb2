/** The in-memory subscriber store (src/infrastructure/storage/InMemorySubscriberRepository.ts):
    a primary map from id to subscriber object plus an email index and a token index,
    both mapping to ids.

    A JavaScript `Map` iterates in insertion order, and `findAll*` return subscribers in that
    order; the class therefore keeps `order`, the ids of `subscribers` in insertion order.
    The map holds references: a subscriber object returned by a finder and then
    mutated is mutated in the store as well, as in the source. */
module SubscriberStore {
  import opened Wrappers
  import opened SubscriberEntity
  import opened Text

  /** `xs.filter(s => s.status === st)`. */
  function WithStatus(xs: seq<Subscriber>, st: Status): (r: seq<Subscriber>)
    reads xs
    ensures |r| <= |xs|
    ensures forall x :: x in r ==> x in xs && x.status == st
    ensures forall x :: x in xs && x.status == st ==> x in r
  {
    if xs == [] then []
    else (if xs[0].status == st then [xs[0]] else []) + WithStatus(xs[1..], st)
  }

  /** The status filter distributes over concatenation: the kept subscribers come out in
      list order, each as often as it is listed. */
  lemma {:induction false} WithStatusConcat(a: seq<Subscriber>, b: seq<Subscriber>, st: Status)
    ensures WithStatus(a + b, st) == WithStatus(a, st) + WithStatus(b, st)
  {
    if a == [] {
      assert a + b == b;
    } else {
      assert (a + b)[0] == a[0] && (a + b)[1..] == a[1..] + b;
      WithStatusConcat(a[1..], b, st);
    }
  }

  /** Every subscriber has exactly one status, so the three status filters split the list. */
  lemma {:induction false} StatusFiltersPartition(xs: seq<Subscriber>)
    ensures |WithStatus(xs, Confirmed)| + |WithStatus(xs, PendingConfirmation)|
            + |WithStatus(xs, Unsubscribed)| == |xs|
  {
    if xs != [] {
      StatusFiltersPartition(xs[1..]);
    }
  }

  /** `xs.filter(s => s.subscribedAt >= start && s.subscribedAt <= end)`: both ends inclusive. */
  function SubscribedBetween(xs: seq<Subscriber>, start: int, end: int): (r: seq<Subscriber>)
    ensures |r| <= |xs|
    ensures forall x :: x in r ==> x in xs && start <= x.subscribedAt <= end
    ensures forall x :: x in xs && start <= x.subscribedAt <= end ==> x in r
  {
    if xs == [] then []
    else (if start <= xs[0].subscribedAt <= end then [xs[0]] else []) + SubscribedBetween(xs[1..], start, end)
  }

  /** The date filter distributes over concatenation, so it keeps the list order. */
  lemma {:induction false} SubscribedBetweenConcat(a: seq<Subscriber>, b: seq<Subscriber>, start: int, end: int)
    ensures SubscribedBetween(a + b, start, end) == SubscribedBetween(a, start, end) + SubscribedBetween(b, start, end)
  {
    if a == [] {
      assert a + b == b;
    } else {
      assert (a + b)[0] == a[0] && (a + b)[1..] == a[1..] + b;
      SubscribedBetweenConcat(a[1..], b, start, end);
    }
  }

  /** A lookup through an index: `const id = index.get(key); if (!id) return null;
      return subscribers.get(id) || null`. An empty id is falsy and gives null. */
  function Lookup(index: map<string, string>, subscribers: map<string, Subscriber>, key: string): (r: Option<Subscriber>)
    ensures r.Some? <==> key in index && index[key] != "" && index[key] in subscribers
    ensures r.Some? ==> r.value == subscribers[index[key]]
  {
    if key !in index || index[key] == "" || index[key] !in subscribers then None
    else Some(subscribers[index[key]])
  }

  /** Saving `b` under a new id with the email of a stored `a` re-points the email index to
      `b`; `a` stays stored and is still found by its id and by its token. */
  lemma SameEmailRepointsIndex(subscribers: map<string, Subscriber>, emailIndex: map<string, string>,
                               tokenIndex: map<string, string>, a: Subscriber, b: Subscriber)
    requires a.id != "" && a.id in subscribers && subscribers[a.id] == a
    requires a.unsubscribeToken in tokenIndex && tokenIndex[a.unsubscribeToken] == a.id
    requires b.id != "" && b.id != a.id && b.email == a.email && b.unsubscribeToken != a.unsubscribeToken
    ensures Lookup(emailIndex[b.email := b.id], subscribers[b.id := b], a.email) == Some(b)
    ensures a.id in subscribers[b.id := b] && subscribers[b.id := b][a.id] == a
    ensures Lookup(tokenIndex[b.unsubscribeToken := b.id], subscribers[b.id := b], a.unsubscribeToken) == Some(a)
  {
  }

  /** The values of `m` in the order of the keys `keys`. */
  function InOrder(keys: seq<string>, m: map<string, Subscriber>): (r: seq<Subscriber>)
    requires forall k :: k in keys ==> k in m
    ensures |r| == |keys|
    ensures forall i :: 0 <= i < |keys| ==> r[i] == m[keys[i]]
  {
    if keys == [] then [] else [m[keys[0]]] + InOrder(keys[1..], m)
  }

  /** `keys` without `k`. */
  function Without(keys: seq<string>, k: string): (r: seq<string>)
    ensures forall x :: x in r <==> x in keys && x != k
    ensures (forall i, j :: 0 <= i < j < |keys| ==> keys[i] != keys[j])
            ==> (forall i, j :: 0 <= i < j < |r| ==> r[i] != r[j])
  {
    if keys == [] then []
    else if keys[0] == k then Without(keys[1..], k)
    else
      assert (forall i, j :: 0 <= i < j < |keys| ==> keys[i] != keys[j]) ==> keys[0] !in keys[1..] by {
        if keys[0] in keys[1..] {
          var j :| 0 <= j < |keys[1..]| && keys[1..][j] == keys[0];
          assert keys[j + 1] == keys[0];
        }
      }
      [keys[0]] + Without(keys[1..], k)
  }

  class InMemorySubscriberRepository {
    var subscribers: map<string, Subscriber>
    /** The ids of `subscribers` in insertion order (the iteration order of a JavaScript Map). */
    var order: seq<string>
    var emailIndex: map<string, string>
    var tokenIndex: map<string, string>

    ghost predicate Valid()
      reads this
    {
      && (forall i, j :: 0 <= i < j < |order| ==> order[i] != order[j])
      && (forall id :: id in order <==> id in subscribers)
      && (forall id :: id in subscribers ==> subscribers[id].id == id)
    }

    constructor ()
      ensures Valid()
      ensures subscribers == map[] && order == [] && emailIndex == map[] && tokenIndex == map[]
    {
      subscribers, order, emailIndex, tokenIndex := map[], [], map[], map[];
    }

    /** The state `save(s)` leaves behind when it starts from the maps `subscribers0`,
        `emailIndex0`, `tokenIndex0` and the order `order0`. */
    ghost predicate SavedFrom(subscribers0: map<string, Subscriber>, order0: seq<string>,
                              emailIndex0: map<string, string>, tokenIndex0: map<string, string>, s: Subscriber)
      reads this
    {
      && subscribers == subscribers0[s.id := s]
      && order == (if s.id in subscribers0 then order0 else order0 + [s.id])
      && emailIndex == emailIndex0[s.email := s.id]
      && tokenIndex == tokenIndex0[s.unsubscribeToken := s.id]
    }

    /** `save(subscriber)`: store the object under its id and point both indexes at that id.
        An id already present keeps its place in the iteration order. */
    method Save(s: Subscriber)
      requires Valid()
      modifies this
      ensures Valid()
      ensures SavedFrom(old(subscribers), old(order), old(emailIndex), old(tokenIndex), s)
      ensures s.id != "" ==> FindById(s.id) == Some(s) && FindByEmail(s.email) == Some(s)
                             && FindByToken(s.unsubscribeToken) == Some(s)
    {
      if s.id !in subscribers {
        order := order + [s.id];
      }
      subscribers := subscribers[s.id := s];
      emailIndex := emailIndex[s.email := s.id];
      tokenIndex := tokenIndex[s.unsubscribeToken := s.id];
    }

    /** `updateSubscriber(subscriber)`: the same as `save`. */
    method UpdateSubscriber(s: Subscriber)
      requires Valid()
      modifies this
      ensures Valid()
      ensures SavedFrom(old(subscribers), old(order), old(emailIndex), old(tokenIndex), s)
    {
      Save(s);
    }

    /** `findByEmail(email)`: the subscriber the email index points at, if still stored. */
    function FindByEmail(email: string): (r: Option<Subscriber>)
      reads this
      ensures r.Some? <==> email in emailIndex && emailIndex[email] != "" && emailIndex[email] in subscribers
      ensures r.Some? ==> r.value == subscribers[emailIndex[email]]
    {
      Lookup(emailIndex, subscribers, email)
    }

    /** `findByToken(token)`: the subscriber the token index points at, if still stored. */
    function FindByToken(token: string): (r: Option<Subscriber>)
      reads this
      ensures r.Some? <==> token in tokenIndex && tokenIndex[token] != "" && tokenIndex[token] in subscribers
      ensures r.Some? ==> r.value == subscribers[tokenIndex[token]]
    {
      Lookup(tokenIndex, subscribers, token)
    }

    /** `findById(id)`: the subscriber stored under `id`. */
    function FindById(id: string): (r: Option<Subscriber>)
      reads this
      ensures r.Some? <==> id in subscribers
      ensures r.Some? ==> r.value == subscribers[id]
    {
      if id in subscribers then Some(subscribers[id]) else None
    }

    /** `findAll()`: every stored subscriber, in insertion order. */
    function FindAll(): (r: seq<Subscriber>)
      reads this
      requires Valid()
      ensures |r| == |order|
      ensures forall i :: 0 <= i < |r| ==> r[i] == subscribers[order[i]]
      ensures forall x :: x in r ==> x in subscribers.Values
      ensures forall x :: x in subscribers.Values ==> x in r
    {
      var r := InOrder(order, subscribers);
      assert forall x :: x in subscribers.Values ==> x in r by {
        forall x | x in subscribers.Values ensures x in r {
          var id :| id in subscribers && subscribers[id] == x;
          var i :| 0 <= i < |order| && order[i] == id;
          assert r[i] == x;
        }
      }
      r
    }

    /** `findAllActive()`: the confirmed subscribers, in insertion order. */
    function FindAllActive(): (r: seq<Subscriber>)
      reads this, subscribers.Values
      requires Valid()
      ensures r == WithStatus(FindAll(), Confirmed)
      ensures forall x :: x in r ==> x in subscribers.Values && x.status == Confirmed
      ensures forall x :: x in subscribers.Values && x.status == Confirmed ==> x in r
    {
      WithStatus(FindAll(), Confirmed)
    }

    /** `findAllPending()`: the subscribers awaiting confirmation, in insertion order. */
    function FindAllPending(): (r: seq<Subscriber>)
      reads this, subscribers.Values
      requires Valid()
      ensures r == WithStatus(FindAll(), PendingConfirmation)
      ensures forall x :: x in r ==> x in subscribers.Values && x.status == PendingConfirmation
      ensures forall x :: x in subscribers.Values && x.status == PendingConfirmation ==> x in r
    {
      WithStatus(FindAll(), PendingConfirmation)
    }

    /** `findBySubscriptionDate(start, end)`: both ends inclusive, in insertion order. */
    function FindBySubscriptionDate(start: int, end: int): (r: seq<Subscriber>)
      reads this
      requires Valid()
      ensures r == SubscribedBetween(FindAll(), start, end)
      ensures forall x :: x in r ==> x in subscribers.Values && start <= x.subscribedAt <= end
      ensures forall x :: x in subscribers.Values && start <= x.subscribedAt <= end ==> x in r
    {
      SubscribedBetween(FindAll(), start, end)
    }

    /** `getActiveCount()`: the length of `findAllActive()`, at most the number stored. */
    function GetActiveCount(): (n: nat)
      reads this, subscribers.Values
      requires Valid()
      ensures n == |FindAllActive()|
      ensures n <= |order|
    {
      |FindAllActive()|
    }

    /** `getPendingCount()`: the length of `findAllPending()`, at most the number stored. */
    function GetPendingCount(): (n: nat)
      reads this, subscribers.Values
      requires Valid()
      ensures n == |FindAllPending()|
      ensures n <= |order|
    {
      |FindAllPending()|
    }

    /** `getUnsubscribedCount()`: the number of unsubscribed subscribers stored. */
    function GetUnsubscribedCount(): (n: nat)
      reads this, subscribers.Values
      requires Valid()
      ensures n == |WithStatus(FindAll(), Unsubscribed)|
      ensures n <= |order|
    {
      |WithStatus(FindAll(), Unsubscribed)|
    }

    /** `getTotalCount()`: the size of the primary map, which is the length of `findAll()`. */
    function GetTotalCount(): (n: nat)
      reads this
      requires Valid()
      ensures n == |FindAll()|
    {
      DistinctCardinality(order);
      assert (set k | k in order) == subscribers.Keys;
      |subscribers|
    }

    /** The three status counts add up to the number of stored subscribers. */
    lemma CountsAddUp()
      requires Valid()
      ensures GetActiveCount() + GetPendingCount() + GetUnsubscribedCount() == GetTotalCount()
    {
      StatusFiltersPartition(FindAll());
    }

    /** `deleteSubscriber(id)`: drop the record and the index entries under its email and
        token, whichever ids those entries hold. An unknown id changes nothing. */
    method DeleteSubscriber(id: string)
      requires Valid()
      modifies this
      ensures Valid()
      ensures id !in old(subscribers) ==>
        subscribers == old(subscribers) && order == old(order)
        && emailIndex == old(emailIndex) && tokenIndex == old(tokenIndex)
      ensures id in old(subscribers) ==>
        && subscribers == old(subscribers) - {id}
        && order == Without(old(order), id)
        && emailIndex == old(emailIndex) - {old(subscribers)[id].email}
        && tokenIndex == old(tokenIndex) - {old(subscribers)[id].unsubscribeToken}
      ensures FindById(id).None?
    {
      if id in subscribers {
        var s := subscribers[id];
        subscribers := subscribers - {id};
        order := Without(order, id);
        emailIndex := emailIndex - {s.email};
        tokenIndex := tokenIndex - {s.unsubscribeToken};
      }
    }

    /** `clear()`: empty all three maps. */
    method Clear()
      modifies this
      ensures Valid()
      ensures subscribers == map[] && order == [] && emailIndex == map[] && tokenIndex == map[]
    {
      subscribers, order, emailIndex, tokenIndex := map[], [], map[], map[];
    }
  }
}
