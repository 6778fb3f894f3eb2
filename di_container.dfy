/** The dependency-injection container (src/lib/container/DIContainer.ts): three maps keyed
    by token. `factories` holds the registered factories; `services` holds, for a token
    registered as a singleton, either `null` (not built yet) or the cached instance;
    `singletons` holds instances supplied ready-made.

    A factory is opaque; the result of calling it is written `Made(factory, n)`, where `n`
    is the number of factory calls the container has made before. Only for a `registerClass`
    factory (`New`) does that tag stand for a distinct object; a function factory may hand
    back the same object on every call, and the model does not compare its results. The container also keeps `calls`, the tokens whose factories it has called, in
    order: that log is how the model observes when a factory runs. */
module DependencyInjection {
  import opened Wrappers

  /** A registered factory: a function passed to `register`, or `() => new constructor()`
      built by `registerClass`. */
  datatype Factory = Fn(id: nat) | New(ctor: nat)

  /** A value the container hands out: an instance supplied by the caller, or the result of
      the `call`-th factory call. */
  datatype Value = Object(id: nat) | Made(factory: Factory, call: nat)

  /** The container's state; `None` in `services` is the `null` placeholder. */
  datatype Registry = Registry(services: map<string, Option<Value>>, factories: map<string, Factory>,
                               singletons: map<string, Value>, calls: seq<string>)

  /** The message of the error `resolve` throws. */
  function NotFound(token: string): string {
    "Service '" + token + "' not found"
  }

  /** The state every public operation keeps: a `null` placeholder always has a factory
      beside it (both are set together by `register` and removed together by `clear`). */
  predicate Valid(g: Registry) {
    forall t :: t in g.services && g.services[t].None? ==> t in g.factories
  }

  const Empty := Registry(map[], map[], map[], [])

  /** `register(token, factory, singleton)`: store the factory; a singleton registration
      also resets the cached instance to `null`, so a repeated registration builds anew. */
  function RegisterEffect(g: Registry, token: string, factory: Factory, singleton: bool): (r: Registry)
    ensures Valid(g) ==> Valid(r)
    ensures token in r.factories && r.factories[token] == factory
    ensures singleton ==> token in r.services && r.services[token] == None
    ensures forall t :: t != token ==> (t in r.services <==> t in g.services) && (t in r.factories <==> t in g.factories)
    ensures forall t :: t != token && t in g.services ==> r.services[t] == g.services[t]
    ensures !singleton ==> r.services == g.services
    ensures r.singletons == g.singletons && r.calls == g.calls
  {
    g.(factories := g.factories[token := factory],
       services := if singleton then g.services[token := None] else g.services)
  }

  /** `registerInstance(token, instance)`. */
  function RegisterInstanceEffect(g: Registry, token: string, instance: Value): (r: Registry)
    ensures Valid(g) ==> Valid(r)
    ensures token in r.singletons && r.singletons[token] == instance
    ensures forall t :: t != token ==> (t in r.singletons <==> t in g.singletons)
    ensures r.services == g.services && r.factories == g.factories && r.calls == g.calls
  {
    g.(singletons := g.singletons[token := instance])
  }

  /** `resolve(token)`: a supplied instance first; then a singleton registration, building
      and caching the instance when the placeholder is still `null`; then a transient
      factory, called every time and never cached; otherwise "Service '…' not found". */
  function ResolveEffect(g: Registry, token: string): (r: (Result<Value, string>, Registry))
    ensures r.0.Success? <==> token in g.singletons || token in g.factories
                              || (token in g.services && g.services[token].Some?)
    ensures r.0.Failure? ==> r.0.error == NotFound(token) && r.1 == g
    ensures r.1.factories == g.factories && r.1.singletons == g.singletons
    ensures r.1.calls == g.calls || r.1.calls == g.calls + [token]
    ensures r.1.calls != g.calls ==> token in g.factories && r.0 == Success(Made(g.factories[token], |g.calls|))
    ensures Valid(g) ==> Valid(r.1)
  {
    if token in g.singletons then (Success(g.singletons[token]), g)
    else if token in g.services then
      match g.services[token]
      case Some(v) => (Success(v), g)
      case None =>
        if token !in g.factories then (Failure(NotFound(token)), g)
        else
          var v := Made(g.factories[token], |g.calls|);
          (Success(v), g.(services := g.services[token := Some(v)], calls := g.calls + [token]))
    else if token !in g.factories then (Failure(NotFound(token)), g)
    else (Success(Made(g.factories[token], |g.calls|)), g.(calls := g.calls + [token]))
  }

  /** `has(token)`: registered in any of the three maps. */
  function HasToken(g: Registry, token: string): (b: bool)
    ensures !b ==> ResolveEffect(g, token) == (Failure(NotFound(token)), g)
    ensures Valid(g) ==> (b <==> ResolveEffect(g, token).0.Success?)
  {
    token in g.services || token in g.factories || token in g.singletons
  }

  /** `clear()`: empty all three maps. */
  function ClearEffect(g: Registry): (r: Registry)
    ensures Valid(r)
    ensures forall t :: !HasToken(r, t)
    ensures r.calls == g.calls
  {
    Registry(map[], map[], map[], g.calls)
  }

  /** A singleton registration calls its factory on the first `resolve` only: the second
      `resolve` returns the same instance and changes nothing. */
  lemma SingletonResolvedOnce(g: Registry, token: string, factory: Factory)
    requires token !in g.singletons
    ensures var g1 := RegisterEffect(g, token, factory, true);
      var (r1, g2) := ResolveEffect(g1, token);
      var (r2, g3) := ResolveEffect(g2, token);
      && r1 == Success(Made(factory, |g.calls|))
      && g2.calls == g.calls + [token]
      && r2 == r1 && g3 == g2
  {
  }

  /** A transient registration calls its factory on every `resolve` (one more entry in
      `calls` each time); for a `registerClass` factory the two instances differ. It needs the token to have no entry in `services`: see
      `TransientAfterSingletonStaysCached`. */
  lemma TransientResolvedEachTime(g: Registry, token: string, factory: Factory)
    requires token !in g.singletons && token !in g.services
    ensures var g1 := RegisterEffect(g, token, factory, false);
      var (r1, g2) := ResolveEffect(g1, token);
      var (r2, g3) := ResolveEffect(g2, token);
      && r1 == Success(Made(factory, |g.calls|))
      && r2 == Success(Made(factory, |g.calls| + 1))
      && (factory.New? ==> r1 != r2)
      && g3.calls == g.calls + [token, token]
  {
  }

  /** Registering a token as transient after it was resolved as a singleton leaves the cached
      instance in `services`, which `resolve` consults before the factories: the new factory
      is never called. */
  lemma TransientAfterSingletonStaysCached(g: Registry, token: string, first: Factory, second: Factory)
    requires token !in g.singletons
    ensures var (r1, g2) := ResolveEffect(RegisterEffect(g, token, first, true), token);
      var g3 := RegisterEffect(g2, token, second, false);
      ResolveEffect(g3, token) == (r1, g3)
  {
  }

  /** A supplied instance wins over any factory for the same token, whichever was registered
      first, and resolving it calls no factory. */
  lemma InstanceTakesPriority(g: Registry, token: string, instance: Value, factory: Factory, singleton: bool)
    ensures var g1 := RegisterEffect(RegisterInstanceEffect(g, token, instance), token, factory, singleton);
      ResolveEffect(g1, token) == (Success(instance), g1)
    ensures var g1 := RegisterInstanceEffect(RegisterEffect(g, token, factory, singleton), token, instance);
      ResolveEffect(g1, token) == (Success(instance), g1)
  {
  }

  /** After `clear`, nothing resolves, even if it had been registered before. */
  lemma ClearedResolvesNothing(g: Registry, token: string)
    ensures ResolveEffect(ClearEffect(g), token).0 == Failure(NotFound(token))
  {
  }

  /** The container object; its methods change the three maps in place. */
  class DIContainer {
    var services: map<string, Option<Value>>
    var factories: map<string, Factory>
    var singletons: map<string, Value>
    var calls: seq<string>

    function State(): Registry
      reads this
    {
      Registry(services, factories, singletons, calls)
    }

    constructor()
      ensures State() == Empty && Valid(State())
    {
      services := map[];
      factories := map[];
      singletons := map[];
      calls := [];
    }

    /** `register(token, factory, singleton = true)`. */
    method Register(token: string, factory: Factory, singleton: bool)
      modifies this
      ensures State() == RegisterEffect(old(State()), token, factory, singleton)
    {
      factories := factories[token := factory];
      if singleton {
        services := services[token := None];
      }
    }

    /** `registerClass(token, constructor, singleton = true)`: a factory that constructs. */
    method RegisterClass(token: string, ctor: nat, singleton: bool)
      modifies this
      ensures State() == RegisterEffect(old(State()), token, New(ctor), singleton)
    {
      Register(token, New(ctor), singleton);
    }

    /** `registerInstance(token, instance)`. */
    method RegisterInstance(token: string, instance: Value)
      modifies this
      ensures State() == RegisterInstanceEffect(old(State()), token, instance)
    {
      singletons := singletons[token := instance];
    }

    /** `resolve(token)`; a thrown error is a `Failure`. */
    method Resolve(token: string) returns (r: Result<Value, string>)
      modifies this
      ensures (r, State()) == ResolveEffect(old(State()), token)
    {
      if token in singletons {
        return Success(singletons[token]);
      }
      if token in services {
        var instance := services[token];
        if instance == None {
          if token !in factories {
            return Failure(NotFound(token));
          }
          var made := Made(factories[token], |calls|);
          calls := calls + [token];
          instance := Some(made);
          services := services[token := instance];
        }
        return Success(instance.value);
      }
      if token !in factories {
        return Failure(NotFound(token));
      }
      r := Success(Made(factories[token], |calls|));
      calls := calls + [token];
    }

    /** `has(token)`. */
    method Has(token: string) returns (b: bool)
      ensures b == HasToken(State(), token)
    {
      b := token in services || token in factories || token in singletons;
    }

    /** `clear()`. */
    method Clear()
      modifies this
      ensures State() == ClearEffect(old(State()))
    {
      services := map[];
      factories := map[];
      singletons := map[];
    }
  }
}
