/**
 * The bus manager (src/bus_manager.ts): named transport configurations, an
 * optional default name, and a lazily filled cache holding one bus per name.
 */
module Manager {

  import opened Types
  import opened Transports
  import opened BusCore

  /**
   * One entry of `config.transports`: the transport its factory builds
   * (here, whether that transport's publishes fail) and the retry-queue
   * options of its bus, absent when not configured.
   */
  datatype TransportConfig = TransportConfig(failing: bool, retryQueue: Option<RetryQueueOptions>)

  /** `ManagerConfig`: the optional default name and the named configurations. */
  datatype ManagerConfig = ManagerConfig(defaultTransport: Option<string>, transports: map<string, TransportConfig>)

  /** JavaScript truthiness of an optional name: absent and "" are false. */
  predicate Truthy(name: Option<string>)
  {
    name.Some? && name.value != ""
  }

  /**
   * `transports || this.#defaultTransportName`, and the RuntimeException
   * thrown when neither is truthy.
   */
  function Target(name: Option<string>, defaultName: Option<string>): (r: Result<string>)
    ensures Truthy(name) ==> r == Success(name.value)
    ensures !Truthy(name) && Truthy(defaultName) ==> r == Success(defaultName.value)
    ensures r.Failure? <==> !Truthy(name) && !Truthy(defaultName)
    ensures r.Failure? ==> r.error == NoDefaultTransport
    ensures r.Success? ==> r.value != ""
  {
    if Truthy(name) then Success(name.value)
    else if Truthy(defaultName) then Success(defaultName.value)
    else Failure(NoDefaultTransport)
  }

  /** The options a configuration hands to its bus: absent options are the defaults. */
  function QueueOptions(config: TransportConfig): RetryQueueOptions
  {
    if config.retryQueue.Some? then config.retryQueue.value else NoOptions
  }

  class BusManager {
    const defaultName: Option<string>
    const transports: map<string, TransportConfig>
    /** MessageHasher.hash, handed to every bus's retry queue. */
    const hash: Serializable -> string
    /** `#transportsCache`: the bus built for each name so far. */
    var cache: map<string, Bus>
    ghost var Repr: set<object>

    /** The cached buses are valid and own disjoint sets of objects. */
    ghost predicate Valid()
      reads this, Repr
    {
      && this in Repr
      && (forall n :: n in cache ==> cache[n] in Repr && cache[n].Repr <= Repr && this !in cache[n].Repr)
      && (forall n :: n in cache ==> cache[n].Valid())
      && (forall m, n :: m in cache && n in cache && m != n ==> cache[m].Repr !! cache[n].Repr)
    }

    /** Different names never share a bus. */
    lemma DistinctBuses(m: string, n: string)
      requires Valid() && m in cache && n in cache && m != n
      ensures cache[m] != cache[n]
    {
      assert cache[m] in cache[m].Repr;
    }

    constructor (config: ManagerConfig, hash: Serializable -> string)
      ensures Valid() && fresh(Repr)
      ensures defaultName == config.defaultTransport && transports == config.transports
      ensures this.hash == hash && cache == map[]
    {
      defaultName := config.defaultTransport;
      transports := config.transports;
      this.hash := hash;
      cache := map[];
      Repr := {this};
    }

    /**
     * `use(name)`, with `freshId` the id `createId()` would draw for a new
     * bus. Throws when no name is truthy; returns the cached bus on a hit;
     * on a miss builds one bus from the name's configuration and caches it,
     * and a name without configuration throws a TypeError.
     */
    method Use(name: Option<string>, freshId: string) returns (r: Result<Bus>)
      requires Valid()
      modifies this
      ensures Valid() && fresh(Repr - old(Repr))
      ensures var t := Target(name, defaultName);
        && (t.Failure? ==> r == Failure(NoDefaultTransport) && cache == old(cache))
        && (t.Success? && t.value in old(cache) ==> r == Success(old(cache)[t.value]) && cache == old(cache))
        && (t.Success? && t.value !in old(cache) && t.value !in transports ==>
              r == Failure(TypeError) && cache == old(cache))
        && (t.Success? && t.value !in old(cache) && t.value in transports ==>
              && r.Success? && fresh(r.value) && fresh(r.value.transport)
              && cache == old(cache)[t.value := r.value]
              && r.value.busId == freshId
              && r.value.transport.failing == transports[t.value].failing
              && r.value.transport.log == [IdSet(freshId), ReconnectRegistered]
              && r.value.Valid() && r.value.errorRetryQueue.Contents() == []
              && r.value.errorRetryQueue.removeDuplicates == QueueFacade.RemovesDuplicates(QueueOptions(transports[t.value]))
              && r.value.errorRetryQueue.Enabled() == (QueueOptions(transports[t.value]).enabled != Some(false))
              && r.value.errorRetryQueue.MaxSize() == QueueOptions(transports[t.value]).maxSize
              && r.value.timerRunning == IntervalConfigured(QueueOptions(transports[t.value]).retryInterval)
              && r.value.handled == [])
      ensures r.Success? ==> Target(name, defaultName).Success? && cache[Target(name, defaultName).value] == r.value
    {
      var t := Target(name, defaultName);
      if t.Failure? {
        return Failure(NoDefaultTransport);
      }
      var key := t.value;
      if key in cache {
        return Success(cache[key]);
      }
      if key !in transports {
        return Failure(TypeError);
      }
      var bus := Build(key, freshId);
      return Success(bus);
    }

    /** The miss path of `use`: a bus over the configured transport, cached under `key`. */
    method Build(key: string, freshId: string) returns (bus: Bus)
      requires Valid() && key !in cache && key in transports
      modifies this
      ensures Valid() && fresh(Repr - old(Repr))
      ensures fresh(bus) && fresh(bus.transport) && cache == old(cache)[key := bus]
      ensures bus.busId == freshId
      ensures bus.transport.failing == transports[key].failing
      ensures bus.transport.log == [IdSet(freshId), ReconnectRegistered]
      ensures bus.Valid() && bus.errorRetryQueue.Contents() == []
      ensures bus.errorRetryQueue.removeDuplicates == QueueFacade.RemovesDuplicates(QueueOptions(transports[key]))
      ensures bus.errorRetryQueue.Enabled() == (QueueOptions(transports[key]).enabled != Some(false))
      ensures bus.errorRetryQueue.MaxSize() == QueueOptions(transports[key]).maxSize
      ensures bus.timerRunning == IntervalConfigured(QueueOptions(transports[key]).retryInterval)
      ensures bus.handled == []
    {
      bus := NewBus(transports[key], freshId, hash);
      Add(key, bus);
    }

    /** A bus over a new transport built from `config`, with the id `freshId`. */
    static method NewBus(config: TransportConfig, freshId: string, hash: Serializable -> string) returns (bus: Bus)
      ensures fresh(bus.Repr) && bus.Valid() && bus.busId == freshId
      ensures bus.transport.failing == config.failing
      ensures bus.transport.log == [IdSet(freshId), ReconnectRegistered]
      ensures bus.errorRetryQueue.Contents() == []
      ensures bus.errorRetryQueue.removeDuplicates == QueueFacade.RemovesDuplicates(QueueOptions(config))
      ensures bus.errorRetryQueue.Enabled() == (QueueOptions(config).enabled != Some(false))
      ensures bus.errorRetryQueue.MaxSize() == QueueOptions(config).maxSize
      ensures bus.timerRunning == IntervalConfigured(QueueOptions(config).retryInterval)
      ensures bus.handled == []
    {
      var transport := new Transport(config.failing);
      bus := new Bus(transport, QueueOptions(config), freshId, hash);
    }

    /** Caches `bus`, whose objects the manager does not yet reach, under `key`. */
    method Add(key: string, bus: Bus)
      requires Valid() && key !in cache && bus.Valid() && bus.Repr !! Repr
      modifies this
      ensures Valid() && cache == old(cache)[key := bus] && Repr == old(Repr) + bus.Repr
    {
      forall n | n in cache
        ensures cache[n].Repr !! bus.Repr
      {
        assert cache[n].Repr <= Repr;
      }
      cache := cache[key := bus];
      Repr := Repr + bus.Repr;
    }

    /**
     * The calls the transport of the bus `use` resolves `key` to has seen
     * before a delegated call: those of the cached bus, or the id and the
     * reconnect callback a newly built bus hands its fresh transport.
     */
    ghost function LogBefore(key: string, freshId: string): seq<Call>
      reads this, Repr
      requires Valid()
    {
      if key in cache then cache[key].transport.log else [IdSet(freshId), ReconnectRegistered]
    }

    /** The retry queue of the bus `use` resolves `key` to, before a delegated call: empty for a new bus. */
    ghost function QueueBefore(key: string): seq<Entry>
      reads this, Repr
      requires Valid()
    {
      if key in cache then cache[key].errorRetryQueue.Contents() else []
    }

    /** Whether that bus's retry interval is scheduled: a new bus starts it iff its interval is truthy. */
    ghost function TimerBefore(key: string): bool
      reads this, Repr
      requires Valid()
    {
      if key in cache then cache[key].timerRunning
      else key in transports && IntervalConfigured(QueueOptions(transports[key]).retryInterval)
    }

    /** The user-handler calls that bus has made: none for a new bus. */
    ghost function HandledBefore(key: string): seq<(nat, Serializable)>
      reads this, Repr
      requires Valid()
    {
      if key in cache then cache[key].handled else []
    }

    /**
     * `this.use()`, as the delegating methods call it: the default bus,
     * cached or newly built, with the calls, queue, interval and handled
     * messages it had before; every other cached bus is left alone.
     */
    method UseDefault(freshId: string) returns (found: Result<Bus>)
      requires Valid()
      modifies this
      ensures Valid() && fresh(Repr - old(Repr))
      ensures var t := Target(None, defaultName);
        && (t.Failure? ==> found == Failure(NoDefaultTransport))
        && (t.Success? && t.value !in old(cache) && t.value !in transports ==> found == Failure(TypeError))
        && (t.Success? && (t.value in old(cache) || t.value in transports) ==> found.Success?)
        && (found.Failure? ==> cache == old(cache))
        && (found.Success? ==>
              && t.Success? && t.value in cache && cache == old(cache)[t.value := cache[t.value]]
              && (t.value in old(cache) ==> cache[t.value] == old(cache)[t.value])
              && cache[t.value].transport.log == old(LogBefore(t.value, freshId))
              && cache[t.value].errorRetryQueue.Contents() == old(QueueBefore(t.value))
              && cache[t.value].timerRunning == old(TimerBefore(t.value))
              && cache[t.value].handled == old(HandledBefore(t.value)))
      ensures forall n :: n in old(cache) && Target(None, defaultName) != Success(n) ==>
        cache[n] == old(cache[n]) && unchanged(cache[n].Repr)
    {
      found := Use(None, freshId);
      forall n | n in old(cache)
        ensures cache[n] == old(cache[n]) && unchanged(cache[n].Repr)
      {
      }
    }

    /** `publish` on the cached bus under `key`; the other cached buses are untouched. */
    method PublishOn(key: string, channel: string, message: Serializable) returns (ok: bool)
      requires Valid() && key in cache
      modifies cache[key].Repr
      ensures Valid()
      ensures cache[key].transport.failing == old(cache[key].transport.failing)
      ensures ok == !old(cache[key].transport.failing)
      ensures cache[key].transport.log == old(cache[key].transport.log) + [Published(channel, message, ok)]
      ensures var q := cache[key].errorRetryQueue;
        q.Contents() == AfterPublish(q.removeDuplicates, q.Enabled(), q.MaxSize(), q.hash, cache[key].busId,
                                     !ok, old(q.Contents()), channel, message)
      ensures cache[key].timerRunning == old(cache[key].timerRunning) && cache[key].handled == old(cache[key].handled)
      ensures forall n :: n in cache && n != key ==> unchanged(cache[n].Repr)
    {
      var bus := cache[key];
      ok := bus.Publish(channel, message);
      forall n | n in cache && n != key
        ensures cache[n].Valid() && unchanged(cache[n].Repr)
      {
        assert cache[n].Repr !! bus.Repr;
      }
    }

    /** `subscribe` on the cached bus under `key`; the other cached buses are untouched. */
    method SubscribeOn(key: string, channel: string)
      requires Valid() && key in cache
      modifies cache[key].Repr
      ensures Valid()
      ensures cache[key].transport.failing == old(cache[key].transport.failing)
      ensures cache[key].transport.log == old(cache[key].transport.log) + [Subscribed(channel)]
      ensures cache[key].errorRetryQueue.Contents() == old(cache[key].errorRetryQueue.Contents())
      ensures cache[key].timerRunning == old(cache[key].timerRunning) && cache[key].handled == old(cache[key].handled)
      ensures forall n :: n in cache && n != key ==> unchanged(cache[n].Repr)
    {
      var bus := cache[key];
      bus.Subscribe(channel);
      forall n | n in cache && n != key
        ensures cache[n].Valid() && unchanged(cache[n].Repr)
      {
        assert cache[n].Repr !! bus.Repr;
      }
    }

    /** `unsubscribe` on the cached bus under `key`; the other cached buses are untouched. */
    method UnsubscribeOn(key: string, channel: string)
      requires Valid() && key in cache
      modifies cache[key].Repr
      ensures Valid()
      ensures cache[key].transport.failing == old(cache[key].transport.failing)
      ensures cache[key].transport.log == old(cache[key].transport.log) + [Unsubscribed(channel)]
      ensures cache[key].errorRetryQueue.Contents() == old(cache[key].errorRetryQueue.Contents())
      ensures cache[key].timerRunning == old(cache[key].timerRunning) && cache[key].handled == old(cache[key].handled)
      ensures forall n :: n in cache && n != key ==> unchanged(cache[n].Repr)
    {
      var bus := cache[key];
      bus.Unsubscribe(channel);
      forall n | n in cache && n != key
        ensures cache[n].Valid() && unchanged(cache[n].Repr)
      {
        assert cache[n].Repr !! bus.Repr;
      }
    }

    /** `disconnect` on the cached bus under `key`; the other cached buses are untouched. */
    method DisconnectOn(key: string)
      requires Valid() && key in cache
      modifies cache[key].Repr
      ensures Valid()
      ensures cache[key].transport.failing == old(cache[key].transport.failing)
      ensures !cache[key].timerRunning
      ensures cache[key].transport.log == old(cache[key].transport.log) + [Disconnected]
      ensures cache[key].errorRetryQueue.Contents() == old(cache[key].errorRetryQueue.Contents())
      ensures cache[key].handled == old(cache[key].handled)
      ensures forall n :: n in cache && n != key ==> unchanged(cache[n].Repr)
    {
      var bus := cache[key];
      bus.Disconnect();
      forall n | n in cache && n != key
        ensures cache[n].Valid() && unchanged(cache[n].Repr)
      {
        assert cache[n].Repr !! bus.Repr;
      }
    }

    /** `publish(channel, message)` on the default bus. */
    method Publish(channel: string, message: Serializable, freshId: string) returns (r: Result<bool>)
      requires Valid()
      modifies this, Repr
      ensures Valid() && fresh(Repr - old(Repr))
      ensures var t := Target(None, defaultName);
        && (t.Failure? ==> r == Failure(NoDefaultTransport))
        && (t.Success? && t.value !in old(cache) && t.value !in transports ==> r == Failure(TypeError))
        && (t.Success? && (t.value in old(cache) || t.value in transports) ==> r.Success?)
        && (r.Failure? ==> cache == old(cache))
        && (r.Success? ==>
              && t.Success? && t.value in cache && cache == old(cache)[t.value := cache[t.value]]
              && (t.value in old(cache) ==> cache[t.value] == old(cache)[t.value])
              && r.value == !cache[t.value].transport.failing
              && cache[t.value].transport.log == old(LogBefore(t.value, freshId)) + [Published(channel, message, r.value)]
              && (var q := cache[t.value].errorRetryQueue;
                  q.Contents() == AfterPublish(q.removeDuplicates, q.Enabled(), q.MaxSize(), q.hash, cache[t.value].busId,
                                               !r.value, old(QueueBefore(t.value)), channel, message))
              && cache[t.value].timerRunning == old(TimerBefore(t.value))
              && cache[t.value].handled == old(HandledBefore(t.value)))
      ensures forall n :: n in old(cache) && Target(None, defaultName) != Success(n) ==>
        cache[n] == old(cache[n]) && unchanged(cache[n].Repr)
    {
      var found := UseDefault(freshId);
      if found.Failure? {
        return Failure(found.error);
      }
      var key := Target(None, defaultName).value;
      var ok := PublishOn(key, channel, message);
      return Success(ok);
    }

    /** `subscribe(channel, handler)` on the default bus. */
    method Subscribe(channel: string, freshId: string) returns (failure: Option<Error>)
      requires Valid()
      modifies this, Repr
      ensures Valid() && fresh(Repr - old(Repr))
      ensures var t := Target(None, defaultName);
        && (t.Failure? ==> failure == Some(NoDefaultTransport))
        && (t.Success? && t.value !in old(cache) && t.value !in transports ==> failure == Some(TypeError))
        && (t.Success? && (t.value in old(cache) || t.value in transports) ==> failure == None)
        && (failure.Some? ==> cache == old(cache))
        && (failure.None? ==>
              && t.Success? && t.value in cache && cache == old(cache)[t.value := cache[t.value]]
              && (t.value in old(cache) ==> cache[t.value] == old(cache)[t.value])
              && cache[t.value].transport.log == old(LogBefore(t.value, freshId)) + [Subscribed(channel)]
              && cache[t.value].errorRetryQueue.Contents() == old(QueueBefore(t.value))
              && cache[t.value].timerRunning == old(TimerBefore(t.value))
              && cache[t.value].handled == old(HandledBefore(t.value)))
      ensures forall n :: n in old(cache) && Target(None, defaultName) != Success(n) ==>
        cache[n] == old(cache[n]) && unchanged(cache[n].Repr)
    {
      var found := UseDefault(freshId);
      if found.Failure? {
        return Some(found.error);
      }
      var key := Target(None, defaultName).value;
      SubscribeOn(key, channel);
      return None;
    }

    /** `unsubscribe(channel)` on the default bus. */
    method Unsubscribe(channel: string, freshId: string) returns (failure: Option<Error>)
      requires Valid()
      modifies this, Repr
      ensures Valid() && fresh(Repr - old(Repr))
      ensures var t := Target(None, defaultName);
        && (t.Failure? ==> failure == Some(NoDefaultTransport))
        && (t.Success? && t.value !in old(cache) && t.value !in transports ==> failure == Some(TypeError))
        && (t.Success? && (t.value in old(cache) || t.value in transports) ==> failure == None)
        && (failure.Some? ==> cache == old(cache))
        && (failure.None? ==>
              && t.Success? && t.value in cache && cache == old(cache)[t.value := cache[t.value]]
              && (t.value in old(cache) ==> cache[t.value] == old(cache)[t.value])
              && cache[t.value].transport.log == old(LogBefore(t.value, freshId)) + [Unsubscribed(channel)]
              && cache[t.value].errorRetryQueue.Contents() == old(QueueBefore(t.value))
              && cache[t.value].timerRunning == old(TimerBefore(t.value))
              && cache[t.value].handled == old(HandledBefore(t.value)))
      ensures forall n :: n in old(cache) && Target(None, defaultName) != Success(n) ==>
        cache[n] == old(cache[n]) && unchanged(cache[n].Repr)
    {
      var found := UseDefault(freshId);
      if found.Failure? {
        return Some(found.error);
      }
      var key := Target(None, defaultName).value;
      UnsubscribeOn(key, channel);
      return None;
    }

    /** `disconnect()` on the default bus: its retry interval stops and its transport disconnects. */
    method Disconnect(freshId: string) returns (failure: Option<Error>)
      requires Valid()
      modifies this, Repr
      ensures Valid() && fresh(Repr - old(Repr))
      ensures var t := Target(None, defaultName);
        && (t.Failure? ==> failure == Some(NoDefaultTransport))
        && (t.Success? && t.value !in old(cache) && t.value !in transports ==> failure == Some(TypeError))
        && (t.Success? && (t.value in old(cache) || t.value in transports) ==> failure == None)
        && (failure.Some? ==> cache == old(cache))
        && (failure.None? ==>
              && t.Success? && t.value in cache && cache == old(cache)[t.value := cache[t.value]]
              && (t.value in old(cache) ==> cache[t.value] == old(cache)[t.value])
              && cache[t.value].transport.log == old(LogBefore(t.value, freshId)) + [Disconnected]
              && cache[t.value].errorRetryQueue.Contents() == old(QueueBefore(t.value))
              && !cache[t.value].timerRunning
              && cache[t.value].handled == old(HandledBefore(t.value)))
      ensures forall n :: n in old(cache) && Target(None, defaultName) != Success(n) ==>
        cache[n] == old(cache[n]) && unchanged(cache[n].Repr)
    {
      var found := UseDefault(freshId);
      if found.Failure? {
        return Some(found.error);
      }
      var key := Target(None, defaultName).value;
      DisconnectOn(key);
      return None;
    }
  }

  /**
   * tests/bus_manager.spec.ts, "cache bus instance": asking twice for one
   * name returns one bus, and the default resolves to that same bus;
   * another name gets a bus of its own.
   */
  method CacheScenario(hash: Serializable -> string, id1: string, id2: string, id3: string, id4: string)
      returns (same: bool, viaDefault: bool, distinct: bool)
    ensures same && viaDefault && distinct
  {
    var config := ManagerConfig(Some("memory"),
      map["memory" := TransportConfig(false, None), "memory1" := TransportConfig(false, None)]);
    var manager := new BusManager(config, hash);
    var first := manager.Use(Some("memory"), id1);
    var second := manager.Use(Some("memory"), id2);
    var byDefault := manager.Use(None, id3);
    var other := manager.Use(Some("memory1"), id4);
    same := first == second;
    viaDefault := byDefault == first;
    distinct := other.Success? && first != other;
  }

  /** Without a default name, `use()` throws, and so does every delegating method. */
  method NoDefaultScenario(hash: Serializable -> string, id: string)
      returns (used: Result<Bus>, published: Result<bool>, named: bool)
    ensures used == Failure(NoDefaultTransport) && published == Failure(NoDefaultTransport) && named
  {
    var manager := new BusManager(ManagerConfig(None, map["memory" := TransportConfig(false, None)]), hash);
    used := manager.Use(None, id);
    published := manager.Publish("testing-channel", Str("test"), id);
    var explicit := manager.Use(Some("memory"), id);
    named := explicit.Success?;
  }

  /**
   * The delegating methods act on the default bus only: disconnecting it
   * stops its interval and leaves another cached bus's interval running and
   * its queue and transport calls as they were.
   */
  method IsolationScenario(hash: Serializable -> string, id1: string, id2: string)
      returns (otherTimer: bool, otherQueue: seq<Entry>, otherLog: seq<Call>, defaultTimer: bool)
    ensures otherTimer && otherQueue == [] && otherLog == [IdSet(id2), ReconnectRegistered]
    ensures !defaultTimer
  {
    var options := Some(RetryQueueOptions(None, None, None, Some(Millis(100))));
    var config := ManagerConfig(Some("main"),
      map["main" := TransportConfig(true, options), "other" := TransportConfig(false, options)]);
    var manager := new BusManager(config, hash);
    var main := manager.Use(None, id1);
    assert Target(None, manager.defaultName) == Success("main");
    var other := manager.Use(Some("other"), id2);
    assert manager.cache["main"] == main.value && manager.cache["other"] == other.value;
    var _ := manager.Disconnect(id1);
    assert manager.cache["main"] == main.value;
    otherTimer := other.value.timerRunning;
    otherQueue := other.value.errorRetryQueue.Contents();
    otherLog := other.value.transport.log;
    defaultTimer := main.value.timerRunning;
  }
}
