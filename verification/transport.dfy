/**
 * The transport contract a bus drives (src/types/main.ts): an object that
 * takes an id, registers a reconnect callback, and publishes, subscribes,
 * unsubscribes and disconnects. The network behind it is not modelled; a
 * `failing` flag decides whether `publish` rejects, as the chaos transport
 * of the test helpers does with `alwaysThrow` and `neverThrow`.
 */
module Transports {

  import opened Types

  /** One call a transport received, in order; a publish records whether it went out. */
  datatype Call =
    | IdSet(id: string)
    | ReconnectRegistered
    | Published(channel: string, payload: Serializable, delivered: bool)
    | Subscribed(channel: string)
    | Unsubscribed(channel: string)
    | Disconnected

  class Transport {
    var id: Option<string>
    /** Whether `publish` currently rejects. */
    var failing: bool
    /** Every call made on this transport, oldest first. */
    var log: seq<Call>

    constructor (failing: bool)
      ensures id == None && this.failing == failing && log == []
    {
      id := None;
      this.failing := failing;
      log := [];
    }

    /** `setId(id)`. */
    method SetId(id: string)
      modifies this
      ensures this.id == Some(id) && failing == old(failing)
      ensures log == old(log) + [IdSet(id)]
    {
      this.id := Some(id);
      log := log + [IdSet(id)];
    }

    /** `onReconnect(callback)`: the callback is registered, nothing runs yet. */
    method OnReconnect()
      modifies this
      ensures id == old(id) && failing == old(failing)
      ensures log == old(log) + [ReconnectRegistered]
    {
      log := log + [ReconnectRegistered];
    }

    /** `publish(channel, message)`: resolves (true) unless the transport is failing. */
    method Publish(channel: string, payload: Serializable) returns (ok: bool)
      modifies this
      ensures ok == !failing
      ensures id == old(id) && failing == old(failing)
      ensures log == old(log) + [Published(channel, payload, ok)]
    {
      ok := !failing;
      log := log + [Published(channel, payload, ok)];
    }

    method Subscribe(channel: string)
      modifies this
      ensures id == old(id) && failing == old(failing)
      ensures log == old(log) + [Subscribed(channel)]
    {
      log := log + [Subscribed(channel)];
    }

    method Unsubscribe(channel: string)
      modifies this
      ensures id == old(id) && failing == old(failing)
      ensures log == old(log) + [Unsubscribed(channel)]
    {
      log := log + [Unsubscribed(channel)];
    }

    method Disconnect()
      modifies this
      ensures id == old(id) && failing == old(failing)
      ensures log == old(log) + [Disconnected]
    {
      log := log + [Disconnected];
    }

    /** The chaos toggle: `alwaysThrow()` (true) or `neverThrow()` (false). */
    method SetFailing(failing: bool)
      modifies this
      ensures this.failing == failing && id == old(id) && log == old(log)
    {
      this.failing := failing;
    }
  }
}
