/**
 * The in-memory transport (src/drivers/memory_transport.ts): every instance
 * shares one channel -> subscriber table, and a publish calls the handlers
 * of every subscriber on the channel except those registered under the
 * publisher's own id.
 */
module MemoryDriver {

  import opened Types

  /**
   * One entry of a channel's subscriber list: the user's handler (named by
   * a number; its own effects are not modelled), the id the subscribing
   * transport had when it subscribed, and that transport, whose wrapper
   * records each delivered message.
   */
  datatype Subscription = Subscription(handler: nat, busId: Option<string>, receiver: MemoryTransport)

  /** `subscriptions.get(channel) || []`. */
  function Listed(channels: map<string, seq<Subscription>>, channel: string): seq<Subscription>
  {
    if channel in channels then channels[channel] else []
  }

  /** The subscriptions not registered under `id`, in their order. */
  function OthersThan(subs: seq<Subscription>, id: Option<string>): (r: seq<Subscription>)
    ensures |r| <= |subs|
  {
    if subs == [] then []
    else
      var last := subs[|subs| - 1];
      OthersThan(subs[..|subs| - 1], id) + if last.busId != id then [last] else []
  }

  /** The transports a list of subscriptions delivers to. */
  function Receivers(subs: seq<Subscription>): set<MemoryTransport>
  {
    set s | s in subs :: s.receiver
  }

  /** The receiving transport of each subscription, in order. */
  function ReceiverList(subs: seq<Subscription>): (rs: seq<MemoryTransport>)
    ensures |rs| == |subs| && forall i :: 0 <= i < |subs| ==> rs[i] == subs[i].receiver
  {
    seq(|subs|, i requires 0 <= i < |subs| => subs[i].receiver)
  }

  /** How many of the subscriptions deliver to r. */
  function DeliveredTo(subs: seq<Subscription>, r: MemoryTransport): nat
  {
    multiset(ReceiverList(subs))[r]
  }

  /** One more subscription adds one delivery to its own receiver and none to the others. */
  lemma DeliveredToStep(subs: seq<Subscription>, s: Subscription, r: MemoryTransport)
    ensures DeliveredTo(subs + [s], r) == DeliveredTo(subs, r) + if s.receiver == r then 1 else 0
  {
    assert ReceiverList(subs + [s]) == ReceiverList(subs) + [s.receiver];
  }

  /** k copies of a message. */
  function Copies(m: Serializable, k: nat): (r: seq<Serializable>)
    ensures |r| == k && forall i :: 0 <= i < k ==> r[i] == m
  {
    if k == 0 then [] else Copies(m, k - 1) + [m]
  }

  /**
   * Self-suppression: the filter keeps exactly the subscriptions registered
   * under another id.
   */
  lemma {:induction false} OthersThanMembers(subs: seq<Subscription>, id: Option<string>, s: Subscription)
    ensures s in OthersThan(subs, id) <==> s in subs && s.busId != id
  {
    if subs != [] {
      var init := subs[..|subs| - 1];
      OthersThanMembers(init, id, s);
      assert subs == init + [subs[|subs| - 1]];
    }
  }

  /** The filter distributes over concatenation: it keeps the order of the list. */
  lemma {:induction false} OthersThanAppend(a: seq<Subscription>, b: seq<Subscription>, id: Option<string>)
    ensures OthersThan(a + b, id) == OthersThan(a, id) + OthersThan(b, id)
    decreases |b|
  {
    if b == [] {
      assert a + b == a;
    } else {
      var init, last := b[..|b| - 1], b[|b| - 1];
      var kept := if last.busId != id then [last] else [];
      OthersThanAppend(a, init, id);
      assert (a + b)[..|a + b| - 1] == a + init && (a + b)[|a + b| - 1] == last;
      assert OthersThan(a + b, id) == OthersThan(a + init, id) + kept;
      assert OthersThan(b, id) == OthersThan(init, id) + kept;
    }
  }

  /** Filtering twice by the same id changes nothing more: `unsubscribe` is idempotent. */
  lemma {:induction false} OthersThanIdempotent(subs: seq<Subscription>, id: Option<string>)
    ensures OthersThan(OthersThan(subs, id), id) == OthersThan(subs, id)
  {
    if subs != [] {
      var init := subs[..|subs| - 1];
      var last := subs[|subs| - 1];
      OthersThanIdempotent(init, id);
      OthersThanAppend(OthersThan(init, id), if last.busId != id then [last] else [], id);
    }
  }

  /**
   * A subscription added under another id than the publisher's receives the
   * publisher's later messages, after every earlier subscriber.
   */
  lemma SubscriberReceivesOthers(subs: seq<Subscription>, s: Subscription, publisher: Option<string>)
    ensures OthersThan(subs + [s], publisher)
         == OthersThan(subs, publisher) + if s.busId != publisher then [s] else []
  {
    assert (subs + [s])[..|subs|] == subs;
  }

  /** The filter over one more element of a list. */
  lemma OthersThanStep(subs: seq<Subscription>, i: nat, id: Option<string>)
    requires i < |subs|
    ensures OthersThan(subs[..i + 1], id) == OthersThan(subs[..i], id) + if subs[i].busId != id then [subs[i]] else []
  {
    assert subs[..i + 1][..i] == subs[..i];
  }

  /** After `unsubscribe`, no publish on the channel reaches a subscription under the unsubscribing id. */
  lemma UnsubscribedHearNothing(subs: seq<Subscription>, id: Option<string>, publisher: Option<string>, s: Subscription)
    requires s.busId == id
    ensures s !in OthersThan(OthersThan(subs, id), publisher)
  {
    OthersThanMembers(OthersThan(subs, id), publisher, s);
    OthersThanMembers(subs, id, s);
  }

  /**
   * Each receiver of the subscriptions has recorded, after the messages it
   * held at `start`, one copy of the message per delivery to it.
   */
  ghost predicate Recorded(subs: seq<Subscription>, start: seq<seq<Serializable>>,
                           message: Serializable, delivered: seq<Subscription>)
    reads Receivers(subs)
  {
    && |start| == |subs|
    && forall j :: 0 <= j < |subs| ==>
         subs[j].receiver.receivedMessages == start[j] + Copies(message, DeliveredTo(delivered, subs[j].receiver))
  }

  /** What the receiver of each subscription has recorded, in subscription order. */
  ghost function Inboxes(subs: seq<Subscription>): (r: seq<seq<Serializable>>)
    reads Receivers(subs)
    ensures |r| == |subs| && forall j :: 0 <= j < |subs| ==> r[j] == subs[j].receiver.receivedMessages
  {
    if subs == [] then [] else [subs[0].receiver.receivedMessages] + Inboxes(subs[1..])
  }

  /** The id of the receiver of each subscription, in subscription order. */
  ghost function ReceiverIds(subs: seq<Subscription>): (r: seq<Option<string>>)
    reads Receivers(subs)
    ensures |r| == |subs| && forall j :: 0 <= j < |subs| ==> r[j] == subs[j].receiver.id
  {
    if subs == [] then [] else [subs[0].receiver.id] + ReceiverIds(subs[1..])
  }

  /** The shared table, `MemoryTransport.#subscriptions`: one per process. */
  class SubscriptionTable {
    var channels: map<string, seq<Subscription>>

    constructor ()
      ensures channels == map[]
    {
      channels := map[];
    }
  }

  class MemoryTransport {
    /** The shared table every instance reads and writes. */
    const table: SubscriptionTable
    /** `#id`: undefined until `setId`. */
    var id: Option<string>
    /** The messages the handler wrappers of this transport recorded, oldest first. */
    var receivedMessages: seq<Serializable>

    constructor (table: SubscriptionTable)
      ensures this.table == table && id == None && receivedMessages == []
    {
      this.table := table;
      id := None;
      receivedMessages := [];
    }

    method SetId(id: string)
      modifies this
      ensures this.id == Some(id) && receivedMessages == old(receivedMessages)
    {
      this.id := Some(id);
    }

    /**
     * The wrapper `#wrapHandler` puts around a handler, run on one message:
     * the message is recorded, then the user's handler runs.
     */
    method Deliver(message: Serializable)
      modifies this
      ensures receivedMessages == old(receivedMessages) + [message] && id == old(id)
    {
      receivedMessages := receivedMessages + [message];
    }

    /**
     * `publish(channel, message)`: runs, in subscription order, the wrapper
     * of every subscription on the channel registered under another id than
     * this transport's. Returns the subscriptions it delivered to.
     */
    method Publish(channel: string, message: Serializable) returns (delivered: seq<Subscription>)
      modifies Receivers(Listed(table.channels, channel))
      ensures delivered == OthersThan(Listed(old(table.channels), channel), old(id))
      ensures table.channels == old(table.channels) && id == old(id)
      ensures var subs := Listed(old(table.channels), channel);
        forall j :: 0 <= j < |subs| ==>
          subs[j].receiver.receivedMessages
            == old(subs[j].receiver.receivedMessages) + Copies(message, DeliveredTo(delivered, subs[j].receiver))
      ensures var subs := Listed(old(table.channels), channel);
        forall j :: 0 <= j < |subs| ==> subs[j].receiver.id == old(subs[j].receiver.id)
    {
      delivered := [];
      if channel !in table.channels {
        return;
      }
      var handlers := table.channels[channel];
      ghost var start := Inboxes(handlers);
      ghost var ids := ReceiverIds(handlers);
      assert handlers[..0] == [];
      delivered := OfferAll(handlers, message, start, ids);
      assert handlers[..|handlers|] == handlers;
    }

    /** The publish loop: offers the message to every subscription of `handlers`, in order. */
    method OfferAll(handlers: seq<Subscription>, message: Serializable,
                    ghost start: seq<seq<Serializable>>, ghost ids: seq<Option<string>>)
        returns (delivered: seq<Subscription>)
      requires Delivering(handlers, 0, start, message, []) && IdsKept(handlers, ids)
      modifies Receivers(handlers)
      ensures Delivering(handlers, |handlers|, start, message, delivered) && IdsKept(handlers, ids)
      ensures id == old(id) && table.channels == old(table.channels)
    {
      delivered := [];
      var i := 0;
      while i < |handlers|
        invariant id == old(id) && table.channels == old(table.channels)
        invariant Delivering(handlers, i, start, message, delivered)
        invariant IdsKept(handlers, ids)
        decreases |handlers| - i
      {
        delivered := Offer(handlers, i, message, start, ids, delivered);
        i := i + 1;
      }
    }

    /**
     * The publish loop after i turns over `handlers`: the wrappers of the
     * first i subscriptions not registered under this transport's id have
     * run, in order, each recording the message in its transport.
     */
    ghost predicate Delivering(handlers: seq<Subscription>, i: nat, start: seq<seq<Serializable>>,
                               message: Serializable, delivered: seq<Subscription>)
      reads this, Receivers(handlers)
    {
      && i <= |handlers|
      && delivered == OthersThan(handlers[..i], id)
      && Recorded(handlers, start, message, delivered)
    }

    /** Every receiver of `handlers` still has the id recorded in `ids`. */
    ghost predicate IdsKept(handlers: seq<Subscription>, ids: seq<Option<string>>)
      reads Receivers(handlers)
    {
      |ids| == |handlers| && forall j :: 0 <= j < |handlers| ==> handlers[j].receiver.id == ids[j]
    }

    /**
     * One turn of the publish loop: the wrapper of the i-th subscription runs
     * unless it is registered under this transport's id.
     */
    method Offer(handlers: seq<Subscription>, i: nat, message: Serializable,
                 ghost start: seq<seq<Serializable>>, ghost ids: seq<Option<string>>,
                 delivered: seq<Subscription>)
        returns (r: seq<Subscription>)
      requires i < |handlers| && Delivering(handlers, i, start, message, delivered) && IdsKept(handlers, ids)
      modifies handlers[i].receiver
      ensures Delivering(handlers, i + 1, start, message, r) && IdsKept(handlers, ids)
      ensures id == old(id)
    {
      var s := handlers[i];
      OthersThanStep(handlers, i, id);
      if s.busId == id {
        return delivered;
      }
      s.receiver.Deliver(message);
      r := delivered + [s];
      forall j | 0 <= j < |handlers|
        ensures handlers[j].receiver.receivedMessages
             == start[j] + Copies(message, DeliveredTo(r, handlers[j].receiver))
      {
        DeliveredToStep(delivered, s, handlers[j].receiver);
      }
    }

    /** `subscribe(channel, handler)`: appends one subscription under this transport's id. */
    method Subscribe(channel: string, handler: nat)
      modifies table
      ensures table.channels
           == old(table.channels)[channel := Listed(old(table.channels), channel) + [Subscription(handler, id, this)]]
    {
      var handlers := Listed(table.channels, channel);
      table.channels := table.channels[channel := handlers + [Subscription(handler, id, this)]];
    }

    /** `unsubscribe(channel)`: drops the channel's subscriptions under this transport's id. */
    method Unsubscribe(channel: string)
      modifies table
      ensures table.channels == old(table.channels)[channel := OthersThan(Listed(old(table.channels), channel), id)]
    {
      var handlers := Listed(table.channels, channel);
      table.channels := table.channels[channel := OthersThan(handlers, id)];
    }

    /** `disconnect()`: clears the shared table, for every instance. */
    method Disconnect()
      modifies table
      ensures table.channels == map[]
    {
      table.channels := map[];
    }

    /** `onReconnect(callback)`: the callback is ignored. */
    method OnReconnect()
      ensures unchanged(this, table)
    {
    }
  }

  const TestingChannel := "testing-channel"

  /**
   * tests/drivers/memory_transport.spec.ts: a transport does not receive the
   * messages it publishes itself.
   */
  method OwnMessageScenario() returns (delivered: seq<Subscription>, received: seq<Serializable>)
    ensures delivered == [] && received == []
  {
    var table := new SubscriptionTable();
    var transport := new MemoryTransport(table);
    transport.SetId("transport");
    transport.Subscribe(TestingChannel, 0);
    delivered := transport.Publish(TestingChannel, Str("test"));
    received := transport.receivedMessages;
  }

  /**
   * tests/drivers/memory_transport.spec.ts: a message published by another
   * transport reaches the subscriber's handler with the payload.
   */
  method OtherTransportScenario() returns (delivered: seq<nat>, received: seq<Serializable>, publisherReceived: seq<Serializable>)
    ensures delivered == [0] && received == [Str("test")] && publisherReceived == []
  {
    var table := new SubscriptionTable();
    var transport1 := new MemoryTransport(table);
    transport1.SetId("transport1");
    var transport2 := new MemoryTransport(table);
    transport2.SetId("transport2");
    transport1.Subscribe(TestingChannel, 0);
    var sub := Subscription(0, Some("transport1"), transport1);
    assert Listed(table.channels, TestingChannel) == [sub];
    assert OthersThan([sub], Some("transport2")) == [sub] by {
      assert [sub][..0] == [];
    }
    assert DeliveredTo([sub], transport1) == 1 by {
      assert [sub][..0] == [];
    }
    var subs := transport2.Publish(TestingChannel, Str("test"));
    delivered := [subs[0].handler];
    received := transport1.receivedMessages;
    publisherReceived := transport2.receivedMessages;
  }

  /** One transport's `disconnect` empties the table for all: later publishes reach nobody. */
  method DisconnectScenario() returns (delivered: seq<Subscription>, received: seq<Serializable>)
    ensures delivered == [] && received == []
  {
    var table := new SubscriptionTable();
    var transport1 := new MemoryTransport(table);
    transport1.SetId("transport1");
    var transport2 := new MemoryTransport(table);
    transport2.SetId("transport2");
    transport1.Subscribe(TestingChannel, 0);
    transport2.Disconnect();
    delivered := transport2.Publish(TestingChannel, Str("test"));
    received := transport1.receivedMessages;
  }
}
