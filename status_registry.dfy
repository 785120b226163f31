/**
 * The status push channel: a registry of connected listeners that
 * app/api/chat/status/route.js fills (`GET` inserts, `cancel` removes) and that
 * app/utils/statusBroadcast.js fans events out to, pruning listeners whose
 * delivery fails. A listener's controller is modelled as a channel that is open
 * or closed, together with the frames it has been handed.
 *
 * The two files each declare their own `subscribers` Map
 * (app/api/chat/status/route.js:4 and app/utils/statusBroadcast.js:1), so as
 * written a listener registered by `GET` is never reached by `broadcastStatus`.
 * This model keeps one registry that both operations share, the evident intent.
 */
module StatusRegistry {
  import opened Common

  /** The random id `GET` draws for a new listener. */
  type ListenerId = string

  /** A stream controller: `enqueue` succeeds exactly while it is open. */
  datatype Channel = Channel(open: bool, received: seq<string>)

  /** One server-sent event: `data: <json>` followed by a blank line. */
  function SseFrame(json: string): string {
    "data: " + json + "\n\n"
  }

  /** `JSON.stringify({ type: 'connected', message: 'SSE connection established', clients })`. */
  function ConnectedMessage(clients: nat): string {
    "{\"type\":\"connected\",\"message\":\"SSE connection established\",\"clients\":" + NatToDecimal(clients) + "}"
  }

  function Deliver(ch: Channel, frame: string): Channel {
    ch.(received := ch.received + [frame])
  }

  /** The registry after one broadcast of `frame`: the open listeners, each handed the frame once. */
  function Broadcast(subscribers: map<ListenerId, Channel>, frame: string): map<ListenerId, Channel> {
    map id | id in subscribers && subscribers[id].open :: Deliver(subscribers[id], frame)
  }

  /** The registry after `GET` registered `id`: a fresh open channel holding the `connected` frame. */
  function Subscribed(subscribers: map<ListenerId, Channel>, id: ListenerId): map<ListenerId, Channel> {
    var size := |subscribers.Keys + {id}|;
    subscribers[id := Channel(true, [SseFrame(ConnectedMessage(size))])]
  }

  function Cancelled(subscribers: map<ListenerId, Channel>, id: ListenerId): map<ListenerId, Channel> {
    subscribers - {id}
  }

  /**
   * The registry after the client behind `id` went away: its controller is
   * closed, so the next `enqueue` on it throws, but it stays registered.
   */
  function Disconnected(subscribers: map<ListenerId, Channel>, id: ListenerId): map<ListenerId, Channel> {
    if id in subscribers then subscribers[id := subscribers[id].(open := false)] else subscribers
  }

  /**
   * A broadcast removes exactly the listeners whose delivery fails, keeps every
   * other one, and hands each kept listener the same frame, appended once.
   */
  lemma BroadcastPrunesExactlyFailures(subscribers: map<ListenerId, Channel>, frame: string)
    ensures var after := Broadcast(subscribers, frame);
      && (forall id :: id in after <==> id in subscribers && subscribers[id].open)
      && (forall id :: id in after ==> after[id].open && after[id].received == subscribers[id].received + [frame])
  {
  }

  /** The number of successful deliveries is the number of open listeners. */
  lemma BroadcastReachesOpenListeners(subscribers: map<ListenerId, Channel>, frame: string)
    ensures |Broadcast(subscribers, frame)| == |set id | id in subscribers && subscribers[id].open|
  {
    var open := set id | id in subscribers && subscribers[id].open;
    assert Broadcast(subscribers, frame).Keys == open;
  }

  /** After one broadcast every listener left is open, so the next broadcast prunes none. */
  lemma {:induction false} SecondBroadcastKeepsSurvivors(subscribers: map<ListenerId, Channel>, f1: string, f2: string)
    ensures Broadcast(Broadcast(subscribers, f1), f2).Keys == Broadcast(subscribers, f1).Keys
    ensures |Broadcast(Broadcast(subscribers, f1), f2)| == |Broadcast(subscribers, f1)|
  {
    var once := Broadcast(subscribers, f1);
    assert Broadcast(once, f2).Keys == once.Keys;
  }

  /**
   * Three listeners, one of them closed: a broadcast delivers to two and drops
   * the closed one, and the next broadcast reaches the same two.
   */
  lemma ThreeListenersOneClosed(f1: string, f2: string)
    ensures var subscribers := map["a" := Channel(true, []), "b" := Channel(false, []), "c" := Channel(true, [])];
      && Broadcast(subscribers, f1).Keys == {"a", "c"}
      && Broadcast(Broadcast(subscribers, f1), f2).Keys == {"a", "c"}
      && |Broadcast(Broadcast(subscribers, f1), f2)| == 2
  {
    var subscribers := map["a" := Channel(true, []), "b" := Channel(false, []), "c" := Channel(true, [])];
    assert Broadcast(subscribers, f1).Keys == {"a", "c"};
    SecondBroadcastKeepsSurvivors(subscribers, f1, f2);
    assert |{"a", "c"}| == 2;
  }

  /**
   * A new listener finds its own `connected` frame reporting the registry size
   * with it counted, and every other listener is left as it was.
   */
  lemma SubscribeReportsSize(subscribers: map<ListenerId, Channel>, id: ListenerId)
    ensures var after := Subscribed(subscribers, id);
      && after.Keys == subscribers.Keys + {id}
      && after[id] == Channel(true, [SseFrame(ConnectedMessage(|after|))])
      && (forall other :: other in subscribers && other != id ==> after[other] == subscribers[other])
  {
    var after := Subscribed(subscribers, id);
    assert after.Keys == subscribers.Keys + {id};
  }

  /** A new listener receives the next broadcast right after its `connected` frame. */
  lemma SubscriberReceivesNextBroadcast(subscribers: map<ListenerId, Channel>, id: ListenerId, frame: string)
    ensures var after := Broadcast(Subscribed(subscribers, id), frame);
      && id in after
      && after[id].received == [SseFrame(ConnectedMessage(|subscribers.Keys + {id}|)), frame]
  {
  }

  /** Cancelling removes that listener only, and cancelling again changes nothing. */
  lemma CancelRemovesOnlyThatListener(subscribers: map<ListenerId, Channel>, id: ListenerId)
    ensures var after := Cancelled(subscribers, id);
      && after.Keys == subscribers.Keys - {id}
      && (forall other :: other in after ==> after[other] == subscribers[other])
      && Cancelled(after, id) == after
  {
  }

  /**
   * A listener whose client went away is dropped by the next broadcast, which
   * still reaches every other open listener.
   */
  lemma BroadcastDropsDisconnected(subscribers: map<ListenerId, Channel>, id: ListenerId, frame: string)
    ensures var after := Broadcast(Disconnected(subscribers, id), frame);
      && id !in after
      && (forall other :: other != id && other in subscribers && subscribers[other].open ==>
            other in after && after[other].received == subscribers[other].received + [frame])
  {
    BroadcastPrunesExactlyFailures(Disconnected(subscribers, id), frame);
  }

  lemma SizeAfterSet(m: map<ListenerId, Channel>, id: ListenerId, ch: Channel)
    ensures |m[id := ch]| == |m.Keys + {id}|
  {
    assert m[id := ch].Keys == m.Keys + {id};
  }

  lemma SetTwice(m: map<ListenerId, Channel>, id: ListenerId, c1: Channel, c2: Channel)
    ensures m[id := c1][id := c2] == m[id := c2]
  {
  }

  /** The process-wide listener registry. */
  class Registry {
    var subscribers: map<ListenerId, Channel>

    constructor ()
      ensures subscribers == map[]
    {
      subscribers := map[];
    }

    /** `GET` → `start`: register the controller, then enqueue the `connected` frame to it alone. */
    method Subscribe(id: ListenerId)
      modifies this
      ensures subscribers == Subscribed(old(subscribers), id)
    {
      ghost var before := subscribers;
      subscribers := subscribers[id := Channel(true, [])];
      SizeAfterSet(before, id, Channel(true, []));
      var message := ConnectedMessage(|subscribers|);
      var controller := subscribers[id];
      subscribers := subscribers[id := Deliver(controller, SseFrame(message))];
      assert Deliver(controller, SseFrame(message)) == Channel(true, [SseFrame(message)]);
      SetTwice(before, id, Channel(true, []), Channel(true, [SseFrame(message)]));
    }

    /** `cancel`: forget the listener. */
    method Cancel(id: ListenerId)
      modifies this
      ensures subscribers == Cancelled(old(subscribers), id)
    {
      subscribers := subscribers - {id};
    }

    /** The client behind `id` goes away and its controller is closed; the registry is not told. */
    method Disconnect(id: ListenerId)
      modifies this
      ensures subscribers == Disconnected(old(subscribers), id)
    {
      if id in subscribers {
        subscribers := subscribers[id := subscribers[id].(open := false)];
      }
    }

    /**
     * `broadcastStatus`: serialise the event once, try every listener present at
     * the start, and delete each one whose `enqueue` throws, without stopping.
     */
    method BroadcastStatus(data: Json, stringify: Json -> string)
      modifies this
      ensures subscribers == Broadcast(old(subscribers), SseFrame(stringify(data)))
    {
      var message := SseFrame(stringify(data));
      ghost var start := subscribers;
      var pending := subscribers.Keys;
      while pending != {}
        invariant pending <= start.Keys
        invariant subscribers.Keys <= start.Keys
        invariant forall id :: id in pending ==> id in subscribers && subscribers[id] == start[id]
        invariant forall id :: id in start && id !in pending ==>
          (id in subscribers <==> start[id].open) && (id in subscribers ==> subscribers[id] == Deliver(start[id], message))
        decreases pending
      {
        var id :| id in pending;
        var controller := subscribers[id];
        if controller.open {
          subscribers := subscribers[id := Deliver(controller, message)];
        } else {
          subscribers := subscribers - {id};
        }
        pending := pending - {id};
      }
      assert subscribers.Keys == Broadcast(start, message).Keys;
    }
  }
}
