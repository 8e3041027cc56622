/**
 The hub's event loop (`broadcastToAll`) as a state machine on values.
 The loop's `select` takes one event at a time from the `register`,
 `unregister` and `broadcast` channels; the writer goroutines receive from
 their clients' channels at the same time.  A run of the program is then an
 interleaving of those events with the writers' receives: a sequence of
 `Step`s.  The state is the membership set `clients` together with the
 `send` channel of every client made so far: a client's channel outlives its
 membership, since its writer goroutine still drains it after it is closed.
 */
module Events {
  import opened Channel

  /** The identity of a `*Client`: opaque, compared only for equality. */
  type Handle = int

  /** A relayed message: a payload read from the connection of `from`. */
  datatype Message = Message(data: Payload, from: Handle)

  datatype Option<T> = None | Some(value: T)

  /** The members (the keys of the hub's `clients` map) and each client's `send` channel. */
  datatype State = State(clients: set<Handle>, queues: map<Handle, Queue>)

  /**
   The three cases of the hub's `select`, and `Take`: one receive by the
   writer of `client` from its own channel.
   */
  datatype Event =
    | Register(client: Handle)
    | Unregister(client: Handle)
    | Broadcast(msg: Message)
    | Take(client: Handle)

  /**
   What every step keeps: members are clients that exist, no buffer holds
   more than its capacity, and no member's channel is closed (a channel is
   closed only as its client leaves the set).
   */
  predicate Inv(s: State) {
    && s.clients <= s.queues.Keys
    && (forall c :: c in s.queues ==> Bounded(s.queues[c]))
    && (forall c :: c in s.clients ==> !s.queues[c].closed)
  }

  /**
   A client handed to `register` is one `handleConnections` has just made,
   with an open channel.  Putting a closed client back into the set would
   make the next broadcast panic on a send to a closed channel.  A writer is
   started only for a client that has been made.
   */
  predicate Admissible(s: State, e: Event) {
    && (e.Register? ==> e.client in s.queues && !s.queues[e.client].closed)
    && (e.Take? ==> e.client in s.queues)
  }

  /** The `register` case: the client becomes a key of the map. */
  function Admit(s: State, c: Handle): (r: State)
    requires Inv(s) && c in s.queues && !s.queues[c].closed
    ensures Inv(r)
  {
    s.(clients := s.clients + {c})
  }

  /** The `unregister` case: a present client is deleted from the set and its channel closed. */
  function Evict(s: State, c: Handle): (r: State)
    requires Inv(s)
    ensures Inv(r)
  {
    if c in s.clients then State(s.clients - {c}, s.queues[c := Close(s.queues[c])]) else s
  }

  /** The `broadcast` case: offer the payload to every member except its sender. */
  function Fanout(s: State, m: Message): (r: State)
    requires Inv(s)
    ensures Inv(r)
    ensures r.clients == s.clients && r.queues.Keys == s.queues.Keys
  {
    State(s.clients,
          map c | c in s.queues ::
            if c in s.clients && c != m.from then Offer(s.queues[c], m.data) else s.queues[c])
  }

  /**
   One receive by the writer of `c`: the oldest payload leaves its channel;
   an empty channel is left as it is (the writer waits, or its loop ends).
   */
  function Withdraw(s: State, c: Handle): (r: State)
    requires Inv(s) && c in s.queues
    ensures Inv(r)
    ensures r.clients == s.clients && r.queues.Keys == s.queues.Keys
  {
    s.(queues := s.queues[c := Receive(s.queues[c]).1])
  }

  /** One pass through the `select` of the hub's loop, or one receive by a writer. */
  function Step(s: State, e: Event): (r: State)
    requires Inv(s) && Admissible(s, e)
    ensures Inv(r)
    ensures r.queues.Keys == s.queues.Keys
  {
    match e
    case Register(c) => Admit(s, c)
    case Unregister(c) => Evict(s, c)
    case Broadcast(m) => Fanout(s, m)
    case Take(c) => Withdraw(s, c)
  }

  /** The hub processing `evs` in order; `None` if some `register` is not admissible. */
  function Run(s: State, evs: seq<Event>): (r: Option<State>)
    requires Inv(s)
    ensures r.Some? ==> Inv(r.value)
    ensures r.Some? ==> r.value.queues.Keys == s.queues.Keys
    decreases |evs|
  {
    if evs == [] then Some(s)
    else if !Admissible(s, evs[0]) then None
    else Run(Step(s, evs[0]), evs[1..])
  }

  // ---------------------------------------------------------------------
  // One event at a time

  /** Register puts the client in the set; doing it again changes nothing. */
  lemma RegisterAdds(s: State, c: Handle)
    requires Inv(s) && Admissible(s, Register(c))
    ensures Step(s, Register(c)).clients == s.clients + {c}
    ensures Step(s, Register(c)).queues == s.queues
    ensures c in s.clients ==> Step(s, Register(c)) == s
    ensures Step(Step(s, Register(c)), Register(c)) == Step(s, Register(c))
  {
  }

  /**
   Leaving removes a present client and closes its channel, and nothing else:
   other members and every other channel stay as they were.
   */
  lemma UnregisterPresent(s: State, c: Handle)
    requires Inv(s) && c in s.clients
    ensures Step(s, Unregister(c)).clients == s.clients - {c}
    ensures Step(s, Unregister(c)).queues[c] == Queue(s.queues[c].items, true)
    ensures forall d :: d in s.queues && d != c ==> Step(s, Unregister(c)).queues[d] == s.queues[d]
  {
  }

  /**
   Leaving when absent is a no-op, so leaving twice is leaving once and a
   channel is closed at most once: the close happens exactly when an open
   member leaves.
   */
  lemma UnregisterAbsent(s: State, c: Handle)
    requires Inv(s) && c !in s.clients
    ensures Step(s, Unregister(c)) == s
  {
  }

  lemma UnregisterIdempotent(s: State, c: Handle)
    requires Inv(s)
    ensures Step(Step(s, Unregister(c)), Unregister(c)) == Step(s, Unregister(c))
    ensures c in s.queues ==>
      (!s.queues[c].closed && Step(s, Unregister(c)).queues[c].closed <==> c in s.clients)
  {
  }

  /**
   Per destination, a broadcast: skips the sender, leaves non-members alone,
   appends the payload once behind what a member already buffers when there
   is room, and drops it for a member whose buffer is full; each member's
   outcome depends on its own buffer only.  Membership does not change.
   */
  lemma BroadcastDelivery(s: State, m: Message, c: Handle)
    requires Inv(s) && c in s.queues
    ensures Step(s, Broadcast(m)).clients == s.clients
    ensures c == m.from ==> Step(s, Broadcast(m)).queues[c] == s.queues[c]
    ensures c !in s.clients ==> Step(s, Broadcast(m)).queues[c] == s.queues[c]
    ensures c in s.clients && c != m.from && HasRoom(s.queues[c]) ==>
      Step(s, Broadcast(m)).queues[c] == Queue(s.queues[c].items + [m.data], false)
    ensures c in s.clients && c != m.from && !HasRoom(s.queues[c]) ==>
      Step(s, Broadcast(m)).queues[c] == s.queues[c]
  {
  }

  /** The only event that closes an open channel is that client's own `unregister`. */
  lemma StepKeepsOpen(s: State, e: Event, c: Handle)
    requires Inv(s) && Admissible(s, e)
    requires c in s.queues && !s.queues[c].closed && e != Unregister(c)
    ensures !Step(s, e).queues[c].closed
  {
  }

  // ---------------------------------------------------------------------
  // Whole runs

  /**
   The client sequences `handleConnections` produces: each client handed to
   `register` was made with an open channel and has not left before, and
   each writer receives from a client that was made.
   */
  predicate RegistersFreshClients(s: State, evs: seq<Event>) {
    && (forall i :: 0 <= i < |evs| && evs[i].Register? ==>
      && evs[i].client in s.queues
      && !s.queues[evs[i].client].closed
      && forall j :: 0 <= j < i ==> evs[j] != Unregister(evs[i].client))
    && (forall i :: 0 <= i < |evs| && evs[i].Take? ==> evs[i].client in s.queues)
  }

  /** Such runs are never stuck on an inadmissible `register`. */
  lemma {:induction false} RunDefined(s: State, evs: seq<Event>)
    requires Inv(s) && RegistersFreshClients(s, evs)
    ensures Run(s, evs).Some?
    decreases |evs|
  {
    if evs != [] {
      var t := Step(s, evs[0]);
      var rest := evs[1..];
      forall i | 0 <= i < |rest| && rest[i].Register?
        ensures rest[i].client in t.queues && !t.queues[rest[i].client].closed
      {
        assert evs[i + 1] == rest[i];
        StepKeepsOpen(s, evs[0], rest[i].client);
      }
      forall i | 0 <= i < |rest| && rest[i].Take?
        ensures rest[i].client in t.queues
      {
        assert evs[i + 1] == rest[i];
      }
      assert RegistersFreshClients(t, rest) by {
        forall i, j | 0 <= j < i < |rest| && rest[i].Register?
          ensures rest[j] != Unregister(rest[i].client)
        {
          assert evs[i + 1] == rest[i] && evs[j + 1] == rest[j];
        }
      }
      RunDefined(t, rest);
    }
  }

  /** What the latest `register` or `unregister` of `c` in `evs` says about its membership. */
  function LastVerdict(evs: seq<Event>, c: Handle): (r: Option<bool>)
    decreases |evs|
  {
    if evs == [] then None
    else
      match LastVerdict(evs[1..], c)
      case Some(b) => Some(b)
      case None =>
        if evs[0] == Register(c) then Some(true)
        else if evs[0] == Unregister(c) then Some(false)
        else None
  }

  /**
   Membership is decided by the latest `register`/`unregister` of a client,
   whatever broadcasts are interleaved, and by the starting set when there is none.
   */
  lemma {:induction false} MembershipFollowsLastVerdict(s: State, evs: seq<Event>, c: Handle)
    requires Inv(s) && Run(s, evs).Some?
    ensures c in Run(s, evs).value.clients <==>
      if LastVerdict(evs, c).Some? then LastVerdict(evs, c).value else c in s.clients
    decreases |evs|
  {
    if evs != [] {
      MembershipFollowsLastVerdict(Step(s, evs[0]), evs[1..], c);
    }
  }

  /** From an empty set, the members are exactly the clients registered and not since unregistered. */
  lemma MembersAreJoinedNotLeft(s: State, evs: seq<Event>)
    requires Inv(s) && s.clients == {} && Run(s, evs).Some?
    ensures forall c :: c in Run(s, evs).value.clients <==> LastVerdict(evs, c) == Some(true)
  {
    forall c ensures c in Run(s, evs).value.clients <==> LastVerdict(evs, c) == Some(true) {
      MembershipFollowsLastVerdict(s, evs, c);
    }
  }

  /** The payloads of the broadcasts in `evs` that `c` did not send, in order. */
  function Payloads(evs: seq<Event>, c: Handle): (r: seq<Payload>)
    decreases |evs|
  {
    if evs == [] then []
    else
      (if evs[0].Broadcast? && evs[0].msg.from != c then [evs[0].msg.data] else [])
      + Payloads(evs[1..], c)
  }

  /**
   What the writer of `c` receives during `evs`: the payload each of its
   `Take`s finds at the front of the channel, in order.
   */
  function Received(s: State, evs: seq<Event>, c: Handle): (r: seq<Payload>)
    requires Inv(s) && Run(s, evs).Some?
    decreases |evs|
  {
    if evs == [] then []
    else
      (if evs[0] == Take(c) && s.queues[c].items != [] then [s.queues[c].items[0]] else [])
      + Received(Step(s, evs[0]), evs[1..], c)
  }

  /**
   The payloads the hub puts into the channel of `c` during `evs`: those of
   the broadcasts by others that find `c` a member with room in its buffer.
   */
  function Delivered(s: State, evs: seq<Event>, c: Handle): (r: seq<Payload>)
    requires Inv(s) && Run(s, evs).Some?
    decreases |evs|
  {
    if evs == [] then []
    else
      (if evs[0].Broadcast? && evs[0].msg.from != c && c in s.clients && HasRoom(s.queues[c])
       then [evs[0].msg.data] else [])
      + Delivered(Step(s, evs[0]), evs[1..], c)
  }

  /** No broadcast by another client is dropped for `c` while `c` is a member. */
  predicate NoDrops(s: State, evs: seq<Event>, c: Handle)
    requires Inv(s) && Run(s, evs).Some?
    decreases |evs|
  {
    evs != [] ==>
      && (evs[0].Broadcast? && evs[0].msg.from != c && c in s.clients ==> HasRoom(s.queues[c]))
      && NoDrops(Step(s, evs[0]), evs[1..], c)
  }

  /** A run that is not stuck takes its first event and goes on from the resulting state. */
  lemma RunCons(s: State, evs: seq<Event>) returns (t: State)
    requires Inv(s) && evs != [] && Run(s, evs).Some?
    ensures Admissible(s, evs[0]) && t == Step(s, evs[0]) && Inv(t)
    ensures Run(t, evs[1..]) == Run(s, evs)
  {
    t := Step(s, evs[0]);
  }

  /** One step as seen by the channel of `c`. */
  lemma StepOnQueue(s: State, e: Event, c: Handle)
    requires Inv(s) && Admissible(s, e) && c in s.queues
    ensures c in s.clients && e != Unregister(c) ==> c in Step(s, e).clients
    ensures Step(s, e).queues[c].items ==
      if e == Take(c) then Receive(s.queues[c]).1.items
      else if e.Broadcast? && e.msg.from != c && c in s.clients && HasRoom(s.queues[c])
      then s.queues[c].items + [e.msg.data]
      else s.queues[c].items
  {
    if e.Broadcast? { BroadcastDelivery(s, e.msg, c); }
  }

  /**
   One step's account for the channel of `c`: what the writer receives in it,
   followed by the new buffer, is the old buffer followed by what the step delivers.
   */
  lemma StepBalance(s: State, e: Event, c: Handle)
    requires Inv(s) && Admissible(s, e) && c in s.queues
    ensures (if e == Take(c) && s.queues[c].items != [] then [s.queues[c].items[0]] else [])
      + Step(s, e).queues[c].items
      == s.queues[c].items
      + (if e.Broadcast? && e.msg.from != c && c in s.clients && HasRoom(s.queues[c]) then [e.msg.data] else [])
  {
    StepOnQueue(s, e, c);
  }

  /** Sequence algebra for chaining two such accounts. */
  lemma Chain<T>(g: seq<T>, q: seq<T>, q': seq<T>, head: seq<T>, got: seq<T>, buf: seq<T>, put: seq<T>)
    requires g + q' == q + head && got + buf == q' + put
    ensures (g + got) + buf == q + (head + put)
  {
    calc {
      (g + got) + buf;
      g + (got + buf);
      (g + q') + put;
      (q + head) + put;
    }
  }

  /**
   However the writer's receives interleave with the hub's events, nothing
   put into a channel is lost or reordered: what the writer has received,
   followed by what is still buffered, is the starting backlog followed by
   the delivered payloads.
   */
  lemma {:induction false} DeliveredInOrder(s: State, evs: seq<Event>, c: Handle, r: State)
    requires Inv(s) && c in s.queues && Run(s, evs) == Some(r)
    ensures Received(s, evs, c) + r.queues[c].items == s.queues[c].items + Delivered(s, evs, c)
    decreases |evs|
  {
    if evs != [] {
      var t := RunCons(s, evs);
      var q := s.queues[c].items;
      var g := if evs[0] == Take(c) && q != [] then [q[0]] else [];
      var head := if evs[0].Broadcast? && evs[0].msg.from != c && c in s.clients && HasRoom(s.queues[c])
        then [evs[0].msg.data] else [];
      assert Received(s, evs, c) == g + Received(t, evs[1..], c);
      assert Delivered(s, evs, c) == head + Delivered(t, evs[1..], c);
      StepBalance(s, evs[0], c);
      DeliveredInOrder(t, evs[1..], c, r);
      Chain(g, q, t.queues[c].items, head, Received(t, evs[1..], c), r.queues[c].items, Delivered(t, evs[1..], c));
    }
  }

  /** What a channel holds is never lost or reordered: it is received first or is still at the front. */
  lemma QueuedItemsStay(s: State, evs: seq<Event>, c: Handle)
    requires Inv(s) && c in s.queues && Run(s, evs).Some?
    ensures s.queues[c].items <= Received(s, evs, c) + Run(s, evs).value.queues[c].items
  {
    DeliveredInOrder(s, evs, c, Run(s, evs).value);
  }

  /** Without drops, a member that does not leave is delivered every other client's broadcast. */
  lemma {:induction false} NoDropsDeliversAll(s: State, evs: seq<Event>, c: Handle)
    requires Inv(s) && c in s.clients && Run(s, evs).Some?
    requires Unregister(c) !in evs && NoDrops(s, evs, c)
    ensures Delivered(s, evs, c) == Payloads(evs, c)
    decreases |evs|
  {
    if evs != [] {
      var t := RunCons(s, evs);
      StepOnQueue(s, evs[0], c);
      assert Unregister(c) !in evs[1..] by {
        forall i | 0 <= i < |evs[1..]| ensures evs[1..][i] != Unregister(c) {
          assert evs[1..][i] == evs[i + 1];
        }
      }
      NoDropsDeliversAll(t, evs[1..], c);
    }
  }

  /** A buffer with room for its backlog and every broadcast toward it drops nothing. */
  lemma {:induction false} RoomMeansNoDrops(s: State, evs: seq<Event>, c: Handle)
    requires Inv(s) && c in s.queues && Run(s, evs).Some?
    requires |s.queues[c].items| + |Payloads(evs, c)| <= CAPACITY
    ensures NoDrops(s, evs, c)
    decreases |evs|
  {
    if evs != [] {
      var t := RunCons(s, evs);
      StepOnQueue(s, evs[0], c);
      RoomMeansNoDrops(t, evs[1..], c);
    }
  }

  /**
   A member that does not leave, and for which nothing is dropped, gets
   behind its backlog the payloads of the others' broadcasts in the order
   the hub took them; its writer receives them in that order, while the hub
   runs and after.
   */
  lemma BroadcastsArriveInOrder(s: State, evs: seq<Event>, c: Handle, r: State)
    requires Inv(s) && c in s.clients && Run(s, evs) == Some(r)
    requires Unregister(c) !in evs && NoDrops(s, evs, c)
    ensures Received(s, evs, c) + r.queues[c].items == s.queues[c].items + Payloads(evs, c)
  {
    DeliveredInOrder(s, evs, c, r);
    NoDropsDeliversAll(s, evs, c);
  }

  /**
   With room for its backlog and all those payloads, the writer of such a
   member receives, during the run and then to the end of its channel, the
   backlog first and then the others' payloads in broadcast order.
   */
  lemma WriterSeesBroadcastOrder(s: State, evs: seq<Event>, c: Handle)
    requires Inv(s) && c in s.clients && Run(s, evs).Some?
    requires Unregister(c) !in evs
    requires |s.queues[c].items| + |Payloads(evs, c)| <= CAPACITY
    ensures Received(s, evs, c) + ReceiveAll(Run(s, evs).value.queues[c])
      == ReceiveAll(s.queues[c]) + Payloads(evs, c)
  {
    RoomMeansNoDrops(s, evs, c);
    BroadcastsArriveInOrder(s, evs, c, Run(s, evs).value);
    ReceiveAllIsFifo(s.queues[c]);
    ReceiveAllIsFifo(Run(s, evs).value.queues[c]);
  }
}
