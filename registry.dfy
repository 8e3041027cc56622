/**
 The hub as the object its goroutine updates in place: the shared
 `clients` map, and the `send` channel of every client made so far.  Each
 method is one case of the `select` in `broadcastToAll`, or the client side
 of a channel (making it, and the writer's receive loop).  Every method is
 specified by the matching case of `Events.Step`, so the lemmas there apply to it.
 */
module Relay {
  import opened Channel
  import opened Events

  class Registry {
    /** The members: the keys of the hub's `clients` map. */
    var clients: set<Handle>
    /** The `send` channel of every client made so far, member or not. */
    var queues: map<Handle, Queue>
    /** The next handle to hand out; handles are never reused. */
    var next: Handle

    predicate Valid()
      reads this
    {
      Inv(State(clients, queues)) && forall c :: c in queues ==> c < next
    }

    function Snapshot(): State
      reads this
    {
      State(clients, queues)
    }

    constructor ()
      ensures Valid() && clients == {} && queues == map[]
    {
      clients, queues, next := {}, map[], 0;
    }

    /** Making a client for a new connection: a fresh handle with an empty open channel. */
    method NewClient() returns (c: Handle)
      requires Valid()
      modifies this
      ensures Valid()
      ensures c !in old(queues) && queues == old(queues)[c := FRESH] && clients == old(clients)
    {
      c := next;
      queues := queues[c := FRESH];
      next := next + 1;
    }

    /** The `register` case: the client becomes a key of the map. */
    method Register(c: Handle)
      requires Valid() && c in queues && !queues[c].closed
      modifies this
      ensures Valid()
      ensures Snapshot() == Admit(old(Snapshot()), c)
      ensures next == old(next)
      ensures clients == old(clients) + {c} && queues == old(queues)
    {
      clients := clients + {c};
    }

    /** The `unregister` case: remove a present client and close its channel; otherwise nothing. */
    method Unregister(c: Handle)
      requires Valid()
      modifies this
      ensures Valid()
      ensures Snapshot() == Evict(old(Snapshot()), c)
      ensures next == old(next)
      ensures c in old(clients) ==>
        clients == old(clients) - {c} && queues == old(queues)[c := Queue(old(queues)[c].items, true)]
      ensures c !in old(clients) ==> clients == old(clients) && queues == old(queues)
    {
      if c in clients {
        clients := clients - {c};
        queues := queues[c := Close(queues[c])];
      }
    }

    /**
     The `broadcast` case: for every member other than the sender, a send
     that never blocks.  `dropped` holds the members for which the buffer was
     full and the payload was dropped (the "Send buffer full" diagnostic).
     */
    method Broadcast(m: Message) returns (dropped: set<Handle>)
      requires Valid()
      modifies this
      ensures Valid()
      ensures Snapshot() == Fanout(old(Snapshot()), m)
      ensures next == old(next)
      ensures clients == old(clients) && queues.Keys == old(queues).Keys
      ensures m.from in queues ==> queues[m.from] == old(queues)[m.from]
      ensures forall c :: c in queues && c in clients && c != m.from && HasRoom(old(queues)[c]) ==>
        queues[c].items == old(queues)[c].items + [m.data]
      ensures forall c :: c in queues && (c !in clients || c == m.from || !HasRoom(old(queues)[c])) ==>
        queues[c] == old(queues)[c]
      ensures dropped == set c | c in clients && c != m.from && !HasRoom(old(queues)[c])
    {
      ghost var s0 := Snapshot();
      ghost var done: set<Handle> := {};
      var todo := clients;
      dropped := {};
      while todo != {}
        invariant done + todo == clients == s0.clients && done !! todo
        invariant queues.Keys == s0.queues.Keys && next == old(next)
        invariant forall c :: c in queues ==>
          queues[c] == if c in done && c != m.from then Offer(s0.queues[c], m.data) else s0.queues[c]
        invariant forall c :: c in dropped <==> c in done && c != m.from && !HasRoom(s0.queues[c])
        decreases todo
      {
        EmptyIfNoMember(todo);
        var c :| c in todo;
        if c != m.from {
          if HasRoom(queues[c]) {
            queues := queues[c := Offer(queues[c], m.data)];
          } else {
            dropped := dropped + {c};
          }
        }
        todo, done := todo - {c}, done + {c};
      }
      ghost var r := Fanout(s0, m);
      assert forall c :: c in queues ==> queues[c] == r.queues[c];
      assert queues == r.queues;
      assert done == clients;
      assert forall c :: c in dropped <==> c in clients && c != m.from && !HasRoom(s0.queues[c]);
    }

    /** One receive of the writer's `range` loop over its client's channel: a `Take` step. */
    method Dequeue(c: Handle) returns (r: Recv)
      requires Valid() && c in queues
      modifies this
      ensures Valid()
      ensures Snapshot() == Withdraw(old(Snapshot()), c) && next == old(next)
      ensures clients == old(clients) && queues == old(queues)[c := Receive(old(queues)[c]).1]
      ensures r == Receive(old(queues)[c]).0
    {
      var got := Receive(queues[c]);
      r := got.0;
      queues := queues[c := got.1];
    }

    /**
     The writer's `range` loop over its client's channel, every write
     succeeding: it takes the buffered payloads front first until the buffer
     is empty, then ends if the channel is closed and waits otherwise.
     */
    method Drain(c: Handle) returns (written: seq<Payload>, ended: bool)
      requires Valid() && c in queues
      modifies this
      ensures Valid()
      ensures written == old(queues)[c].items == ReceiveAll(old(queues)[c])
      ensures clients == old(clients) && queues == old(queues)[c := Queue([], old(queues)[c].closed)]
      ensures ended == old(queues)[c].closed && next == old(next)
    {
      written := [];
      var got := Dequeue(c);
      while got.Value?
        invariant Valid() && c in queues && clients == old(clients) && next == old(next)
        invariant queues == old(queues)[c := queues[c]] && queues[c].closed == old(queues)[c].closed
        invariant old(queues)[c].items
          == written + (if got.Value? then [got.payload] else []) + queues[c].items
        invariant !got.Value? ==> queues[c].items == [] && (got.Ended? <==> queues[c].closed)
        decreases |queues[c].items| + (if got.Value? then 1 else 0)
      {
        written := written + [got.payload];
        got := Dequeue(c);
      }
      ended := got.Ended?;
      ReceiveAllIsFifo(old(queues)[c]);
    }
  }

  /** A set with no member is the empty set; this gives the loop over the members its next member. */
  lemma EmptyIfNoMember(s: set<Handle>)
    ensures (forall c :: c !in s) ==> s == {}
  {
    if forall c :: c !in s {
      assert s == {};
    }
  }

  /** Three clients join; the first broadcasts; the other two get the payload, the sender nothing. */
  method FanOutScenario() {
    var hub := new Registry();
    var a := hub.NewClient();
    hub.Register(a);
    var b := hub.NewClient();
    hub.Register(b);
    var c := hub.NewClient();
    hub.Register(c);
    var hi: Payload := [0x68, 0x69];
    var dropped := hub.Broadcast(Message(hi, a));
    assert hub.queues[b].items == [hi] && hub.queues[c].items == [hi];
    assert hub.queues[a].items == [] && dropped == {};
  }

  /** A client leaves twice; its channel is closed once, and later broadcasts skip it. */
  method LeaveScenario() {
    var hub := new Registry();
    var a := hub.NewClient();
    hub.Register(a);
    var b := hub.NewClient();
    hub.Register(b);
    var dropped := hub.Broadcast(Message([0x61], a));
    hub.Unregister(a);
    hub.Unregister(a);
    assert a !in hub.clients && hub.queues[a].closed;
    dropped := hub.Broadcast(Message([0x62], b));
    assert hub.queues[a].items == [] && hub.queues[b].items == [[0x61]];
    var written, ended := hub.Drain(a);
    assert ended && written == [];
  }

  /**
   One member's buffer is full: a broadcast is dropped for it and still
   reaches the member that has room.
   */
  method SaturationScenario() {
    var hub := new Registry();
    var a := hub.NewClient();
    hub.Register(a);
    var b := hub.NewClient();
    hub.Register(b);
    var c := hub.NewClient();
    hub.Register(c);
    var i := 0;
    while i < CAPACITY
      invariant 0 <= i <= CAPACITY && hub.Valid()
      invariant a in hub.clients && b in hub.clients && c in hub.clients && a != b && b != c && a != c
      invariant |hub.queues[b].items| == i
      modifies hub
    {
      var dropped := hub.Broadcast(Message([0x78], a));
      i := i + 1;
    }
    var written, ended := hub.Drain(c);
    ghost var backlog := hub.queues[b];
    var late: Payload := [0x79];
    var dropped := hub.Broadcast(Message(late, a));
    assert b in dropped && c !in dropped;
    assert hub.queues[b] == backlog && hub.queues[c].items == [late];
  }
}
