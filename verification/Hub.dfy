/** The WebSocket hub: rooms of clients, their bounded queues, and what registering, leaving and broadcasting do to
    them. */
module Hub {
  import opened Uuids

  type Event = string

  const SEND_BUFFER_SIZE := 32

  /** One client's channel: the events nobody has read yet, and whether the hub has closed it. */
  datatype Channel = Channel(wallet: Uuid, waiting: seq<Event>, closed: bool)

  /** Sending on a closed channel, or closing one twice, panics. */
  datatype State<C> = State(rooms: map<Uuid, set<C>>, channels: map<C, Channel>, panicked: bool)

  function Room<C>(rooms: map<Uuid, set<C>>, w: Uuid): set<C> {
    if w in rooms then rooms[w] else {}
  }

  /** Everybody in some room. */
  function Members<C>(rooms: map<Uuid, set<C>>): set<C> {
    set w, c | w in rooms && c in rooms[w] :: c
  }

  function Registered<C>(s: State<C>, c: C): State<C>
    requires c in s.channels
  {
    var w := s.channels[c].wallet;
    s.(rooms := s.rooms[w := Room(s.rooms, w) + {c}])
  }

  /** A client that is in its room leaves it and its channel is closed; an emptied room goes. */
  function Unregistered<C>(s: State<C>, c: C): State<C>
    requires c in s.channels
  {
    var ch := s.channels[c];
    if c in Room(s.rooms, ch.wallet) then
      var rest := s.rooms[ch.wallet] - {c};
      State(if rest == {} then s.rooms - {ch.wallet} else s.rooms[ch.wallet := rest],
            s.channels[c := ch.(closed := true)], s.panicked || ch.closed)
    else s
  }

  /** A send that does not wait: a full buffer drops the event. */
  function Offered(ch: Channel, e: Event): Channel {
    if |ch.waiting| < SEND_BUFFER_SIZE then ch.(waiting := ch.waiting + [e]) else ch
  }

  /** One copied client after another is offered the event. The first that has been closed since panics and ends it. */
  function SendAll<C>(s: State<C>, targets: seq<C>, e: Event): State<C>
    requires forall c :: c in targets ==> c in s.channels
    decreases targets
  {
    if targets == [] then s
    else if s.channels[targets[0]].closed then s.(panicked := true)
    else SendAll(s.(channels := s.channels[targets[0] := Offered(s.channels[targets[0]], e)]), targets[1..], e)
  }

  /** Every client of a room is offered the event, once. */
  function Broadcasted<C>(s: State<C>, w: Uuid, e: Event): State<C> {
    var room := Room(s.rooms, w);
    s.(channels := map c | c in s.channels :: if c in room then Offered(s.channels[c], e) else s.channels[c])
  }

  lemma {:induction false} SendAllOpen<C>(s: State<C>, targets: seq<C>, e: Event)
    requires forall c :: c in targets ==> c in s.channels && !s.channels[c].closed
    requires forall i, j :: 0 <= i < j < |targets| ==> targets[i] != targets[j]
    ensures SendAll(s, targets, e)
            == s.(channels := map c | c in s.channels :: if c in targets then Offered(s.channels[c], e)
                else s.channels[c])
    decreases targets
  {
    if targets != [] {
      var t, rest := targets[0], targets[1..];
      assert forall c :: c in targets <==> c == t || c in rest;
      assert t !in rest;
      SendAllOpen(s.(channels := s.channels[t := Offered(s.channels[t], e)]), rest, e);
    }
  }

  // ---- the hub as it is written

  class Client {
    const wallet: Uuid
    var waiting: seq<Event>
    var closed: bool

    constructor (wallet: Uuid)
      ensures this.wallet == wallet && waiting == [] && !closed
    {
      this.wallet, waiting, closed := wallet, [], false;
    }

    /** Only an open channel can be sent on. */
    method Offer(e: Event)
      requires !closed
      modifies this
      ensures Channel(wallet, waiting, closed) == Offered(old(Channel(wallet, waiting, closed)), e)
    {
      if |waiting| < SEND_BUFFER_SIZE {
        waiting := waiting + [e];
      }
    }

    /** Only an open channel can be closed. */
    method Close()
      requires !closed
      modifies this
      ensures closed && waiting == old(waiting)
    {
      closed := true;
    }
  }

  class Hub {
    var rooms: map<Uuid, set<Client>>
    ghost var known: set<Client>

    ghost predicate Valid()
      reads this, known
    {
      forall w :: w in rooms ==> rooms[w] != {} && forall c :: c in rooms[w] ==>
          c in known && c.wallet == w && !c.closed
    }

    ghost function View(): State<Client>
      reads this, known
    {
      State(rooms, map c | c in known :: Channel(c.wallet, c.waiting, c.closed), false)
    }

    constructor (ghost known: set<Client>)
      ensures Valid() && this.known == known && rooms == map[]
    {
      this.known, rooms := known, map[];
    }

    /** Handled once a client, before its channel is closed. */
    method Register(c: Client)
      requires Valid() && c in known && !c.closed
      modifies this`rooms
      ensures Valid() && View() == Registered(old(View()), c)
    {
      if c.wallet !in rooms {
        rooms := rooms[c.wallet := {}];
      }
      rooms := rooms[c.wallet := rooms[c.wallet] + {c}];
    }

    /** A client that has left, or has not come yet, changes nothing. */
    method Unregister(c: Client)
      requires Valid() && c in known
      modifies this`rooms, c
      ensures Valid() && known == old(known) && View() == Unregistered(old(View()), c)
    {
      ghost var before := View();
      if c.wallet in rooms && c in rooms[c.wallet] {
        var rest := rooms[c.wallet] - {c};
        c.Close();
        rooms := if rest == {} then rooms - {c.wallet} else rooms[c.wallet := rest];
        assert View().channels == Unregistered(before, c).channels;
      } else {
        assert View() == before;
      }
    }

    /** The room's clients, in some order. Taken under the lock, which is released on return. */
    method CopyRoom(w: Uuid) returns (targets: seq<Client>)
      ensures forall c :: c in targets <==> c in Room(rooms, w)
      ensures forall i, j :: 0 <= i < j < |targets| ==> targets[i] != targets[j]
    {
      targets := [];
      var left := Room(rooms, w);
      while left != {}
        invariant left <= Room(rooms, w)
        invariant forall c :: c in targets <==> c in Room(rooms, w) && c !in left
        invariant forall i, j :: 0 <= i < j < |targets| ==> targets[i] != targets[j]
        decreases left
      {
        var c :| c in left;
        targets, left := targets + [c], left - {c};
      }
    }

    /** Runs without the lock: any of the copied clients may have been unregistered and closed by now. */
    method SendTo(targets: seq<Client>, e: Event) returns (panics: bool)
      requires forall c :: c in targets ==> c in known
      modifies set c | c in targets
      ensures known == old(known) && rooms == old(rooms)
      ensures View().(panicked := panics) == SendAll(old(View()), targets, e)
      ensures forall c :: c in known ==> c.closed == old(c.closed)
    {
      var i := 0;
      while i < |targets|
        invariant 0 <= i <= |targets| && known == old(known) && rooms == old(rooms)
        invariant SendAll(old(View()), targets, e) == SendAll(View(), targets[i..], e)
        invariant forall c :: c in known ==> c.closed == old(c.closed)
      {
        assert targets[i] in targets;
        if targets[i].closed {
          return true;
        }
        ghost var before := View();
        targets[i].Offer(e);
        assert View().channels == before.channels[targets[i] := Offered(before.channels[targets[i]], e)];
        i := i + 1;
      }
      panics := false;
    }

    /** When nothing runs between the copy and the sends, nothing panics and the room's clients are offered the
        event. */
    method Broadcast(w: Uuid, e: Event) returns (panics: bool)
      requires Valid()
      modifies Room(rooms, w)
      ensures Valid() && rooms == old(rooms) && known == old(known)
      ensures !panics && View() == Broadcasted(old(View()), w, e)
    {
      var targets := CopyRoom(w);
      SendAllOpen(View(), targets, e);
      panics := SendTo(targets, e);
    }

    /** The sizes of the rooms add up to the number of clients in them. */
    method ConnectedCount() returns (total: nat)
      requires Valid()
      ensures total == |Members(rooms)|
    {
      total := 0;
      var left := rooms.Keys;
      ghost var counted: set<Client> := {};
      while left != {}
        invariant left <= rooms.Keys
        invariant total == |counted|
        invariant forall c :: c in counted <==> exists w :: w in rooms && w !in left && c in rooms[w]
        decreases left
      {
        var w :| w in left;
        assert counted !! rooms[w];
        assert |counted + rooms[w]| == |counted| + |rooms[w]|;
        counted := counted + rooms[w];
        total := total + |rooms[w]|;
        left := left - {w};
      }
      assert counted == Members(rooms);
    }
  }
}
