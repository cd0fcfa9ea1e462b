/**
 Any number of clients and broadcasts over one hub. A broadcast copies its room under the lock and sends afterwards,
 one client at a time, while others register, leave, read and broadcast.
 */
module HubRuns {
  import opened Uuids
  import opened Hub

  // ---- whole runs: any number of broadcasts, each a copy and then one send a client; each client registers once

  /** A broadcast under way: the copied clients it has not sent to yet. */
  datatype Cast = Cast(to: Uuid, event: Event, pending: set<nat>)

  /** A client's place in the log of broadcasts from when it registered, what it has read, and how many events it
      missed. */
  datatype Seat = Seat(from: nat, upto: nat, got: seq<Event>, missed: nat)

  /** `overlapped`: some broadcast began while another was under way. */
  datatype World = World(hub: State<nat>, joined: set<nat>, present: set<nat>, casts: seq<Cast>, seats: map<nat, Seat>,
      overlapped: bool)

  const EMPTY := World(State(map[], map[], false), {}, {}, [], map[], false)

  datatype Action =
    | Connect(client: nat, wallet: Uuid)
    | Register(c: nat)
    | Unregister(leaver: nat)
    | Copy(to: Uuid, event: Event)
    | Send(cast: nat, target: nat)
    | Read(reader: nat)

  predicate Enabled(w: World, a: Action) {
    match a
    case Connect(c, _) => c !in w.seats && c !in w.hub.channels
    case Register(c) => c in w.hub.channels && c in w.seats && c !in w.joined
    case Unregister(c) => c in w.hub.channels
    case Copy(_, _) => true
    case Send(b, c) => b < |w.casts| && c in w.casts[b].pending && c in w.hub.channels && c in w.seats
    case Read(c) => c in w.hub.channels && c in w.seats && w.hub.channels[c].waiting != []
  }

  predicate UnderWay(casts: seq<Cast>) { exists b :: 0 <= b < |casts| && casts[b].pending != {} }

  /** The copied clients have this event to come; to everybody else present it does not matter. */
  function Copied(w: World, to: Uuid, e: Event): World {
    var room := Room(w.hub.rooms, to);
    w.(casts := w.casts + [Cast(to, e, room)], overlapped := w.overlapped || UnderWay(w.casts),
       seats := map c | c in w.seats :: if c in w.present && c !in room then w.seats[c].(upto := |w.casts| + 1)
           else w.seats[c])
  }

  function Missed(w: World, c: nat): Seat
    requires c in w.seats
  {
    w.seats[c].(upto := |w.casts|, missed := w.seats[c].missed + 1)
  }

  /** A send to a closed channel panics: the goroutine ends, and the clients it had not come to miss the event. */
  function Crashed(w: World, b: nat): World
    requires b < |w.casts|
  {
    var lost := w.casts[b].pending * w.present;
    w.(hub := w.hub.(panicked := true), casts := w.casts[b := w.casts[b].(pending := {})],
       seats := map c | c in w.seats :: if c in lost then Missed(w, c) else w.seats[c])
  }

  function Sent(w: World, b: nat, c: nat): World
    requires Enabled(w, Send(b, c))
  {
    var ch := w.hub.channels[c];
    if ch.closed then Crashed(w, b)
    else
      w.(hub := w.hub.(channels := w.hub.channels[c := Offered(ch, w.casts[b].event)]),
         casts := w.casts[b := w.casts[b].(pending := w.casts[b].pending - {c})],
         seats := w.seats[c := if |ch.waiting| < SEND_BUFFER_SIZE then w.seats[c].(upto := |w.casts|)
             else Missed(w, c)])
  }

  function Do(w: World, a: Action): World
    requires Enabled(w, a)
  {
    match a
    case Connect(c, wallet) =>
      w.(hub := w.hub.(channels := w.hub.channels[c := Channel(wallet, [], false)]),
          seats := w.seats[c := Seat(0, 0, [], 0)])
    case Register(c) =>
      w.(hub := Registered(w.hub, c), joined := w.joined + {c}, present := w.present + {c},
         seats := w.seats[c := Seat(|w.casts|, |w.casts|, [], 0)])
    case Unregister(c) => w.(hub := Unregistered(w.hub, c), present := w.present - {c})
    case Copy(to, e) => Copied(w, to, e)
    case Send(b, c) => Sent(w, b, c)
    case Read(c) =>
      var ch := w.hub.channels[c];
      w.(hub := w.hub.(channels := w.hub.channels[c := ch.(waiting := ch.waiting[1..])]),
         seats := w.seats[c := w.seats[c].(got := w.seats[c].got + [ch.waiting[0]])])
  }

  function Step(w: World, a: Action): World {
    if Enabled(w, a) then Do(w, a) else w
  }

  function Run(trace: seq<Action>): World {
    if trace == [] then EMPTY else Step(Run(trace[..|trace| - 1]), trace[|trace| - 1])
  }

  /** The events broadcast to one wallet, in the order in which the broadcasts began. */
  function EventsFor(casts: seq<Cast>, w: Uuid): seq<Event> {
    if casts == [] then []
    else
      var last := casts[|casts| - 1];
      EventsFor(casts[..|casts| - 1], w) + if last.to == w then [last.event] else []
  }

  /** a is b with some events left out. */
  predicate InOrder(a: seq<Event>, b: seq<Event>) {
    a == [] || (b != []
        && (InOrder(a, b[..|b| - 1]) || (a[|a| - 1] == b[|b| - 1] && InOrder(a[..|a| - 1], b[..|b| - 1]))))
  }

  lemma InOrderSkip(a: seq<Event>, b: seq<Event>, x: Event)
    requires InOrder(a, b)
    ensures InOrder(a, b + [x])
  {
    assert (b + [x])[..|b + [x]| - 1] == b;
  }

  lemma InOrderBoth(a: seq<Event>, b: seq<Event>, x: Event)
    requires InOrder(a, b)
    ensures InOrder(a + [x], b + [x])
  {
    assert (b + [x])[..|b + [x]| - 1] == b && (a + [x])[..|a + [x]| - 1] == a;
  }

  lemma {:induction false} InOrderShorter(a: seq<Event>, b: seq<Event>)
    requires InOrder(a, b)
    ensures |a| <= |b| && (|a| == |b| ==> a == b)
    decreases |b|
  {
    if a != [] {
      var front := b[..|b| - 1];
      assert b == front + [b[|b| - 1]] && a == a[..|a| - 1] + [a[|a| - 1]];
      if InOrder(a, front) {
        InOrderShorter(a, front);
      } else {
        InOrderShorter(a[..|a| - 1], front);
      }
    }
  }

  /** Two lists of broadcasts of the same events to the same wallets. */
  predicate SameLog(x: seq<Cast>, y: seq<Cast>) {
    |x| == |y| && forall k :: 0 <= k < |x| ==> x[k].to == y[k].to && x[k].event == y[k].event
  }

  lemma {:induction false} SameLogSameEvents(x: seq<Cast>, y: seq<Cast>, w: Uuid)
    requires SameLog(x, y)
    ensures EventsFor(x, w) == EventsFor(y, w)
  {
    if x != [] {
      SameLogSameEvents(x[..|x| - 1], y[..|y| - 1], w);
    }
  }

  lemma EventsForGrow(casts: seq<Cast>, from: nat, w: Uuid)
    requires from < |casts|
    ensures EventsFor(casts[from..], w)
            == EventsFor(casts[from..|casts| - 1], w) + if casts[|casts| - 1].to == w then [casts[|casts| - 1].event]
                else []
  {
    var some := casts[from..];
    assert some[..|some| - 1] == casts[from..|casts| - 1];
  }

  // ---- the invariant: what holds whatever overlaps

  ghost predicate RoomsHold(s: State<nat>) {
    forall w :: w in s.rooms ==> s.rooms[w] != {} && forall c :: c in s.rooms[w] ==>
        c in s.channels && s.channels[c].wallet == w
  }

  ghost predicate PendingHold(w: World) {
    forall b, c :: 0 <= b < |w.casts| && c in w.casts[b].pending ==>
        c in w.joined && c in w.hub.channels && w.hub.channels[c].wallet == w.casts[b].to
  }

  ghost predicate Frame(w: World) {
    && RoomsHold(w.hub) && w.hub.channels.Keys == w.seats.Keys
    && w.present <= w.joined && w.joined <= w.hub.channels.Keys
  }

  ghost predicate ClientHolds(w: World, c: nat)
    requires c in w.hub.channels
  {
    var ch := w.hub.channels[c];
    && (c in w.present <==> c in Room(w.hub.rooms, ch.wallet)) && (c in w.present ==> c in w.joined)
    && (ch.closed <==> c in w.joined && c !in w.present)
    && (c !in w.joined ==> ch.waiting == []) && |ch.waiting| <= SEND_BUFFER_SIZE
  }

  ghost predicate Inv(w: World) {
    Frame(w) && PendingHold(w) && forall c :: c in w.hub.channels ==> ClientHolds(w, c)
  }

  /** A client is in the room an event goes to exactly when it is present and the event is for its wallet. */
  lemma InRoom(w: World, c: nat, to: Uuid)
    requires Inv(w) && c in w.hub.channels
    ensures c in Room(w.hub.rooms, to) <==> c in w.present && w.hub.channels[c].wallet == to
  {
    assert ClientHolds(w, c);
  }

  lemma RoomKnown(w: World, to: Uuid)
    requires Inv(w)
    ensures forall c :: c in Room(w.hub.rooms, to) ==>
        c in w.joined && c in w.hub.channels && w.hub.channels[c].wallet == to
  {
    forall c | c in Room(w.hub.rooms, to)
      ensures c in w.joined && c in w.hub.channels && w.hub.channels[c].wallet == to
    {
      InRoom(w, c, to);
      hide PendingHold;
    }
  }

  lemma ConnectClient(w: World, c: nat, wallet: Uuid, d: nat)
    requires Frame(w) && Enabled(w, Connect(c, wallet)) && (d == c || (d in w.hub.channels && ClientHolds(w, d)))
    ensures d in Do(w, Connect(c, wallet)).hub.channels && ClientHolds(Do(w, Connect(c, wallet)), d)
  {
    assert c !in Room(w.hub.rooms, wallet);
  }

  lemma ConnectFrame(w: World, c: nat, wallet: Uuid)
    requires Frame(w) && PendingHold(w) && Enabled(w, Connect(c, wallet))
    ensures var t := Do(w, Connect(c, wallet));
            Frame(t) && PendingHold(t) && t.hub.channels.Keys == w.hub.channels.Keys + {c}
  {
  }

  lemma ConnectKeeps(w: World, c: nat, wallet: Uuid)
    requires Inv(w) && Enabled(w, Connect(c, wallet))
    ensures Inv(Do(w, Connect(c, wallet)))
  {
    hide Frame, PendingHold, ClientHolds, Do;
    ConnectFrame(w, c, wallet);
    forall d | d in w.hub.channels.Keys + {c}
      ensures d in Do(w, Connect(c, wallet)).hub.channels && ClientHolds(Do(w, Connect(c, wallet)), d)
    {
      ConnectClient(w, c, wallet, d);
    }
  }

  lemma RegisterClient(w: World, c: nat, d: nat)
    requires Frame(w) && Enabled(w, Register(c)) && d in w.hub.channels && ClientHolds(w, c) && ClientHolds(w, d)
    ensures d in Do(w, Register(c)).hub.channels && ClientHolds(Do(w, Register(c)), d)
  {
  }

  lemma RegisterFrame(w: World, c: nat)
    requires Frame(w) && PendingHold(w) && Enabled(w, Register(c))
    ensures Frame(Do(w, Register(c))) && PendingHold(Do(w, Register(c)))
  {
  }

  lemma RegisterKeeps(w: World, c: nat)
    requires Inv(w) && Enabled(w, Register(c))
    ensures Inv(Do(w, Register(c)))
  {
    hide Frame, PendingHold, ClientHolds, Registered;
    forall d | d in w.hub.channels
      ensures d in Do(w, Register(c)).hub.channels && ClientHolds(Do(w, Register(c)), d)
    {
      RegisterClient(w, c, d);
    }
    RegisterFrame(w, c);
    assert Do(w, Register(c)).hub.channels == w.hub.channels by { ChannelsStay(w, c); }
  }

  lemma ChannelsStay(w: World, c: nat)
    requires Enabled(w, Register(c))
    ensures Do(w, Register(c)).hub.channels == w.hub.channels
  {
  }

  lemma UnregisterClient(w: World, c: nat, d: nat)
    requires Frame(w) && Enabled(w, Unregister(c)) && d in w.hub.channels && ClientHolds(w, c) && ClientHolds(w, d)
    ensures d in Do(w, Unregister(c)).hub.channels && ClientHolds(Do(w, Unregister(c)), d)
  {
  }

  /** A seated client's channel is open: closing it never panics. */
  lemma UnregisterFrame(w: World, c: nat)
    requires Frame(w) && PendingHold(w) && Enabled(w, Unregister(c)) && ClientHolds(w, c)
    ensures var t := Do(w, Unregister(c));
            Frame(t) && PendingHold(t) && t.hub.channels.Keys == w.hub.channels.Keys && t.hub.panicked == w.hub.panicked
  {
  }

  lemma UnregisterKeeps(w: World, c: nat)
    requires Inv(w) && Enabled(w, Unregister(c))
    ensures Inv(Do(w, Unregister(c)))
  {
    hide Frame, PendingHold, ClientHolds, Unregistered;
    forall d | d in w.hub.channels
      ensures d in Do(w, Unregister(c)).hub.channels && ClientHolds(Do(w, Unregister(c)), d)
    {
      UnregisterClient(w, c, d);
    }
    UnregisterFrame(w, c);
  }

  lemma CopyKeeps(w: World, to: Uuid, e: Event)
    requires Inv(w)
    ensures Inv(Copied(w, to, e))
  {
    RoomKnown(w, to);
    hide UnderWay, RoomsHold;
  }

  /** A step that moves only what waits in the queues of clients that have joined. */
  ghost predicate OnlyQueues(w: World, t: World) {
    && t.joined == w.joined && t.present == w.present && t.hub.rooms == w.hub.rooms
    && t.hub.channels.Keys == w.hub.channels.Keys && t.seats.Keys == w.seats.Keys
    && forall c :: c in w.hub.channels ==> SameSeat(w.hub.channels[c], t.hub.channels[c], c in w.joined)
  }

  predicate SameSeat(x: Channel, y: Channel, joined: bool) {
    y.wallet == x.wallet && y.closed == x.closed && |y.waiting| <= SEND_BUFFER_SIZE && (!joined ==> y.waiting == [])
  }

  lemma QueuesKeep(w: World, t: World)
    requires Inv(w) && OnlyQueues(w, t) && PendingHold(t)
    ensures Inv(t)
  {
    forall c | c in t.hub.channels
      ensures ClientHolds(t, c)
    {
      assert ClientHolds(w, c);
    }
    QueuesFrame(w, t);
    hide ClientHolds, Frame, PendingHold;
  }

  lemma QueuesFrame(w: World, t: World)
    requires Frame(w) && OnlyQueues(w, t)
    ensures Frame(t)
  {
    assert forall c :: c in w.hub.channels ==> t.hub.channels[c].wallet == w.hub.channels[c].wallet;
  }

  lemma SentView(w: World, b: nat, c: nat, d: nat)
    requires Enabled(w, Send(b, c)) && !w.hub.channels[c].closed && d in w.hub.channels && d in w.seats
    ensures var t := Sent(w, b, c);
            && d in t.hub.channels && d in t.seats && t.present == w.present
            && t.casts == w.casts[b := w.casts[b].(pending := w.casts[b].pending - {c})]
            && (d != c ==> t.hub.channels[d] == w.hub.channels[d] && t.seats[d] == w.seats[d])
            && t.hub.channels[c] == Offered(w.hub.channels[c], w.casts[b].event)
            && t.seats[c] == if |w.hub.channels[c].waiting| < SEND_BUFFER_SIZE then w.seats[c].(upto := |w.casts|)
                else Missed(w, c)
  {
    hide Offered, Missed;
  }

  lemma CrashedView(w: World, b: nat, d: nat)
    requires b < |w.casts| && d in w.hub.channels && d in w.seats
    ensures var t := Crashed(w, b);
            && d in t.seats && t.present == w.present && t.hub.channels == w.hub.channels
            && t.casts == w.casts[b := w.casts[b].(pending := {})]
            && t.seats[d] == if d in w.casts[b].pending && d in w.present then Missed(w, d) else w.seats[d]
  {
    hide Missed;
  }

  lemma QueueBound(w: World, d: nat)
    requires Inv(w) && d in w.hub.channels
    ensures d in w.seats && SameSeat(w.hub.channels[d], w.hub.channels[d], d in w.joined)
  {
    assert ClientHolds(w, d);
    hide PendingHold, RoomsHold, Room;
  }

  lemma SentChannel(w: World, b: nat, c: nat, d: nat)
    requires Inv(w) && Enabled(w, Send(b, c)) && d in w.hub.channels
    ensures var t := Sent(w, b, c); d in t.hub.channels && SameSeat(w.hub.channels[d], t.hub.channels[d], d in w.joined)
  {
    QueueBound(w, d);
    assert c in w.joined by { hide Frame, ClientHolds; }
    hide Inv, Missed;
  }

  lemma SentPending(w: World, b: nat, c: nat)
    requires PendingHold(w) && Enabled(w, Send(b, c))
    ensures var t := Sent(w, b, c);
            && PendingHold(t) && t.joined == w.joined && t.present == w.present && t.hub.rooms == w.hub.rooms
            && t.hub.channels.Keys == w.hub.channels.Keys && t.seats.Keys == w.seats.Keys
  {
    hide Missed;
  }

  lemma SentQueues(w: World, b: nat, c: nat)
    requires Inv(w) && Enabled(w, Send(b, c))
    ensures OnlyQueues(w, Sent(w, b, c)) && PendingHold(Sent(w, b, c))
  {
    var t := Sent(w, b, c);
    hide Frame, ClientHolds, PendingHold, Sent, SameSeat;
    SentPending(w, b, c);
    forall d | d in w.hub.channels
      ensures d in t.hub.channels && SameSeat(w.hub.channels[d], t.hub.channels[d], d in w.joined)
    {
      SentChannel(w, b, c, d);
    }
  }

  lemma SendKeeps(w: World, b: nat, c: nat)
    requires Inv(w) && Enabled(w, Send(b, c))
    ensures Inv(Sent(w, b, c))
  {
    hide Inv, Sent, OnlyQueues, PendingHold;
    SentQueues(w, b, c);
    QueuesKeep(w, Sent(w, b, c));
  }

  lemma ReadChannel(w: World, c: nat, d: nat)
    requires Inv(w) && Enabled(w, Read(c)) && d in w.hub.channels
    ensures var t := Do(w, Read(c));
            d in t.hub.channels && SameSeat(w.hub.channels[d], t.hub.channels[d], d in w.joined)
  {
    QueueBound(w, d);
    hide Inv;
  }

  lemma ReadPending(w: World, c: nat)
    requires PendingHold(w) && Enabled(w, Read(c))
    ensures var t := Do(w, Read(c));
            && PendingHold(t) && t.joined == w.joined && t.present == w.present && t.hub.rooms == w.hub.rooms
            && t.hub.channels.Keys == w.hub.channels.Keys && t.seats.Keys == w.seats.Keys
  {
  }

  lemma ReadQueues(w: World, c: nat)
    requires Inv(w) && Enabled(w, Read(c))
    ensures OnlyQueues(w, Do(w, Read(c))) && PendingHold(Do(w, Read(c)))
  {
    var t := Do(w, Read(c));
    hide Frame, ClientHolds, PendingHold, Do, SameSeat;
    ReadPending(w, c);
    forall d | d in w.hub.channels
      ensures d in t.hub.channels && SameSeat(w.hub.channels[d], t.hub.channels[d], d in w.joined)
    {
      ReadChannel(w, c, d);
    }
  }

  lemma ReadKeeps(w: World, c: nat)
    requires Inv(w) && Enabled(w, Read(c))
    ensures Inv(Do(w, Read(c)))
  {
    hide Inv, Do, OnlyQueues, PendingHold;
    ReadQueues(w, c);
    QueuesKeep(w, Do(w, Read(c)));
  }

  lemma StepKeepsInv(w: World, a: Action)
    requires Inv(w)
    ensures Inv(Step(w, a))
  {
    if Enabled(w, a) {
      match a
      case Connect(c, wallet) => hide Inv, Do; ConnectKeeps(w, c, wallet);
      case Register(c) => hide Inv, Do; RegisterKeeps(w, c);
      case Unregister(c) => hide Inv, Do; UnregisterKeeps(w, c);
      case Copy(to, e) => hide Inv, Copied; CopyKeeps(w, to, e);
      case Send(b, c) => hide Inv, Sent; SendKeeps(w, b, c);
      case Read(c) => hide Inv, Do; ReadKeeps(w, c);
    }
  }

  lemma {:induction false} RunKeepsInv(trace: seq<Action>)
    ensures Inv(Run(trace))
  {
    if trace != [] {
      RunKeepsInv(trace[..|trace| - 1]);
      hide Inv, Step;
      StepKeepsInv(Run(trace[..|trace| - 1]), trace[|trace| - 1]);
    }
  }

  // ---- the invariant of delivery: what holds while no two broadcasts overlap

  /** What a client has read and may still read is, in order, what was broadcast to its wallet since it registered, but
      for the events it missed. */
  ghost predicate Delivery(casts: seq<Cast>, ch: Channel, seat: Seat) {
    && seat.from <= seat.upto <= |casts|
    && InOrder(seat.got + ch.waiting, EventsFor(casts[seat.from..seat.upto], ch.wallet))
    && |EventsFor(casts[seat.from..seat.upto], ch.wallet)| == |seat.got + ch.waiting| + seat.missed
  }

  /** The latest broadcast has yet to send to this client. */
  predicate Awaits(casts: seq<Cast>, c: nat) { casts != [] && c in casts[|casts| - 1].pending }

  ghost predicate SeatHolds(w: World, c: nat)
    requires c in w.hub.channels && c in w.seats
  {
    && Delivery(w.casts, w.hub.channels[c], w.seats[c])
    && (c in w.present ==> w.seats[c].upto + (if Awaits(w.casts, c) then 1 else 0) == |w.casts|)
  }

  predicate OnlyLastUnderWay(casts: seq<Cast>) {
    forall b :: 0 <= b < |casts| - 1 ==> casts[b].pending == {}
  }

  ghost predicate Orderly(w: World) {
    !w.overlapped ==> OnlyLastUnderWay(w.casts) && forall c :: c in w.hub.channels ==> c in w.seats && SeatHolds(w, c)
  }

  lemma DeliveryInLog(x: seq<Cast>, y: seq<Cast>, ch: Channel, seat: Seat)
    requires Delivery(x, ch, seat) && |x| <= |y| && SameLog(x, y[..|x|])
    ensures Delivery(y, ch, seat)
  {
    SameLogSameEvents(x[seat.from..seat.upto], y[seat.from..seat.upto], ch.wallet);
    hide InOrder, EventsFor;
  }

  /** A broadcast to another wallet can be counted in. */
  lemma DeliverySkips(casts: seq<Cast>, ch: Channel, seat: Seat)
    requires Delivery(casts, ch, seat) && seat.upto + 1 == |casts| && casts[seat.upto].to != ch.wallet
    ensures Delivery(casts, ch, seat.(upto := |casts|))
  {
    EventsForGrow(casts, seat.from, ch.wallet);
    assert EventsFor(casts[seat.from..seat.upto], ch.wallet) + [] == EventsFor(casts[seat.from..seat.upto], ch.wallet);
    assert casts[seat.from..] == casts[seat.from..|casts|];
    hide InOrder, EventsFor;
  }

  /** The awaited event arrives, or is missed. */
  lemma DeliveryGrows(casts: seq<Cast>, ch: Channel, seat: Seat, arrives: bool)
    requires Delivery(casts, ch, seat) && seat.upto + 1 == |casts| && casts[seat.upto].to == ch.wallet
    ensures var last := casts[seat.upto];
            Delivery(casts, if arrives then ch.(waiting := ch.waiting + [last.event]) else ch,
                     seat.(upto := |casts|, missed := seat.missed + if arrives then 0 else 1))
  {
    var e, heard := casts[seat.upto].event, EventsFor(casts[seat.from..seat.upto], ch.wallet);
    EventsForGrow(casts, seat.from, ch.wallet);
    assert casts[seat.from..] == casts[seat.from..|casts|];
    if arrives {
      InOrderBoth(seat.got + ch.waiting, heard, e);
      assert seat.got + ch.waiting + [e] == seat.got + (ch.waiting + [e]);
    } else {
      InOrderSkip(seat.got + ch.waiting, heard, e);
    }
    hide InOrder, EventsFor;
  }

  lemma SeatAt(w: World, d: nat)
    requires Orderly(w) && !w.overlapped && d in w.hub.channels
    ensures OnlyLastUnderWay(w.casts) && d in w.seats && SeatHolds(w, d)
  {
    hide SeatHolds, OnlyLastUnderWay;
  }

  lemma CopyView(w: World, to: Uuid, e: Event, d: nat)
    requires d in w.hub.channels && d in w.seats
    ensures var t := Copied(w, to, e);
            && t.hub == w.hub && t.present == w.present && d in t.seats
                && t.casts == w.casts + [Cast(to, e, Room(w.hub.rooms, to))]
            && t.seats[d]
                == (if d in w.present && d !in Room(w.hub.rooms, to) then w.seats[d].(upto := |w.casts| + 1)
                else w.seats[d])
            && (!t.overlapped ==> !w.overlapped && !UnderWay(w.casts))
  {
    hide Room, UnderWay;
  }

  lemma CopySeat(w: World, to: Uuid, e: Event, d: nat)
    requires Inv(w) && Orderly(w) && !Copied(w, to, e).overlapped && d in w.hub.channels
    ensures d in Copied(w, to, e).seats && SeatHolds(Copied(w, to, e), d)
  {
    hide Inv, Orderly, Copied, Delivery, Room;
    InRoom(w, d, to);
    assert d in w.seats by { SeatsKnown(w, d); }
    CopyView(w, to, e, d);
    SeatAt(w, d);
    assert !Awaits(w.casts, d);
    var ch, seat, casts := w.hub.channels[d], w.seats[d], w.casts + [Cast(to, e, Room(w.hub.rooms, to))];
    assert SameLog(w.casts, casts[..|w.casts|]);
    DeliveryInLog(w.casts, casts, ch, seat);
    if d in w.present && ch.wallet != to {
      DeliverySkips(casts, ch, seat);
    }
  }

  lemma SeatsKnown(w: World, d: nat)
    requires Inv(w) && d in w.hub.channels
    ensures d in w.seats
  {
    hide PendingHold, ClientHolds, RoomsHold;
  }

  lemma CopyOrderly(w: World, to: Uuid, e: Event)
    requires Inv(w) && Orderly(w)
    ensures Orderly(Copied(w, to, e))
  {
    var t := Copied(w, to, e);
    if !t.overlapped {
      forall d | d in t.hub.channels
        ensures d in t.seats && SeatHolds(t, d)
      {
        CopySeat(w, to, e, d);
      }
    }
    hide SeatHolds, Inv;
  }

  /** While nothing overlaps, a pending send belongs to the latest broadcast, and its open target awaits it. */
  lemma SendIsLast(w: World, b: nat, c: nat)
    requires Inv(w) && Orderly(w) && !w.overlapped && Enabled(w, Send(b, c))
    ensures b == |w.casts| - 1 && w.hub.channels[c].wallet == w.casts[b].to && SeatHolds(w, c)
    ensures c in w.present <==> !w.hub.channels[c].closed
    ensures c in w.present ==> w.seats[c].upto == b
  {
    hide Delivery, Do, Frame, SeatHolds, Orderly;
    SeatAt(w, c);
    assert ClientHolds(w, c) && Awaits(w.casts, c);
    hide Inv, PendingHold, ClientHolds, OnlyLastUnderWay;
    AwaitedSeat(w, c);
  }

  lemma AwaitedSeat(w: World, c: nat)
    requires c in w.hub.channels && c in w.seats && SeatHolds(w, c) && Awaits(w.casts, c)
    ensures c in w.present ==> w.seats[c].upto == |w.casts| - 1
  {
    hide Delivery;
  }

  lemma SentSeat(w: World, b: nat, c: nat, d: nat)
    requires Inv(w) && Orderly(w) && !w.overlapped && Enabled(w, Send(b, c)) && !w.hub.channels[c].closed
    requires d in w.hub.channels
    ensures var t := Sent(w, b, c); d in t.hub.channels && d in t.seats && SeatHolds(t, d)
  {
    hide Inv, Orderly, Delivery, Sent, OnlyLastUnderWay;
    SendIsLast(w, b, c);
    SeatAt(w, d);
    SentView(w, b, c, d);
    var t := Sent(w, b, c);
    if d == c {
      DeliveryGrows(w.casts, w.hub.channels[c], w.seats[c], |w.hub.channels[c].waiting| < SEND_BUFFER_SIZE);
    }
    assert SameLog(w.casts, t.casts[..|w.casts|]);
    DeliveryInLog(w.casts, t.casts, t.hub.channels[d], t.seats[d]);
  }

  lemma CrashedSeat(w: World, b: nat, c: nat, d: nat)
    requires Inv(w) && Orderly(w) && !w.overlapped && Enabled(w, Send(b, c)) && d in w.hub.channels
    ensures var t := Crashed(w, b); d in t.hub.channels && d in t.seats && SeatHolds(t, d)
  {
    hide Inv, Orderly, Delivery, Crashed, OnlyLastUnderWay;
    SendIsLast(w, b, c);
    SeatAt(w, d);
    CrashedView(w, b, d);
    var t := Crashed(w, b);
    if d in w.casts[b].pending && d in w.present {
      SendIsLast(w, b, d);
      DeliveryGrows(w.casts, w.hub.channels[d], w.seats[d], false);
    }
    assert SameLog(w.casts, t.casts[..|w.casts|]);
    DeliveryInLog(w.casts, t.casts, t.hub.channels[d], t.seats[d]);
  }

  lemma SendOthers(w: World, b: nat, c: nat)
    requires Enabled(w, Send(b, c))
    ensures var t := Sent(w, b, c);
            && t.overlapped == w.overlapped && t.hub.channels.Keys == w.hub.channels.Keys
            && (OnlyLastUnderWay(w.casts) ==> OnlyLastUnderWay(t.casts))
            && (w.hub.channels[c].closed ==> t == Crashed(w, b))
  {
    hide Missed, Offered;
  }

  lemma SendOrderly(w: World, b: nat, c: nat)
    requires Inv(w) && Orderly(w) && Enabled(w, Send(b, c))
    ensures Orderly(Sent(w, b, c))
  {
    var t := Sent(w, b, c);
    SendOthers(w, b, c);
    hide SeatHolds, Inv, Sent, Crashed, OnlyLastUnderWay;
    if !w.overlapped {
      forall d | d in w.hub.channels
        ensures d in t.hub.channels && d in t.seats && SeatHolds(t, d)
      {
        if w.hub.channels[c].closed { CrashedSeat(w, b, c, d); } else { SentSeat(w, b, c, d); }
      }
      SeatAt(w, c);
    }
  }

  lemma RestOrderly(w: World, a: Action)
    requires Inv(w) && Orderly(w) && Enabled(w, a) && !a.Copy? && !a.Send?
    ensures Orderly(Do(w, a))
  {
    var t := Do(w, a);
    hide Inv, SeatHolds, Registered, Unregistered;
    if !w.overlapped {
      forall d | d in t.hub.channels
        ensures d in t.seats && SeatHolds(t, d)
      {
        RestSeat(w, a, d);
      }
    }
  }

  lemma RestSeat(w: World, a: Action, d: nat)
    requires Inv(w) && Orderly(w) && !w.overlapped && Enabled(w, a) && !a.Copy? && !a.Send?
    requires d in Do(w, a).hub.channels
    ensures d in Do(w, a).seats && SeatHolds(Do(w, a), d)
  {
    var t := Do(w, a);
    assert t.casts == w.casts;
    if a.Connect? && d == a.client {
      FreshSeat(w.casts, t.hub.channels[d], 0);
      ConnectAbsent(w, d);
    } else if a.Register? && d == a.c {
      FreshSeat(w.casts, t.hub.channels[d], |w.casts|);
      NotAwaited(w, d);
    } else {
      assert d in w.hub.channels;
      assert SeatHolds(w, d);
      hide Inv, Orderly;
      if a.Read? && d == a.reader {
        ReadDelivery(w.casts, w.hub.channels[d], w.seats[d]);
      }
      OtherSeat(w, a, d);
      hide Do;
      assert Delivery(t.casts, t.hub.channels[d], t.seats[d]) by {
        if a.Unregister? { ClosedDelivery(w.casts, w.hub.channels[d], w.seats[d]); }
        hide Delivery;
      }
    }
    hide Delivery, Inv, Orderly;
  }

  /** What a step without a broadcast does to a client that is neither connecting nor registering. */
  lemma OtherSeat(w: World, a: Action, d: nat)
    requires Enabled(w, a) && !a.Copy? && !a.Send? && d in w.hub.channels && d in w.seats
    requires !(a.Connect? && d == a.client) && !(a.Register? && d == a.c)
    ensures var t := Do(w, a);
            && d in t.hub.channels && d in t.seats && t.casts == w.casts && (d in t.present ==> d in w.present)
            && t.seats[d].upto == w.seats[d].upto
            && (if a.Read? && d == a.reader then
                  && t.hub.channels[d] == w.hub.channels[d].(waiting := w.hub.channels[d].waiting[1..])
                  && t.seats[d] == w.seats[d].(got := w.seats[d].got + [w.hub.channels[d].waiting[0]])
                else
                  && t.seats[d] == w.seats[d]
                  && (t.hub.channels[d] == w.hub.channels[d]
                      || (a.Unregister? && t.hub.channels[d] == w.hub.channels[d].(closed := true))))
  {
  }

  lemma FreshSeat(casts: seq<Cast>, ch: Channel, n: nat)
    requires ch.waiting == [] && n <= |casts|
    ensures Delivery(casts, ch, Seat(n, n, [], 0))
  {
  }

  lemma ConnectAbsent(w: World, c: nat)
    requires Inv(w) && c !in w.hub.channels
    ensures c !in w.present
  {
    hide ClientHolds, PendingHold, RoomsHold;
  }

  lemma NotAwaited(w: World, c: nat)
    requires Inv(w) && Enabled(w, Register(c))
    ensures !Awaits(w.casts, c) && w.hub.channels[c].waiting == []
  {
    assert ClientHolds(w, c);
  }

  lemma ReadDelivery(casts: seq<Cast>, ch: Channel, seat: Seat)
    requires Delivery(casts, ch, seat) && ch.waiting != []
    ensures Delivery(casts, ch.(waiting := ch.waiting[1..]), seat.(got := seat.got + [ch.waiting[0]]))
  {
    assert seat.got + [ch.waiting[0]] + ch.waiting[1..] == seat.got + ch.waiting;
    hide InOrder, EventsFor;
  }

  lemma ClosedDelivery(casts: seq<Cast>, ch: Channel, seat: Seat)
    requires Delivery(casts, ch, seat)
    ensures Delivery(casts, ch.(closed := true), seat)
  {
  }

  lemma StepKeepsOrderly(w: World, a: Action)
    requires Inv(w) && Orderly(w)
    ensures Orderly(Step(w, a))
  {
    if Enabled(w, a) {
      match a
      case Copy(to, e) => hide Inv, Orderly, Copied; CopyOrderly(w, to, e);
      case Send(b, c) => hide Inv, Orderly, Sent; SendOrderly(w, b, c);
      case _ => hide Inv, Orderly, Do; RestOrderly(w, a);
    }
  }

  lemma {:induction false} RunKeepsOrderly(trace: seq<Action>)
    ensures Orderly(Run(trace))
  {
    if trace != [] {
      RunKeepsOrderly(trace[..|trace| - 1]);
      RunKeepsInv(trace[..|trace| - 1]);
      hide Inv, Orderly, Step;
      StepKeepsOrderly(Run(trace[..|trace| - 1]), trace[|trace| - 1]);
    }
  }

  // ---- the method's sends are the machine's

  function Sends(b: nat, targets: seq<nat>): seq<Action> {
    seq(|targets|, k requires 0 <= k < |targets| => Send(b, targets[k]))
  }

  function RunFrom(w: World, trace: seq<Action>): World
    decreases trace
  {
    if trace == [] then w else RunFrom(Step(w, trace[0]), trace[1..])
  }

  lemma {:induction false} NothingPending(w: World, b: nat, targets: seq<nat>)
    requires b < |w.casts| && w.casts[b].pending == {}
    ensures RunFrom(w, Sends(b, targets)) == w
  {
    if targets != [] {
      assert Sends(b, targets)[1..] == Sends(b, targets[1..]);
      NothingPending(w, b, targets[1..]);
    }
  }

  /** The loop over copied clients is one send step after another, up to the panic if there is one. */
  lemma {:induction false} SendAllIsSends(w: World, b: nat, targets: seq<nat>)
    requires b < |w.casts| && forall c :: c in targets ==>
        c in w.casts[b].pending && c in w.hub.channels && c in w.seats
    requires forall i, j :: 0 <= i < j < |targets| ==> targets[i] != targets[j]
    ensures RunFrom(w, Sends(b, targets)).hub.rooms == w.hub.rooms
    ensures RunFrom(w, Sends(b, targets)).hub == SendAll(w.hub, targets, w.casts[b].event)
    decreases |targets|
  {
    if targets != [] {
      var t, rest := targets[0], targets[1..];
      var next := Step(w, Send(b, t));
      assert t in targets && forall c :: c in rest ==> c in targets && c != t;
      assert Sends(b, targets)[0] == Send(b, t) && Sends(b, targets)[1..] == Sends(b, rest);
      if w.hub.channels[t].closed {
        NothingPending(next, b, rest);
      } else {
        SendAllIsSends(next, b, rest);
      }
    }
  }

  // ---- what holds in every reachable state

  /** Whatever overlaps: no room is empty, the rooms hold exactly the clients that registered and have not left, and a
      channel is closed exactly when its client has left. */
  lemma {:induction false} HubIsSound(trace: seq<Action>)
    ensures var w := Run(trace);
            && (forall r :: r in w.hub.rooms ==> w.hub.rooms[r] != {})
            && Members(w.hub.rooms) == w.present
            && forall c :: c in w.hub.channels ==> (w.hub.channels[c].closed <==> c in w.joined && c !in w.present)
  {
    RunKeepsInv(trace);
    var w := Run(trace);
    hide Run, PendingHold;
    forall c | c in w.hub.channels
      ensures c in Members(w.hub.rooms) <==> c in w.present
      ensures w.hub.channels[c].closed <==> c in w.joined && c !in w.present
    {
      assert ClientHolds(w, c);
      InRoom(w, c, w.hub.channels[c].wallet);
    }
  }

  /** The step at position i closes this client's channel. */
  predicate Closes(trace: seq<Action>, i: nat, c: nat) {
    i < |trace| && trace[i] == Unregister(c) && c in Run(trace[..i]).present
  }

  lemma StepKeepsClosed(w: World, a: Action, c: nat)
    requires c in w.hub.channels
    ensures c in Step(w, a).hub.channels
    ensures w.hub.channels[c].closed ==> Step(w, a).hub.channels[c].closed
    ensures !w.hub.channels[c].closed && Step(w, a).hub.channels[c].closed ==>
              a == Unregister(c) && c in Room(w.hub.rooms, w.hub.channels[c].wallet)
  {
    hide Missed;
  }

  lemma NextRun(trace: seq<Action>, i: nat)
    requires i < |trace|
    ensures Run(trace[..i + 1]) == Step(Run(trace[..i]), trace[i])
  {
    assert trace[..i + 1][..i] == trace[..i];
  }

  lemma {:induction false} ClosedStays(trace: seq<Action>, i: nat, j: nat, c: nat)
    requires i <= j <= |trace| && c in Run(trace[..i]).hub.channels
    ensures c in Run(trace[..j]).hub.channels
    ensures Run(trace[..i]).hub.channels[c].closed ==> Run(trace[..j]).hub.channels[c].closed
    decreases j
  {
    if i < j {
      ClosedStays(trace, i, j - 1, c);
      NextRun(trace, j - 1);
      hide Run, Step;
      StepKeepsClosed(Run(trace[..j - 1]), trace[j - 1], c);
    }
  }

  lemma ClosesCloses(trace: seq<Action>, i: nat, c: nat)
    requires Closes(trace, i, c)
    ensures c in Run(trace[..i]).hub.channels && !Run(trace[..i]).hub.channels[c].closed
    ensures c in Run(trace[..i + 1]).hub.channels && Run(trace[..i + 1]).hub.channels[c].closed
  {
    RunKeepsInv(trace[..i]);
    NextRun(trace, i);
    var w := Run(trace[..i]);
    hide Run;
    assert c in w.hub.channels && ClientHolds(w, c);
    hide PendingHold, RoomsHold;
  }

  /** Whatever overlaps: a channel is closed at most once. */
  lemma {:induction false} ClosedAtMostOnce(trace: seq<Action>, i: nat, j: nat, c: nat)
    requires Closes(trace, i, c) && Closes(trace, j, c)
    ensures i == j
  {
    ClosesCloses(trace, i, c);
    ClosesCloses(trace, j, c);
    hide Run;
    if i < j {
      ClosedStays(trace, i + 1, j, c);
    } else if j < i {
      ClosedStays(trace, j + 1, i, c);
    }
  }

  // ---- exactly when a send panics

  /** The broadcast copied at position i still had client c to send to when c's channel was closed at position j, and
      came to it at position k. */
  predicate Interrupts(trace: seq<Action>, c: nat, b: nat, i: nat, j: nat, k: nat) {
    && i < j < k < |trace|
    && trace[i].Copy? && |Run(trace[..i]).casts| == b && c in Room(Run(trace[..i]).hub.rooms, trace[i].to)
    && Closes(trace, j, c)
    && trace[k] == Send(b, c) && Enabled(Run(trace[..k]), trace[k])
  }

  lemma StepPanics(w: World, a: Action)
    requires Inv(w)
    ensures Step(w, a).hub.panicked <==>
              w.hub.panicked || (a.Send? && Enabled(w, a) && w.hub.channels[a.target].closed)
  {
    hide Missed, Room;
    if Enabled(w, a) && a.Unregister? {
      assert ClientHolds(w, a.leaver);
      hide Frame, PendingHold;
    }
  }

  lemma StepCasts(w: World, a: Action)
    ensures |w.casts| <= |Step(w, a).casts|
    ensures forall b :: 0 <= b < |w.casts| ==> Step(w, a).casts[b].pending <= w.casts[b].pending
    ensures |w.casts| < |Step(w, a).casts| ==>
              a.Copy? && |Step(w, a).casts| == |w.casts| + 1
                  && Step(w, a).casts[|w.casts|].pending == Room(w.hub.rooms, a.to)
  {
    hide Missed, Registered, Unregistered, Room, Offered;
  }

  /** A pending client was in the room its broadcast copied. */
  lemma {:induction false} CopyOf(trace: seq<Action>, k: nat, b: nat, c: nat) returns (i: nat)
    requires k <= |trace| && b < |Run(trace[..k]).casts| && c in Run(trace[..k]).casts[b].pending
    ensures i < k && trace[i].Copy? && |Run(trace[..i]).casts| == b && c in Room(Run(trace[..i]).hub.rooms, trace[i].to)
    decreases k
  {
    assert trace[..0] == [];
    if k > 0 {
      NextRun(trace, k - 1);
      var w := Run(trace[..k - 1]);
      hide Run, Step, Room;
      StepCasts(w, trace[k - 1]);
      if b < |w.casts| {
        i := CopyOf(trace, k - 1, b, c);
      } else {
        i := k - 1;
      }
    }
  }

  /** A channel that was open and is closed was closed in between. */
  lemma {:induction false} ClosedBetween(trace: seq<Action>, i: nat, k: nat, c: nat) returns (j: nat)
    requires i <= k <= |trace| && c in Run(trace[..i]).hub.channels && !Run(trace[..i]).hub.channels[c].closed
    requires c in Run(trace[..k]).hub.channels && Run(trace[..k]).hub.channels[c].closed
    ensures i <= j < k && Closes(trace, j, c)
    decreases k
  {
    hide Run, Step, Closes;
    ClosedStays(trace, i, k - 1, c);
    if Run(trace[..k - 1]).hub.channels[c].closed {
      j := ClosedBetween(trace, i, k - 1, c);
    } else {
      j := k - 1;
      ClosingStep(trace, j, c);
    }
  }

  lemma ClosingStep(trace: seq<Action>, j: nat, c: nat)
    requires j < |trace| && c in Run(trace[..j]).hub.channels && !Run(trace[..j]).hub.channels[c].closed
    requires c in Run(trace[..j + 1]).hub.channels && Run(trace[..j + 1]).hub.channels[c].closed
    ensures Closes(trace, j, c)
  {
    NextRun(trace, j);
    RunKeepsInv(trace[..j]);
    hide Run, Step, Inv, Room;
    StepKeepsClosed(Run(trace[..j]), trace[j], c);
    InRoom(Run(trace[..j]), c, Run(trace[..j]).hub.channels[c].wallet);
  }

  lemma OpenWhenCopied(trace: seq<Action>, i: nat, c: nat)
    requires i < |trace| && trace[i].Copy? && c in Room(Run(trace[..i]).hub.rooms, trace[i].to)
    ensures c in Run(trace[..i]).hub.channels && !Run(trace[..i]).hub.channels[c].closed
    ensures c in Run(trace[..i + 1]).hub.channels && !Run(trace[..i + 1]).hub.channels[c].closed
  {
    RunKeepsInv(trace[..i]);
    NextRun(trace, i);
    var w := Run(trace[..i]);
    hide Run;
    RoomKnown(w, trace[i].to);
    InRoom(w, c, trace[i].to);
    assert ClientHolds(w, c);
    hide Inv, Frame;
  }

  lemma PanicHasCause(trace: seq<Action>, k: nat) returns (c: nat, b: nat, i: nat, j: nat)
    requires k < |trace| && trace[k].Send? && Enabled(Run(trace[..k]), trace[k])
    requires Run(trace[..k]).hub.channels[trace[k].target].closed
    ensures Interrupts(trace, c, b, i, j, k)
  {
    c, b := trace[k].target, trace[k].cast;
    hide Run;
    i := CopyOf(trace, k, b, c);
    OpenWhenCopied(trace, i, c);
    j := ClosedBetween(trace, i + 1, k, c);
  }

  lemma {:induction false} PanicStays(trace: seq<Action>, k: nat)
    requires k <= |trace| && Run(trace[..k]).hub.panicked
    ensures Run(trace).hub.panicked
    decreases |trace| - k
  {
    if k == |trace| {
      assert trace[..k] == trace;
    } else {
      NextRun(trace, k);
      RunKeepsInv(trace[..k]);
      StepPanics(Run(trace[..k]), trace[k]);
      hide Run, Step, Inv;
      PanicStays(trace, k + 1);
    }
  }

  lemma CausePanics(trace: seq<Action>, c: nat, b: nat, i: nat, j: nat, k: nat)
    requires Interrupts(trace, c, b, i, j, k)
    ensures Run(trace).hub.panicked
  {
    ClosesCloses(trace, j, c);
    ClosedStays(trace, j + 1, k, c);
    RunKeepsInv(trace[..k]);
    StepPanics(Run(trace[..k]), trace[k]);
    NextRun(trace, k);
    hide Run, Step, Inv;
    PanicStays(trace, k + 1);
  }

  lemma {:induction false} FirstPanic(trace: seq<Action>, n: nat) returns (k: nat)
    requires n <= |trace| && Run(trace[..n]).hub.panicked
    ensures k < n && trace[k].Send? && Enabled(Run(trace[..k]), trace[k])
        && Run(trace[..k]).hub.channels[trace[k].target].closed
    decreases n
  {
    assert trace[..0] == [];
    if n > 0 {
      NextRun(trace, n - 1);
      RunKeepsInv(trace[..n - 1]);
      StepPanics(Run(trace[..n - 1]), trace[n - 1]);
      hide Run, Step, Inv, Enabled;
      if Run(trace[..n - 1]).hub.panicked {
        k := FirstPanic(trace, n - 1);
      } else {
        k := n - 1;
      }
    }
  }

  /** A run panics exactly when some client is unregistered after a broadcast copied it and before that broadcast's send
      to it. */
  lemma {:induction false} PanicsExactlyWhen(trace: seq<Action>)
    ensures Run(trace).hub.panicked <==> exists c, b, i, j, k :: Interrupts(trace, c, b, i, j, k)
  {
    if Run(trace).hub.panicked {
      assert trace[..|trace|] == trace;
      hide Run, Interrupts;
      var k := FirstPanic(trace, |trace|);
      var c, b, i, j := PanicHasCause(trace, k);
    }
    if c, b, i, j, k :| Interrupts(trace, c, b, i, j, k) {
      hide Run, Interrupts;
      CausePanics(trace, c, b, i, j, k);
    }
  }

  /** A lone client that has registered. */
  predicate Alone(w: World, c: nat, wallet: Uuid) {
    && w.hub.rooms == map[wallet := {c}] && w.hub.channels == map[c := Channel(wallet, [], false)]
    && c in w.seats && c in w.present && w.casts == []
  }

  lemma LoneClient(c: nat, wallet: Uuid)
    ensures Alone(Step(Step(EMPTY, Connect(c, wallet)), Register(c)), c, wallet)
  {
    assert Room<nat>(map[], wallet) + {c} == {c};
  }

  lemma LoneClientPanics(w: World, c: nat, wallet: Uuid, e: Event)
    requires Alone(w, c, wallet)
    ensures Step(Step(Step(w, Copy(wallet, e)), Unregister(c)), Send(0, c)).hub.panicked
  {
    var copied := Step(w, Copy(wallet, e));
    assert copied.hub == w.hub && c in copied.seats && copied.casts == [Cast(wallet, e, {c})];
    var left := Step(copied, Unregister(c));
    assert left.hub.channels[c].closed && left.casts == copied.casts && c in left.seats;
    hide Missed;
  }

  /** The shortest such run: connect, register, copy, unregister, send. */
  lemma {:induction false} UnregisterBeforeSendPanics(c: nat, wallet: Uuid, e: Event)
    ensures Run([Connect(c, wallet), Register(c), Copy(wallet, e), Unregister(c), Send(0, c)]).hub.panicked
  {
    var all := [Connect(c, wallet), Register(c), Copy(wallet, e), Unregister(c), Send(0, c)];
    NextRun(all, 0);
    NextRun(all, 1);
    NextRun(all, 2);
    NextRun(all, 3);
    NextRun(all, 4);
    assert all[..5] == all && all[..0] == [] && Run(all[..0]) == EMPTY;
    hide Run, Step, Alone;
    LoneClient(c, wallet);
    LoneClientPanics(Run(all[..2]), c, wallet, e);
  }

  // ---- delivery

  /** One broadcaster: each broadcast ends, or dies, before the next begins. */
  predicate OneAtATime(trace: seq<Action>) {
    forall i :: 0 <= i < |trace| && trace[i].Copy? ==> !UnderWay(Run(trace[..i]).casts)
  }

  lemma {:induction false} NoOverlap(trace: seq<Action>)
    requires OneAtATime(trace)
    ensures !Run(trace).overlapped
  {
    if trace != [] {
      var front, last := trace[..|trace| - 1], trace[|trace| - 1];
      assert forall i :: 0 <= i < |front| ==> front[..i] == trace[..i] && front[i] == trace[i];
      assert OneAtATime(front);
      NoOverlap(front);
      assert last.Copy? ==> !UnderWay(Run(front).casts);
      assert Run(trace) == Step(Run(front), last);
      hide Run, UnderWay, Missed;
    }
  }

  /** With one broadcaster, and whatever registers, leaves and panics in between: what a client has read and may still
      read is, in order, part of what was broadcast to its wallet since it registered; all of it while it missed
      nothing; and only the latest broadcast can be still to come. */
  lemma {:induction false} DeliveredInOrder(trace: seq<Action>, c: nat)
    requires OneAtATime(trace) && c in Run(trace).hub.channels
    ensures var w := Run(trace);
            && c in w.seats && w.seats[c].from <= w.seats[c].upto <= |w.casts|
            && (c in w.present ==> w.seats[c].upto + (if Awaits(w.casts, c) then 1 else 0) == |w.casts|)
            && var ch, seat := w.hub.channels[c], w.seats[c];
               var sent := EventsFor(w.casts[seat.from..seat.upto], ch.wallet);
               && InOrder(seat.got + ch.waiting, sent) && |sent| == |seat.got| + |ch.waiting| + seat.missed
               && (seat.missed == 0 ==> seat.got + ch.waiting == sent)
  {
    NoOverlap(trace);
    RunKeepsOrderly(trace);
    var w := Run(trace);
    hide Run;
    SeatAt(w, c);
    hide Orderly;
    var ch, seat := w.hub.channels[c], w.seats[c];
    InOrderShorter(seat.got + ch.waiting, EventsFor(w.casts[seat.from..seat.upto], ch.wallet));
    hide InOrder, EventsFor;
  }

  /** Whatever overlaps: at most 32 events wait for a client. */
  lemma {:induction false} QueueIsBounded(trace: seq<Action>, c: nat)
    requires c in Run(trace).hub.channels
    ensures |Run(trace).hub.channels[c].waiting| <= SEND_BUFFER_SIZE
  {
    RunKeepsInv(trace);
    hide Run;
    assert ClientHolds(Run(trace), c);
  }

  /** Whatever overlaps: a client misses an event only by a send to it while exactly 32 wait, or because the broadcast
      that still had it to come to died at another client's closed channel. */
  lemma {:induction false} MissedOnlyWhen(trace: seq<Action>, a: Action, c: nat)
    requires c in Run(trace).seats && c in Step(Run(trace), a).seats && !(a.Register? && a.c == c)
    requires Step(Run(trace), a).seats[c].missed > Run(trace).seats[c].missed
    ensures var w := Run(trace);
            && a.Send? && Enabled(w, a)
            && if w.hub.channels[a.target].closed then a.target != c && c in w.casts[a.cast].pending
               else a.target == c && |w.hub.channels[c].waiting| == SEND_BUFFER_SIZE
  {
    RunKeepsInv(trace);
    var w := Run(trace);
    hide Run;
    assert c in w.hub.channels && ClientHolds(w, c);
    hide PendingHold, RoomsHold, Room;
  }
}
