/** Who is a guest: what each letter and each event does to the guests, and what that comes to over a run. */
module RestaurantMembership {
  import opened Common
  import opened Mailbox
  import opened Rounds
  import opened Layout
  import opened RestaurantSpec
  import opened RestaurantProofs
  import opened RestaurantTheorems
  import opened RestaurantClosing

  // ----- Events -----

  ghost function Outsiders(s: Restaurant): set<Pid> {
    set p | p in Guests(s) && Guests(s)[p].kind == FromOutside
  }

  lemma EventExactly(s: Restaurant, e: Event)
    ensures var r := Deliver(s, e);
            && r.alarm.told == s.alarm.told + (if e == Evacuate then Outsiders(s) else {})
            && (r.evac <==> s.evac || e == Evacuate) && Outsiders(r) == Outsiders(s)
            && (s.round.Some? ==> r.round.Some? && r.round.value.serial == s.round.value.serial)
  {
    assert Outsiders(Deliver(s, e)) == Outsiders(s);
  }

  /**
    * The guests stay while events happen, in the round they are in. An evacuation signal, and nothing else, tells
    * exactly those from outside the park to leave.
    */
  lemma {:induction false} EventsExactly(s: Restaurant, es: seq<Event>)
    ensures var r := DeliverAll(s, es);
            && r.alarm.told == s.alarm.told + (if Evacuate in es then Outsiders(s) else {})
            && (r.evac <==> s.evac || Evacuate in es) && Outsiders(r) == Outsiders(s)
            && (s.round.Some? ==> r.round.Some? && r.round.value.serial == s.round.value.serial)
    decreases |es|
  {
    hide Deliver, Outsiders;
    if es != [] {
      assert es == [es[0]] + es[1..];
      EventExactly(s, es[0]);
      EventsExactly(Deliver(s, es[0]), es[1..]);
    }
  }

  lemma {:induction false} DeliverAllConcat(s: Restaurant, a: seq<Event>, b: seq<Event>)
    ensures DeliverAll(s, a + b) == DeliverAll(DeliverAll(s, a), b)
    decreases |a|
  {
    if a == [] {
      assert a + b == b;
    } else {
      assert (a + b)[1..] == a[1..] + b;
      DeliverAllConcat(Deliver(s, a[0]), a[1..], b);
    }
  }

  // ----- One letter -----

  /** What the restaurant hears while it deals with an exit: only guests from outside the park get a bill. */
  ghost function HeardWithExit(s: Restaurant, pid: Pid, bill: Shake): seq<Event> {
    if pid in Outsiders(s) then Delivered(bill, true) else []
  }

  lemma BillHears(s: Restaurant, pid: Pid, bill: Shake)
    ensures SendBill(s, pid, bill) == DeliverAll(s, HeardWithExit(s, pid, bill))
  {
    if pid in Outsiders(s) && bill.Sent? {
      DeliverAllConcat(s, bill.posting, bill.awaiting);
    }
  }

  /**
    * Whoever sends an exit is gone and everybody else stays, whatever happens meanwhile. The bill handshake takes place
    * exactly for a guest from outside the park; what is heard in it takes effect while the guest still counts as one.
    */
  lemma ExitExactly(s: Restaurant, l: Letter<Message>, bill: Shake)
    requires l.body.ExitRestaurant?
    ensures var r, heard := Handle(s, l, bill), HeardWithExit(s, l.from, bill);
            && Guests(r) == Guests(s) - {l.from}
            && (s.round.Some? ==> r.round.Some? && r.round.value.serial == s.round.value.serial)
            && r.paused == PausedAfter(s.paused, heard) && (r.open <==> s.open && Close !in heard)
            && (r.evac <==> s.evac || Evacuate in heard)
            && r.alarm.told == s.alarm.told + (if Evacuate in heard then Outsiders(s) else {})
            && r.queue == s.queue && r.arrived == s.arrived && r.ch.received == s.ch.received
  {
    hide SendBill, HeardWithExit, DeliverAll, Outsiders;
    var heard := HeardWithExit(s, l.from, bill);
    BillHears(s, l.from, bill);
    FlagsAfter(s, heard);
    EventsExactly(s, heard);
    EventsKeepReceived(s, heard);
  }

  ghost function AsRequest(l: Letter<Message>): seq<Request> {
    if l.body.EnterRestaurant? then [Request(l.from, l.body.who)] else []
  }

  /** What the restaurant does with its mailbox: at most one letter, a request or an exit, and nothing else changes. */
  lemma MailboxExactly(s: Restaurant, receiving: seq<Event>, bill: Shake)
    ensures var s1, r := DeliverAll(s, receiving), HandleMailbox(s, receiving, bill);
            && r.ch.received == s1.ch.received + (if s1.ch.box == [] then [] else [s1.ch.box[0]])
            && r.queue == s.queue + (if s1.ch.box == [] then [] else AsRequest(s1.ch.box[0]))
            && r.arrived == s.arrived + (if s1.ch.box == [] then [] else AsRequest(s1.ch.box[0]))
            && Guests(r) == (if s1.ch.box != [] && s1.ch.box[0].body.ExitRestaurant?
                             then Guests(s1) - {s1.ch.box[0].from} else Guests(s1))
            && (s1.round.Some? ==> r.round.Some? && r.round.value.serial == s1.round.value.serial)
            && (s1.round.None? ==> r.round.None?)
            && r.seated == s.seated && r.serial == s.serial
  {
    hide DeliverAll, Handle;
    var s1 := DeliverAll(s, receiving);
    if s1.ch.box != [] {
      var s2, l := s1.(ch := Receive(s1.ch).0), s1.ch.box[0];
      if l.body.ExitRestaurant? {
        ExitExactly(s2, l, bill);
      }
      LetterFrame(s2, l, bill);
    }
  }

  lemma LetterFrame(s: Restaurant, l: Letter<Message>, bill: Shake)
    ensures var r := Handle(s, l, bill);
            && r.seated == s.seated && r.serial == s.serial && (s.round.None? ==> r.round.None?)
            && r.queue == s.queue + AsRequest(l) && r.arrived == s.arrived + AsRequest(l)
            && (!l.body.ExitRestaurant? ==> r.round == s.round && r.ch == s.ch)
  {
    hide DeliverAll, SendBill;
    BillHears(s, l.from, bill);
  }

  // ----- Guests and seats -----

  /** An exit of p has been read since n letters had been. */
  ghost predicate Exited(received: seq<Letter<Message>>, p: Pid, n: nat) {
    exists i :: n <= i < |received| && received[i].from == p && received[i].body.ExitRestaurant?
  }

  /** Seat k is p's, in the round with this number, and no exit of p has been read since. */
  ghost predicate Stays(seated: seq<Seat>, received: seq<Letter<Message>>, serial: nat, p: Pid, k: nat) {
    && k < |seated| && seated[k].pid == p && seated[k].serial == serial
    && !Exited(received, p, seated[k].heard)
  }

  ghost predicate FirstSeat(seated: seq<Seat>, serial: nat, p: Pid, k: nat) {
    && k < |seated| && seated[k].pid == p && seated[k].serial == serial
    && forall j :: 0 <= j < k ==> !(seated[j].pid == p && seated[j].serial == serial)
  }

  /** The guests are those with a stay in the round, each with the party of its first seat. */
  ghost predicate Manned(clients: map<Pid, Rider>, serial: nat, seated: seq<Seat>, received: seq<Letter<Message>>) {
    && (forall p :: p in clients <==> exists k: nat :: Stays(seated, received, serial, p, k))
    && (forall p, k: nat :: p in clients && FirstSeat(seated, serial, p, k) ==> clients[p] == seated[k].who)
  }

  /** Seats of a round that is being filled are as recent as the last letter. */
  ghost predicate Recent(serial: nat, seated: seq<Seat>, received: seq<Letter<Message>>) {
    forall k :: 0 <= k < |seated| && seated[k].serial == serial ==> seated[k].heard == |received|
  }

  ghost predicate Bounded(seated: seq<Seat>, received: seq<Letter<Message>>, bound: nat) {
    forall k :: 0 <= k < |seated| ==> seated[k].serial < bound && seated[k].heard <= |received|
  }

  /** The requests among some letters, in order. */
  ghost function Requests(ls: seq<Letter<Message>>): seq<Request> {
    if ls == [] then [] else Requests(ls[..|ls| - 1]) + AsRequest(ls[|ls| - 1])
  }

  ghost predicate Known(s: Restaurant) {
    && s.arrived == Requests(s.ch.received)
    && Bounded(s.seated, s.ch.received, s.serial)
    && (s.round.Some? ==> Manned(s.round.value.clients, s.round.value.serial, s.seated, s.ch.received))
  }

  lemma EventsKeepKnown(s: Restaurant, es: seq<Event>)
    requires Known(s)
    ensures Known(DeliverAll(s, es))
  {
    hide Manned, Bounded, Requests;
    EventsExactly(s, es);
    EventsKeepReceived(s, es);
    assert s.round.Some? ==> DeliverAll(s, es).round.value.clients == Guests(s);
  }

  lemma BoardKeepsManned(r: Round, seated: seq<Seat>, received: seq<Letter<Message>>, seat: Seat)
    requires Manned(r.clients, r.serial, seated, received) && Recent(r.serial, seated, received)
    requires seat.serial == r.serial && seat.heard == |received|
    ensures Manned(Board(r, seat.pid, seat.who).clients, r.serial, seated + [seat], received)
    ensures Recent(r.serial, seated + [seat], received)
  {
    var n, more := |seated|, seated + [seat];
    forall p, k: nat
      ensures Stays(more, received, r.serial, p, k) <==>
                if k == n then p == seat.pid else Stays(seated, received, r.serial, p, k)
      ensures FirstSeat(more, r.serial, p, k) && k < n ==> FirstSeat(seated, r.serial, p, k)
    {
      assert forall j :: 0 <= j < n ==> more[j] == seated[j];
    }
    assert Stays(more, received, r.serial, seat.pid, n);
    forall p | p in r.clients
      ensures exists k: nat :: Stays(more, received, r.serial, p, k)
      ensures !FirstSeat(more, r.serial, p, n)
    {
      var k: nat :| Stays(seated, received, r.serial, p, k);
      assert Stays(more, received, r.serial, p, k);
      assert more[k] == seated[k];
    }
    assert forall k: nat :: k < n ==> more[k] == seated[k];
    if seat.pid !in r.clients {
      NoSeatYet(r, seated, received, seat.pid);
    }
  }

  lemma NoSeatYet(r: Round, seated: seq<Seat>, received: seq<Letter<Message>>, p: Pid)
    requires Manned(r.clients, r.serial, seated, received) && Recent(r.serial, seated, received) && p !in r.clients
    ensures forall k: nat :: !FirstSeat(seated, r.serial, p, k)
  {
    forall k: nat
      ensures !FirstSeat(seated, r.serial, p, k)
    {
      if FirstSeat(seated, r.serial, p, k) {
        assert Stays(seated, received, r.serial, p, k);
      }
    }
  }

  ghost predicate NoRoom(cfg: Config, r: Round, q: Request) {
    q.who.Some? && Load(r.clients) + 1 + (if q.who.value.hasChild then 1 else 0) > cfg.capacity
  }

  /**
    * A guest is added exactly for a well-formed request that an open park has room for and that is acknowledged; it
    * gets a seat on record, and nobody in the round is touched. The request stays in the queue exactly if an open park
    * has no room for it.
    */
  lemma RegisterExactly(cfg: Config, s: Restaurant, r: Round, q: Request, h: Shake)
    ensures var (s1, r1, served) := Register(cfg, s, r, q, h);
            var admitted := s.open && q.who.Some? && !NoRoom(cfg, r, q) && Acknowledged(h);
            && (served <==> !(s.open && NoRoom(cfg, r, q)))
            && r1.clients == (if admitted && q.pid !in r.clients then r.clients[q.pid := q.who.value] else r.clients)
            && r1 == r.(clients := r1.clients)
            && s1.seated == s.seated + (if admitted
                                        then [Seat(q.pid, q.who.value, s1.open, r.serial, |s.handled|,
                                                   |s1.ch.received|)]
                                        else [])
  {
    hide DeliverAll;
  }

  /** The state while the queue is served for the round r. */
  ghost predicate Filling(s: Restaurant, r: Round) {
    && s.round.None? && Bounded(s.seated, s.ch.received, r.serial + 1)
    && Manned(r.clients, r.serial, s.seated, s.ch.received) && Recent(r.serial, s.seated, s.ch.received)
  }

  lemma EventsKeepFilling(s: Restaurant, r: Round, es: seq<Event>)
    requires Filling(s, r)
    ensures Filling(DeliverAll(s, es), r) && DeliverAll(s, es).ch.received == s.ch.received
  {
    hide Manned, Recent, Bounded;
    EventsKeepReceived(s, es);
  }

  lemma RegisterKeepsFilling(cfg: Config, s: Restaurant, r: Round, q: Request, h: Shake)
    requires Filling(s, r)
    ensures var (s1, r1, _) := Register(cfg, s, r, q, h);
            Filling(s1, r1) && r1.serial == r.serial && s1.ch.received == s.ch.received
  {
    hide Filling, DeliverAll;
    if q.who.Some? && !h.Missing? {
      EventsKeepFilling(s, r, h.posting);
      var s1 := DeliverAll(s, h.posting);
      if h.Sent? {
        EventsKeepFilling(s1, r, h.awaiting);
        var s2 := DeliverAll(s1, h.awaiting);
        SeatKeepsFilling(s2, r, Seat(q.pid, q.who.value, s2.open, r.serial, |s.handled|, |s2.ch.received|));
      }
    }
  }

  lemma SeatKeepsFilling(s: Restaurant, r: Round, seat: Seat)
    requires Filling(s, r) && seat.serial == r.serial && seat.heard == |s.ch.received|
    ensures Filling(s.(seated := s.seated + [seat]), Board(r, seat.pid, seat.who))
  {
    hide Manned, Recent;
    BoardKeepsManned(r, s.seated, s.ch.received, seat);
  }

  lemma {:induction false} FillKeepsFilling(cfg: Config, s: Restaurant, r: Round, env: nat -> Shake)
    requires Filling(s, r)
    ensures var (s1, r1) := Fill(cfg, s, r, env);
            Filling(s1, r1) && r1.serial == r.serial && s1.ch.received == s.ch.received
    decreases |s.queue|
  {
    hide Filling, Register;
    if s.queue != [] {
      RegisterKeepsFilling(cfg, s, r, s.queue[0], env(|s.handled|));
      var (s1, r1, served) := Register(cfg, s, r, s.queue[0], env(|s.handled|));
      if served {
        TakeKeepsFilling(s1, r1);
        FillKeepsFilling(cfg, Take(s1), r1, env);
      }
    }
  }

  lemma TakeKeepsFilling(s: Restaurant, r: Round)
    requires Filling(s, r) && s.queue != []
    ensures Filling(Take(s), r)
  {}

  lemma NobodyFills(s: Restaurant)
    requires Known(s) && s.round.None?
    ensures Filling(Construct(s), Fresh(s.serial))
  {
    forall p, k: nat
      ensures !Stays(s.seated, s.ch.received, s.serial, p, k)
    {}
  }

  lemma RefillKeepsKnown(cfg: Config, s: Restaurant, env: nat -> Shake)
    requires Known(s)
    ensures Known(Refill(cfg, s, env))
  {
    hide Manned, Recent, Bounded, Requests, Fill;
    if s.round.None? {
      NobodyFills(s);
      FillKeepsFilling(cfg, Construct(s), Fresh(s.serial), env);
    }
  }

  lemma ExitedLater(received: seq<Letter<Message>>, l: Letter<Message>, p: Pid, n: nat)
    ensures Exited(received + [l], p, n) <==>
              Exited(received, p, n) || (n <= |received| && l.body.ExitRestaurant? && l.from == p)
  {
    var more := received + [l];
    assert more[|received|] == l;
    if i :| n <= i < |received| && received[i].from == p && received[i].body.ExitRestaurant? {
      assert more[i] == received[i];
    }
  }

  /** Reading a letter: its sender leaves if it is an exit. */
  lemma ReadKeepsManned(clients: map<Pid, Rider>, serial: nat, seated: seq<Seat>, received: seq<Letter<Message>>,
                        l: Letter<Message>)
    requires Manned(clients, serial, seated, received)
    requires forall k :: 0 <= k < |seated| ==> seated[k].heard <= |received|
    ensures Manned(if l.body.ExitRestaurant? then clients - {l.from} else clients, serial, seated, received + [l])
  {
    var rest := if l.body.ExitRestaurant? then clients - {l.from} else clients;
    forall p, k: nat
      ensures Stays(seated, received + [l], serial, p, k) <==>
                Stays(seated, received, serial, p, k) && !(l.body.ExitRestaurant? && l.from == p)
    {
      if k < |seated| {
        ExitedLater(received, l, p, seated[k].heard);
      }
    }
    forall p
      ensures p in rest <==> exists k: nat :: Stays(seated, received + [l], serial, p, k)
    {
      if p in rest {
        var k: nat :| Stays(seated, received, serial, p, k);
        assert Stays(seated, received + [l], serial, p, k);
      }
    }
  }

  lemma RequestsLater(ls: seq<Letter<Message>>, l: Letter<Message>)
    ensures Requests(ls + [l]) == Requests(ls) + AsRequest(l)
  {
    assert (ls + [l])[..|ls|] == ls;
  }

  lemma MoreHeard(seated: seq<Seat>, received: seq<Letter<Message>>, l: Letter<Message>, bound: nat)
    requires Bounded(seated, received, bound)
    ensures Bounded(seated, received + [l], bound)
    ensures forall k :: 0 <= k < |seated| ==> seated[k].heard <= |received|
  {}

  lemma MailboxKeepsKnown(s: Restaurant, receiving: seq<Event>, bill: Shake)
    requires Known(s)
    ensures Known(HandleMailbox(s, receiving, bill))
  {
    hide Manned, Bounded, Requests, AsRequest, HandleMailbox, DeliverAll;
    EventsKeepKnown(s, receiving);
    MailboxExactly(s, receiving, bill);
    var s1, r := DeliverAll(s, receiving), HandleMailbox(s, receiving, bill);
    if s1.ch.box == [] {
      assert r.arrived == s1.arrived && r.ch.received == s1.ch.received;
    } else {
      var l := s1.ch.box[0];
      RequestsLater(s1.ch.received, l);
      MoreHeard(s1.seated, s1.ch.received, l, s1.serial);
      if s1.round.Some? {
        ReadKeepsManned(s1.round.value.clients, s1.round.value.serial, s1.seated, s1.ch.received, l);
      }
    }
  }

  lemma SweepKeepsKnown(s: Restaurant)
    requires Known(s)
    ensures Known(Sweep(s))
  {
    hide Manned, Bounded, Requests;
  }

  lemma WorkKeepsKnown(cfg: Config, s: Restaurant, p: Pass, env: nat -> Shake)
    requires Known(s)
    ensures Known(Work(cfg, s, p, env))
  {
    hide Known, Sweep, HandleMailbox, Refill, DeliverAll;
    SweepKeepsKnown(s);
    MailboxKeepsKnown(Sweep(s), p.receiving, p.bill);
    var s1 := HandleMailbox(Sweep(s), p.receiving, p.bill);
    RefillKeepsKnown(cfg, s1, env);
    EventsKeepKnown(Refill(cfg, s1, env), p.between);
  }

  lemma SameKnown(s: Restaurant, r: Restaurant)
    requires Known(s)
    requires r.round == s.round && r.seated == s.seated && r.arrived == s.arrived && r.serial == s.serial
    requires r.ch.received == s.ch.received
    ensures Known(r)
  {}

  lemma {:induction false} RunKeepsKnown(cfg: Config, s: Restaurant, ps: seq<Pass>, env: nat -> Shake)
    requires Known(s)
    ensures Known(Run(cfg, s, ps, env))
    decreases |ps|
  {
    hide Known, Work, DeliverAll;
    if ps != [] {
      var p := ps[0];
      if !Finished(s) {
        var timeout := if s.waiting.Some? then s.waiting.value else NextTimeout(s);
        SameKnown(s, s.(waiting := Some(timeout)));
        EventsKeepKnown(s.(waiting := Some(timeout)), p.asleep);
        var s1 := DeliverAll(s.(waiting := Some(timeout)), p.asleep);
        var w := Wait(s1.ch, timeout, p.interrupted, p.expired);
        if w.Some? {
          SameKnown(s1, s1.(waiting := None, ch := w.value));
          WorkKeepsKnown(cfg, s1.(waiting := None, ch := w.value), p, env);
        }
      }
      RunKeepsKnown(cfg, Iterate(cfg, s, p, env), ps[1..], env);
    }
  }

  /**
    * Over every run: a pid is a guest of the running round exactly if it has acknowledged a permit for it and no exit
    * of its own has been read since; and it has the party of its first request for it.
    */
  lemma GuestsExactly(cfg: Config, now: nat, ps: seq<Pass>, env: nat -> Shake, p: Pid)
    ensures var s := Run(cfg, Start(now), ps, env);
            s.round.Some? ==>
              var n := s.round.value.serial;
              && (p in Guests(s) <==> exists k: nat :: Stays(s.seated, s.ch.received, n, p, k))
              && forall k: nat :: p in Guests(s) && FirstSeat(s.seated, n, p, k) ==> Guests(s)[p] == s.seated[k].who
  {
    RunKeepsKnown(cfg, Start(now), ps, env);
  }

  lemma {:induction false} RequestsConcat(a: seq<Letter<Message>>, b: seq<Letter<Message>>)
    ensures Requests(a + b) == Requests(a) + Requests(b)
  {
    if b == [] {
      assert a + b == a;
    } else {
      var n := |b| - 1;
      assert (a + b)[..|a| + n] == a + b[..n];
      RequestsConcat(a, b[..n]);
    }
  }

  /**
    * Clients post to the restaurant with one priority. Over every run their requests, in the order of posting, are
    * those handled, then the queue, then those still unread.
    */
  lemma PostedInOrder(cfg: Config, now: nat, ps: seq<Pass>, env: nat -> Shake)
    ensures var s := Run(cfg, Start(now), ps, env);
            Plain(s.ch.posted) ==> s.handled + s.queue + Requests(s.ch.box) == Requests(s.ch.posted)
  {
    hide Run, Once, AllFair, OneLate;
    RunKeepsKnown(cfg, Start(now), ps, env);
    StartIsSound(cfg, now);
    RunKeeps(cfg, Start(now), ps, env);
    var s := Run(cfg, Start(now), ps, env);
    if Plain(s.ch.posted) {
      PlainInOrder(s.ch);
      RequestsConcat(s.ch.received, s.ch.box);
    }
  }
}
