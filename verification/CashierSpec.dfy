/**
  * The cashier as a state machine: a two-class admission controller that wakes up on its event semaphore,
  * receives at most one letter, and then serves its two request queues. Every blocking call of the
  * process takes the events that happen during it from the environment.
  */
module CashierSpec {
  import opened Common
  import opened Mailbox

  datatype Class = Vip | Ordinary

  type Visitor = Guest<Class>

  /** A letter's type and content; None is content of the wrong variant. */
  datatype Message =
    | Enter(who: Option<Visitor>)
    | Exit(visitedRestaurant: Option<bool>)
    | Unknown

  datatype Entry = Entry(pid: Pid, who: Visitor)

  /**
    * History of one served request: was a VIP request waiting at that moment, was the park open when the request was
    * checked, and how many letters had been read?
    */
  datatype Served = Served(entry: Entry, vipWaiting: bool, open: bool, heard: nat)

  /**
    * History of the client map: an acknowledged entry, with the number of its handshake and whether the park was
    * still open when it was registered; an exit; and the clearing by SIGTERM.
    */
  datatype Change = Joined(entry: Entry, at: nat, open: bool) | Left(pid: Pid) | Cleared

  /** Closing of the park, SIGTERM to the cashier, and traffic on its mailbox and semaphore. */
  datatype Event = Close | Terminate | Mail(traffic: Traffic<Message>)

  type Shake = Handshake<Event>

  datatype Cashier = Cashier(
    open: bool, parkSize: nat, terminated: bool, waiting: bool,
    clients: map<Pid, Visitor>, counter: int,
    vips: seq<Entry>, others: seq<Entry>,
    ch: Channel<Message>,
    arrived: seq<Entry>, served: seq<Served>, log: seq<Change>)

  function Start(parkSize: nat): Cashier {
    Cashier(true, parkSize, false, false, map[], 0, [], [], Empty(), [], [], [])
  }

  // ----- Events -----

  /** SIGTERM discards all clients, but only once the park is closed. */
  function Terminated(s: Cashier): Cashier {
    if s.open then s
    else s.(clients := map[], counter := 0, terminated := true, log := s.log + [Cleared], ch := Step(s.ch, Extra))
  }

  function Deliver(s: Cashier, e: Event): Cashier {
    match e
    case Close => s.(open := false)
    case Terminate => Terminated(s)
    case Mail(t) => s.(ch := Step(s.ch, t))
  }

  function DeliverAll(s: Cashier, es: seq<Event>): (r: Cashier)
    ensures r == s.(open := r.open, terminated := r.terminated, clients := r.clients,
                    counter := r.counter, log := r.log, ch := r.ch)
    ensures r.open ==> s.open && r.clients == s.clients && r.counter == s.counter
    ensures r.terminated || (r.clients == s.clients && r.counter == s.counter && r.log == s.log)
    ensures (r.clients == s.clients && r.counter == s.counter) || (r.clients == map[] && r.counter == 0)
    ensures s.terminated ==> r.terminated
    decreases |es|
  {
    if es == [] then s else DeliverAll(Deliver(s, es[0]), es[1..])
  }

  // ----- Registration -----

  function Admit(s: Cashier, e: Entry): Cashier {
    s.(counter := s.counter + Weight(e.who.hasChild),
       clients := s.clients[e.pid := e.who],
       log := s.log + [Joined(e, |s.served|, s.open)])
  }

  predicate Fits(s: Cashier, e: Entry) {
    s.counter + Weight(e.who.hasChild) <= s.parkSize
  }

  /** False as the second result only if no more clients can be registered. */
  function Register(s: Cashier, e: Entry, h: Shake): (r: (Cashier, bool))
    ensures r.0.vips == s.vips && r.0.others == s.others && r.0.served == s.served && r.0.arrived == s.arrived
    ensures r.0.parkSize == s.parkSize && r.0.waiting == s.waiting
    ensures !r.1 <==> s.open && !Fits(s, e)
    ensures !r.1 ==> r.0 == s
  {
    var allowed := s.open;
    if !Fits(s, e) && allowed then (s, false)
    else match h
      case Missing => (s, true)
      case Unsent(posting) => (DeliverAll(s, posting), true)
      case Sent(posting, reply, awaiting) =>
        var s1 := DeliverAll(s, posting);
        if !allowed then (s1, true)
        else
          var s2 := DeliverAll(s1, awaiting);
          (if reply.Ack? then Admit(s2, e) else s2, true)
  }

  function TakeVip(s: Cashier, open: bool): Cashier
    requires s.vips != []
  {
    s.(vips := s.vips[1..], served := s.served + [Served(s.vips[0], true, open, |s.ch.received|)])
  }

  function TakeOther(s: Cashier, open: bool): Cashier
    requires s.others != []
  {
    s.(others := s.others[1..], served := s.served + [Served(s.others[0], s.vips != [], open, |s.ch.received|)])
  }

  function ServeVips(s: Cashier, env: nat -> Shake): (r: Cashier)
    ensures r.vips == [] || (r.open && !Fits(r, r.vips[0]))
    ensures r.parkSize == s.parkSize && r.waiting == s.waiting && r.others == s.others && r.arrived == s.arrived
    decreases |s.vips|
  {
    if s.vips == [] then s
    else
      var (s1, done) := Register(s, s.vips[0], env(|s.served|));
      if !done then s1
      else ServeVips(TakeVip(s1, s.open), env)
  }

  function ServeOthers(s: Cashier, env: nat -> Shake): (r: Cashier)
    ensures r.vips == s.vips && r.parkSize == s.parkSize && r.waiting == s.waiting && r.arrived == s.arrived
    ensures r.vips != [] || r.others == [] || (r.open && !Fits(r, r.others[0]))
    decreases |s.others|
  {
    if s.vips != [] || s.others == [] then s
    else
      var (s1, done) := Register(s, s.others[0], env(|s.served|));
      if !done then s1
      else ServeOthers(TakeOther(s1, s.open), env)
  }

  // ----- The mailbox -----

  function Enqueue(s: Cashier, e: Entry): Cashier {
    if e.who.kind == Vip then s.(vips := s.vips + [e], arrived := s.arrived + [e])
    else s.(others := s.others + [e], arrived := s.arrived + [e])
  }

  /** The bill handshake, which changes nothing in the cashier but gives events time to happen. */
  function Settle(s: Cashier, pid: Pid, visited: Option<bool>, h: Shake): Cashier {
    if pid !in s.clients || visited.None? || (s.clients[pid].kind == Vip && !visited.value) then s
    else match h
      case Missing => s
      case Unsent(posting) => DeliverAll(s, posting)
      case Sent(posting, _, awaiting) => DeliverAll(DeliverAll(s, posting), awaiting)
  }

  function Remove(s: Cashier, pid: Pid): Cashier {
    if pid !in s.clients then s
    else
      s.(counter := s.counter - Weight(s.clients[pid].hasChild), clients := s.clients - {pid},
         log := s.log + [Left(pid)])
  }

  function Handle(s: Cashier, l: Letter<Message>, bill: Shake): (r: Cashier)
    ensures r.parkSize == s.parkSize && r.waiting == s.waiting
  {
    match l.body
    case Enter(who) => if who.None? then s else Enqueue(s, Entry(l.from, who.value))
    case Exit(visited) => Remove(Settle(s, l.from, visited, bill), l.from)
    case Unknown => s
  }

  function HandleMailbox(s: Cashier, receiving: seq<Event>, bill: Shake): (r: Cashier)
    ensures r.parkSize == s.parkSize && r.waiting == s.waiting
  {
    var s1 := DeliverAll(s, receiving);
    var (ch, letter) := Receive(s1.ch);
    if letter.None? then s1.(ch := ch) else Handle(s1.(ch := ch), letter.value, bill)
  }

  // ----- The main loop -----

  /**
    * What the environment does during one pass: while the cashier sleeps, while it receives, in a bill
    * handshake, and while it writes its log line before the loop condition is read again.
    */
  datatype Pass = Pass(asleep: seq<Event>, interrupted: bool, receiving: seq<Event>, bill: Shake, logging: seq<Event>)

  predicate Guard(s: Cashier) {
    (s.open || |s.clients| > 0 || |s.ch.box| > 0) && !s.terminated
  }

  predicate Finished(s: Cashier) {
    !s.waiting && !Guard(s)
  }

  function Serve(s: Cashier, env: nat -> Shake): Cashier {
    ServeOthers(ServeVips(s, env), env)
  }

  function Work(s: Cashier, p: Pass, env: nat -> Shake): Cashier {
    DeliverAll(Serve(HandleMailbox(s, p.receiving, p.bill), env), p.logging)
  }

  /** One pass of Run. A pass whose wait does not return leaves the cashier waiting. */
  function Iterate(s: Cashier, p: Pass, env: nat -> Shake): Cashier {
    if Finished(s) then s
    else
      var s1 := DeliverAll(s.(waiting := true), p.asleep);
      match Wait(s1.ch, -1, p.interrupted, false)
      case None => s1
      case Some(ch) => Work(s1.(waiting := false, ch := ch), p, env)
  }

  function Run(s: Cashier, ps: seq<Pass>, env: nat -> Shake): Cashier
    decreases |ps|
  {
    if ps == [] then s else Run(Iterate(s, ps[0], env), ps[1..], env)
  }
}
