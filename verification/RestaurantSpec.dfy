/**
  * The restaurant as a state machine: a scheduler with one slot. Unlike an attraction it has no admission
  * criteria, a pause releases its guests but keeps the round, and an evacuation freezes the round until every
  * guest has sent an exit.
  */
module RestaurantSpec {
  import opened Common
  import opened Mailbox
  import opened Rounds
  import opened Layout

  /** None is a request whose content is of the wrong variant. */
  datatype Request = Request(pid: Pid, who: Option<Rider>)

  datatype Message = EnterRestaurant(who: Option<Rider>) | ExitRestaurant | Unknown

  datatype Event = Pause | Resume | Evacuate | Close | Elapse(seconds: nat) | Leave | Mail(traffic: Traffic<Message>)

  type Shake = Handshake<Event>

  /** History of one release of tokens. */
  datatype Freed = Freed(round: Round, at: nat, paused: bool)

  /**
    * History of one acknowledged entry: who with, was the park still open, for which round and in which handshake, and
    * how many letters had been read?
    */
  datatype Seat = Seat(pid: Pid, who: Rider, open: bool, serial: nat, at: nat, heard: nat)

  /** History of the evacuation: how many requests had been handled when it came, and who has been told to leave. */
  datatype Alarm = Alarm(handled: nat, told: set<Pid>)

  datatype Restaurant = Restaurant(
    open: bool, paused: bool, evac: bool, now: nat, waiting: Option<int>,
    round: Option<Round>, leave: nat,
    queue: seq<Request>, ch: Channel<Message>,
    arrived: seq<Request>, handled: seq<Request>, freed: seq<Freed>, serial: nat, seated: seq<Seat>,
    alarm: Alarm)

  function Start(now: nat): Restaurant {
    Restaurant(true, false, false, now, None, None, 0, [], Empty(), [], [], [], 0, [], Alarm(0, {}))
  }

  function Guests(s: Restaurant): map<Pid, Rider> {
    if s.round.Some? then s.round.value.clients else map[]
  }

  // ----- Events -----

  /** ReleaseClients on the current round, if there is one: at most once per round. */
  function Release(s: Restaurant): Restaurant {
    if s.round.None? || s.round.value.released then s
    else
      var r := s.round.value;
      s.(round := Some(r.(released := true)), leave := s.leave + |r.clients|,
         freed := s.freed + [Freed(r, s.now, s.paused)])
  }

  /** Each evacuation signal tells the seated guests from outside the park to leave; the first one counts. */
  function Evacuated(s: Restaurant): Restaurant {
    var told := set p | p in Guests(s) && Guests(s)[p].kind == FromOutside;
    s.(evac := true, alarm := Alarm(if s.evac then s.alarm.handled else |s.handled|, s.alarm.told + told))
  }

  function Deliver(s: Restaurant, e: Event): (r: Restaurant)
    ensures r == s.(open := r.open, paused := r.paused, evac := r.evac, now := r.now, round := r.round,
                    leave := r.leave, ch := r.ch, freed := r.freed, alarm := r.alarm)
    ensures (r.round.Some? <==> s.round.Some?) && Guests(r) == Guests(s)
    ensures (s.evac ==> r.evac) && (r.open ==> s.open)
  {
    match e
    case Pause => Release(s.(paused := true))
    case Resume => s.(paused := false)
    case Evacuate => Evacuated(s)
    case Close => s.(open := false)
    case Elapse(d) => s.(now := s.now + d)
    case Leave => if s.leave > 0 then s.(leave := s.leave - 1) else s
    case Mail(t) => s.(ch := Step(s.ch, t))
  }

  function DeliverAll(s: Restaurant, es: seq<Event>): (r: Restaurant)
    ensures r == s.(open := r.open, paused := r.paused, evac := r.evac, now := r.now, round := r.round,
                    leave := r.leave, ch := r.ch, freed := r.freed, alarm := r.alarm)
    ensures (r.round.Some? <==> s.round.Some?) && Guests(r) == Guests(s)
    ensures (s.evac ==> r.evac) && (r.open ==> s.open)
    decreases |es|
  {
    if es == [] then s else DeliverAll(Deliver(s, es[0]), es[1..])
  }

  /** The round is destroyed; its clients are released unless a pause has done so. */
  function Drop(s: Restaurant): Restaurant {
    Release(s).(round := None)
  }

  // ----- Registration -----

  ghost predicate Fits(cfg: Config, r: Round, who: Rider) {
    Load(r.clients) + Weight(who.hasChild) <= cfg.capacity
  }

  ghost predicate Refused(cfg: Config, s: Restaurant, r: Round, q: Request) {
    q.who.Some? && s.open && !Fits(cfg, r, q.who.value)
  }

  /** False as the third result leaves the request in the queue. */
  ghost function Register(cfg: Config, s: Restaurant, r: Round, q: Request, h: Shake): (res: (Restaurant, Round, bool))
    ensures res.0 == s.(open := res.0.open, paused := res.0.paused, evac := res.0.evac, now := res.0.now,
                        round := res.0.round, leave := res.0.leave, ch := res.0.ch, freed := res.0.freed,
                        seated := res.0.seated, alarm := res.0.alarm)
    ensures !res.2 <==> Refused(cfg, s, r, q)
    ensures !res.2 ==> res.0 == s && res.1 == r
    ensures !s.open ==> res.1 == r
    ensures (s.evac ==> res.0.evac) && (res.0.open ==> s.open) && (res.0.round.Some? <==> s.round.Some?)
  {
    if q.who.None? then (s, r, true)
    else
      var allowed := s.open;
      if !Fits(cfg, r, q.who.value) && allowed then (s, r, false)
      else match h
        case Missing => (s, r, true)
        case Unsent(posting) => (DeliverAll(s, posting), r, true)
        case Sent(posting, reply, awaiting) =>
          var s1 := DeliverAll(s, posting);
          if !allowed then (s1, r, true)
          else
            var s2 := DeliverAll(s1, awaiting);
            if reply.Ack?
            then
              var seat := Seat(q.pid, q.who.value, s2.open, r.serial, |s.handled|, |s2.ch.received|);
              (s2.(seated := s2.seated + [seat]), Board(r, q.pid, q.who.value), true)
            else (s2, r, true)
  }

  function Take(s: Restaurant): Restaurant
    requires s.queue != []
  {
    s.(queue := s.queue[1..], handled := s.handled + [s.queue[0]])
  }

  ghost function Fill(cfg: Config, s: Restaurant, r: Round, env: nat -> Shake): (res: (Restaurant, Round))
    ensures res.0.queue == [] || Refused(cfg, res.0, res.1, res.0.queue[0])
    ensures res.0.serial == s.serial && res.0.waiting == s.waiting && res.0.arrived == s.arrived
    ensures (res.0.round.Some? <==> s.round.Some?) && (!s.open ==> res.1 == r && !res.0.open)
    decreases |s.queue|
  {
    if s.queue == [] then (s, r)
    else
      var (s1, r1, served) := Register(cfg, s, r, s.queue[0], env(|s.handled|));
      if served then Fill(cfg, Take(s1), r1, env) else (s1, r1)
  }

  function Construct(s: Restaurant): Restaurant {
    s.(leave := 0, serial := s.serial + 1)
  }

  function Conclude(cfg: Config, s: Restaurant, r: Round): Restaurant {
    if r.clients != map[] then s.(round := Some(Begin(r, s.now, cfg.duration)), leave := 0)
    else s.(freed := s.freed + [Freed(r, s.now, s.paused)])
  }

  ghost function CreateRound(cfg: Config, s: Restaurant, env: nat -> Shake): Restaurant {
    var (s1, r) := Fill(cfg, Construct(s), Fresh(s.serial), env);
    Conclude(cfg, s1, r)
  }

  // ----- The mailbox -----

  /** Guests from outside the park pay here; the handshake changes nothing but gives events time to happen. */
  function SendBill(s: Restaurant, pid: Pid, h: Shake): Restaurant {
    if pid !in Guests(s) || Guests(s)[pid].kind == FromPark then s
    else match h
      case Missing => s
      case Unsent(posting) => DeliverAll(s, posting)
      case Sent(posting, _, awaiting) => DeliverAll(DeliverAll(s, posting), awaiting)
  }

  function Remove(s: Restaurant, pid: Pid): Restaurant {
    if s.round.None? then s
    else s.(round := Some(s.round.value.(clients := s.round.value.clients - {pid})))
  }

  function Handle(s: Restaurant, l: Letter<Message>, bill: Shake): Restaurant {
    match l.body
    case EnterRestaurant(who) =>
      var q := Request(l.from, who);
      s.(queue := s.queue + [q], arrived := s.arrived + [q])
    case ExitRestaurant => Remove(SendBill(s, l.from, bill), l.from)
    case Unknown => s
  }

  function HandleMailbox(s: Restaurant, receiving: seq<Event>, bill: Shake): Restaurant {
    var s1 := DeliverAll(s, receiving);
    var (ch, letter) := Receive(s1.ch);
    if letter.None? then s1.(ch := ch) else Handle(s1.(ch := ch), letter.value, bill)
  }

  // ----- The main loop -----

  function NextTimeout(s: Restaurant): int {
    if s.round.Some? then s.round.value.finish - s.now else -1
  }

  datatype Pass = Pass(asleep: seq<Event>, interrupted: bool, expired: bool, receiving: seq<Event>, bill: Shake,
                       between: seq<Event>)

  predicate Finished(s: Restaurant) {
    s.waiting.None? && !s.open && Guests(s) == map[]
  }

  /** Only a restaurant that is neither paused nor evacuated destroys a round that is over. */
  predicate Drops(s: Restaurant) {
    !s.evac && !s.paused && s.round.Some? && Over(s.round.value, s.now)
  }

  function Sweep(s: Restaurant): Restaurant {
    if Drops(s) then Drop(s) else s
  }

  ghost function Refill(cfg: Config, s: Restaurant, env: nat -> Shake): Restaurant {
    if s.round.None? && !s.paused && !s.evac then CreateRound(cfg, s, env) else s
  }

  ghost function Work(cfg: Config, s: Restaurant, p: Pass, env: nat -> Shake): Restaurant {
    DeliverAll(Refill(cfg, HandleMailbox(Sweep(s), p.receiving, p.bill), env), p.between)
  }

  ghost function Iterate(cfg: Config, s: Restaurant, p: Pass, env: nat -> Shake): Restaurant {
    if Finished(s) then s
    else
      var timeout := if s.waiting.Some? then s.waiting.value else NextTimeout(s);
      var s1 := DeliverAll(s.(waiting := Some(timeout)), p.asleep);
      match Wait(s1.ch, timeout, p.interrupted, p.expired)
      case None => s1
      case Some(ch) => Work(cfg, s1.(waiting := None, ch := ch), p, env)
  }

  ghost function Run(cfg: Config, s: Restaurant, ps: seq<Pass>, env: nat -> Shake): Restaurant
    decreases |ps|
  {
    if ps == [] then s else Run(cfg, Iterate(cfg, s, ps[0], env), ps[1..], env)
  }
}
