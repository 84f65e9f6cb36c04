/**
  * An attraction's worker as a state machine: a FIFO queue of requests is packed greedily into a fixed
  * number of slots, each of which holds at most one running round. The source keeps the slots in a map whose
  * keys are consecutive semaphore ids; here slot i is the one with the i-th id (see Layout.SlotSemaphore).
  */
module SchedulerSpec {
  import opened Common
  import opened Mailbox
  import opened Rounds
  import opened Layout

  datatype Visit = Visit(hasChild: bool, person: Person, child: Person)

  /** None is a request whose content is of the wrong variant; it is found out only when it is served. */
  datatype Request = Request(pid: Pid, visit: Option<Visit>)

  /**
    * History of one boarding: the request, the state of the worker when it was checked, the round it was for, the
    * number of its handshake, and the number of letters read until then.
    */
  datatype Admission = Admission(request: Request, open: bool, paused: bool, serial: nat, at: nat, heard: nat)

  datatype Message = EnterAttraction(visit: Option<Visit>) | ExitAttraction | Unknown

  /**
    * What can happen while the worker is blocked: the pause and resume signals, the closing of the park, time
    * passing, a client taking a token from a slot's leave semaphore, and traffic on the mailbox.
    */
  datatype Event = Pause | Resume | Close | Elapse(seconds: nat) | Leave(slot: nat) | Mail(traffic: Traffic<Message>)

  type Shake = Handshake<Event>

  /**
    * What the environment decides: the outcome of every handshake, and the events of the log line that follows the
    * installation of a round, both numbered by the requests handled before.
    */
  datatype Script = Script(shakes: nat -> Shake, logs: nat -> seq<Event>)

  /** History of one release: who was let go, when, and whether the worker was paused. */
  datatype Freed = Freed(round: Round, at: nat, paused: bool)

  /** History of a pause: the worker's requests and round count at its beginning. */
  datatype Mark = Mark(queue: seq<Request>, handled: seq<Request>, serial: nat)

  datatype Sched = Sched(
    open: bool, paused: bool, now: nat, waiting: Option<int>,
    slots: seq<Option<Round>>, leave: seq<nat>,
    queue: seq<Request>, ch: Channel<Message>,
    arrived: seq<Request>, handled: seq<Request>, admitted: set<Admission>,
    freed: seq<Freed>, serial: nat, held: Mark)

  function Start(cfg: Config, now: nat): Sched {
    Sched(true, false, now, None, seq(cfg.handlers, i => None), seq(cfg.handlers, i => 0),
          [], Empty(), [], [], {}, [], 0, Mark([], [], 0))
  }

  // ----- Releasing -----

  /** Destroying a round releases its clients: one token for each registered pid. */
  function Free(s: Sched, i: nat): Sched
    requires i < |s.slots| == |s.leave| && s.slots[i].Some?
  {
    var r := s.slots[i].value;
    s.(slots := s.slots[i := None],
       leave := s.leave[i := s.leave[i] + if r.released then 0 else |r.clients|],
       freed := s.freed + [Freed(r, s.now, s.paused)])
  }

  function SweepSlot(s: Sched, i: nat, all: bool): Sched
    requires i < |s.slots| == |s.leave|
  {
    if s.slots[i].Some? && (all || Over(s.slots[i].value, s.now)) then Free(s, i) else s
  }

  /** Empties, from slot i on, every slot or every slot whose round is over. */
  function SweepFrom(s: Sched, i: nat, all: bool): (r: Sched)
    requires i <= |s.slots| == |s.leave|
    ensures r == s.(slots := r.slots, leave := r.leave, freed := r.freed)
    ensures |r.slots| == |r.leave| == |s.slots|
    decreases |s.slots| - i
  {
    if i == |s.slots| then s else SweepFrom(SweepSlot(s, i, all), i + 1, all)
  }

  // ----- Events -----

  /** A second pause signal does not begin another pause. */
  function BeginPause(s: Sched): Sched {
    s.(paused := true, held := if s.paused then s.held else Mark(s.queue, s.handled, s.serial))
  }

  function Deliver(s: Sched, e: Event): (r: Sched)
    requires |s.slots| == |s.leave|
    ensures |r.slots| == |r.leave| == |s.slots|
    ensures r == s.(open := r.open, paused := r.paused, now := r.now, slots := r.slots, leave := r.leave,
                    ch := r.ch, freed := r.freed, held := r.held)
  {
    match e
    case Pause => SweepFrom(BeginPause(s), 0, true)
    case Resume => s.(paused := false)
    case Close => s.(open := false)
    case Elapse(d) => s.(now := s.now + d)
    case Leave(i) => if i < |s.leave| && s.leave[i] > 0 then s.(leave := s.leave[i := s.leave[i] - 1]) else s
    case Mail(t) => s.(ch := Step(s.ch, t))
  }

  function DeliverAll(s: Sched, es: seq<Event>): (r: Sched)
    requires |s.slots| == |s.leave|
    ensures |r.slots| == |r.leave| == |s.slots|
    ensures r == s.(open := r.open, paused := r.paused, now := r.now, slots := r.slots, leave := r.leave,
                    ch := r.ch, freed := r.freed, held := r.held)
    decreases |es|
  {
    if es == [] then s else DeliverAll(Deliver(s, es[0]), es[1..])
  }

  // ----- Registration -----

  predicate Allowed(cfg: Config, s: Sched, v: Visit) {
    s.open && !s.paused && Meets(cfg, v.person, v.child, v.hasChild)
  }

  ghost predicate Fits(cfg: Config, r: Round, v: Visit) {
    Load(r.clients) + Weight(v.hasChild) <= cfg.capacity
  }

  ghost predicate Refused(cfg: Config, s: Sched, r: Round, q: Request) {
    q.visit.Some? && Allowed(cfg, s, q.visit.value) && !Fits(cfg, r, q.visit.value)
  }

  /** Offers request q a place in the new round r. False as the third result leaves the request in the queue. */
  ghost function Register(cfg: Config, s: Sched, r: Round, q: Request, h: Shake): (res: (Sched, Round, bool))
    requires |s.slots| == |s.leave|
    ensures |res.0.slots| == |res.0.leave| == |s.slots|
    ensures res.0 == s.(open := res.0.open, paused := res.0.paused, now := res.0.now, slots := res.0.slots,
                        leave := res.0.leave, ch := res.0.ch, freed := res.0.freed, held := res.0.held,
                        admitted := res.0.admitted)
    ensures !res.2 <==> Refused(cfg, s, r, q)
    ensures !res.2 ==> res.0 == s && res.1 == r
  {
    if q.visit.None? then (s, r, true)
    else
      var v := q.visit.value;
      var allowed := Allowed(cfg, s, v);
      if !Fits(cfg, r, v) && allowed then (s, r, false)
      else match h
        case Missing => (s, r, true)
        case Unsent(posting) => (DeliverAll(s, posting), r, true)
        case Sent(posting, reply, awaiting) =>
          var s1 := DeliverAll(s, posting);
          if !allowed then (s1, r, true)
          else
            var s2 := DeliverAll(s1, awaiting);
            if reply.Ack?
            then (s2.(admitted := s2.admitted +
                        {Admission(q, s.open, s.paused, r.serial, |s.handled|, |s2.ch.received|)}),
                  Board(r, q.pid, Guest(v.hasChild, FromPark)), true)
            else (s2, r, true)
  }

  function Take(s: Sched): Sched
    requires s.queue != []
  {
    s.(queue := s.queue[1..], handled := s.handled + [s.queue[0]])
  }

  /** Serves requests from the front of the queue until one is refused for want of room. */
  ghost function Fill(cfg: Config, s: Sched, r: Round, env: Script): (res: (Sched, Round))
    requires |s.slots| == |s.leave|
    ensures |res.0.slots| == |res.0.leave| == |s.slots|
    ensures |res.0.queue| <= |s.queue|
    ensures |res.0.queue| == |s.queue| ==> res == (s, r)
    ensures res.0.queue == [] || Refused(cfg, res.0, res.1, res.0.queue[0])
    ensures res.0.serial == s.serial && res.0.waiting == s.waiting && res.0.arrived == s.arrived
    decreases |s.queue|
  {
    if s.queue == [] then (s, r)
    else
      var (s1, r1, served) := Register(cfg, s, r, s.queue[0], env.shakes(|s.handled|));
      if served then Fill(cfg, Take(s1), r1, env) else (s1, r1)
  }

  // ----- The slots -----

  /** The first free slot at or after i. */
  function FirstFree(slots: seq<Option<Round>>, i: nat): Option<nat>
    requires i <= |slots|
    decreases |slots| - i
  {
    if i == |slots| then None
    else if slots[i].None? then Some(i)
    else FirstFree(slots, i + 1)
  }

  lemma {:induction false} FirstFreeIsFree(slots: seq<Option<Round>>, i: nat)
    requires i <= |slots|
    ensures var f := FirstFree(slots, i);
            if f.Some?
            then i <= f.value < |slots| && slots[f.value].None? && forall j :: i <= j < f.value ==> slots[j].Some?
            else forall j :: i <= j < |slots| ==> slots[j].Some?
    decreases |slots| - i
  {
    if i < |slots| && slots[i].Some? {
      FirstFreeIsFree(slots, i + 1);
    }
  }

  /** Constructing a round resets the leave semaphore of its slot. */
  function Construct(s: Sched, i: nat): Sched
    requires i < |s.leave|
  {
    s.(leave := s.leave[i := 0], serial := s.serial + 1)
  }

  /** Installs a round that someone boarded; otherwise the round is destroyed, which releases nobody. */
  function Conclude(cfg: Config, s: Sched, r: Round, i: nat): Sched
    requires i < |s.slots| == |s.leave|
  {
    if r.clients != map[]
    then s.(slots := s.slots[i := Some(Begin(r, s.now, cfg.duration))], leave := s.leave[i := 0])
    else s.(freed := s.freed + [Freed(r, s.now, s.paused)])
  }

  /** The worker, and the new round for slot i, once the queue has been served. */
  ghost function Prepare(cfg: Config, s: Sched, i: nat, env: Script): (res: (Sched, Round))
    requires i < |s.slots| == |s.leave|
    ensures |res.0.slots| == |res.0.leave| == |s.slots|
    ensures |res.0.queue| <= |s.queue|
    ensures |res.0.queue| == |s.queue| ==> res.1.clients == map[]
    ensures res.0.serial == s.serial + 1 && res.0.arrived == s.arrived
  {
    Fill(cfg, Construct(s, i), Fresh(s.serial), env)
  }

  /** Fills the first free slot; the second result says whether someone boarded. */
  ghost function NewRound(cfg: Config, s: Sched, env: Script): (res: (Sched, bool))
    requires |s.slots| == |s.leave|
    ensures |res.0.slots| == |res.0.leave| == |s.slots|
    ensures res.1 ==> |res.0.queue| < |s.queue|
  {
    if s.paused then (s, false)
    else
      var free := FirstFree(s.slots, 0);
      if free.None? then (s, false)
      else
        FirstFreeIsFree(s.slots, 0);
        var i := free.value;
        var (s1, r) := Prepare(cfg, s, i, env);
        (Conclude(cfg, s1, r, i), r.clients != map[])
  }

  /** One call of pCreateNewHandler, which ends with a log line if it has installed a round. */
  ghost function CreateRound(cfg: Config, s: Sched, env: Script): (res: (Sched, bool))
    requires |s.slots| == |s.leave|
    ensures |res.0.slots| == |res.0.leave| == |s.slots|
    ensures res.1 ==> |res.0.queue| < |s.queue|
  {
    var (s1, made) := NewRound(cfg, s, env);
    (if made then DeliverAll(s1, env.logs(|s1.handled|)) else s1, made)
  }

  /** The creation loop. It terminates because every round that is installed has used up a request. */
  ghost function CreateRounds(cfg: Config, s: Sched, env: Script): (r: Sched)
    requires |s.slots| == |s.leave|
    ensures |r.slots| == |r.leave| == |s.slots|
    decreases |s.queue|
  {
    var (s1, made) := CreateRound(cfg, s, env);
    if made then CreateRounds(cfg, s1, env) else s1
  }

  // ----- The mailbox -----

  /** An early exit leaves the first round, in slot order, that has the pid. */
  function RemoveFrom(slots: seq<Option<Round>>, i: nat, pid: Pid): (r: seq<Option<Round>>)
    requires i <= |slots|
    ensures |r| == |slots|
    decreases |slots| - i
  {
    if i == |slots| then slots
    else if slots[i].Some? && pid in slots[i].value.clients
    then slots[i := Some(slots[i].value.(clients := slots[i].value.clients - {pid}))]
    else RemoveFrom(slots, i + 1, pid)
  }

  function Handle(s: Sched, l: Letter<Message>): (r: Sched)
    ensures |r.slots| == |s.slots| && r.leave == s.leave
  {
    match l.body
    case EnterAttraction(visit) =>
      var q := Request(l.from, visit);
      s.(queue := s.queue + [q], arrived := s.arrived + [q])
    case ExitAttraction => s.(slots := RemoveFrom(s.slots, 0, l.from))
    case Unknown => s
  }

  function HandleMailbox(s: Sched, receiving: seq<Event>): (r: Sched)
    requires |s.slots| == |s.leave|
    ensures |r.slots| == |r.leave| == |s.slots|
  {
    var s1 := DeliverAll(s, receiving);
    var (ch, letter) := Receive(s1.ch);
    if letter.None? then s1.(ch := ch) else Handle(s1.(ch := ch), letter.value)
  }

  /** A paused worker has used up its token without looking into its mailbox. */
  ghost function HandleAttraction(cfg: Config, s: Sched, receiving: seq<Event>, env: Script): (r: Sched)
    requires |s.slots| == |s.leave|
    ensures |r.slots| == |r.leave| == |s.slots|
  {
    if s.paused then s.(ch := Skip(s.ch))
    else
      var s1 := HandleMailbox(s, receiving);
      if |s1.queue| > cfg.capacity || s1.ch.box == [] then CreateRounds(cfg, s1, env) else s1
  }

  // ----- The main loop -----

  function MinFinish(slots: seq<Option<Round>>): Option<int> {
    if slots == [] then None
    else
      var n := |slots| - 1;
      var m := MinFinish(slots[..n]);
      if slots[n].None? || slots[n].value.finish == 0 then m
      else if m.None? || slots[n].value.finish < m.value then Some(slots[n].value.finish)
      else m
  }

  function NextTimeout(s: Sched): int {
    var m := MinFinish(s.slots);
    if m.Some? then m.value - s.now else -1
  }

  datatype Pass = Pass(asleep: seq<Event>, interrupted: bool, expired: bool, receiving: seq<Event>, between: seq<Event>)

  predicate Finished(s: Sched) {
    s.waiting.None? && !s.open
  }

  ghost function Work(cfg: Config, s: Sched, p: Pass, env: Script): (r: Sched)
    requires |s.slots| == |s.leave|
    ensures |r.slots| == |r.leave| == |s.slots|
  {
    DeliverAll(HandleAttraction(cfg, SweepFrom(s, 0, false), p.receiving, env), p.between)
  }

  /** One pass of Run. A pass whose wait does not return leaves the worker waiting with the timeout it chose. */
  ghost function Iterate(cfg: Config, s: Sched, p: Pass, env: Script): (r: Sched)
    requires |s.slots| == |s.leave|
    ensures |r.slots| == |r.leave| == |s.slots|
  {
    if Finished(s) then s
    else
      var timeout := if s.waiting.Some? then s.waiting.value else NextTimeout(s);
      var s1 := DeliverAll(s.(waiting := Some(timeout)), p.asleep);
      match Wait(s1.ch, timeout, p.interrupted, p.expired)
      case None => s1
      case Some(ch) => Work(cfg, s1.(waiting := None, ch := ch), p, env)
  }

  ghost function Run(cfg: Config, s: Sched, ps: seq<Pass>, env: Script): (r: Sched)
    requires |s.slots| == |s.leave|
    ensures |r.slots| == |r.leave| == |s.slots|
    decreases |ps|
  {
    if ps == [] then s else Run(cfg, Iterate(cfg, s, ps[0], env), ps[1..], env)
  }

  /** Closing the process destroys the rounds that still run. */
  function Shutdown(s: Sched): Sched
    requires |s.slots| == |s.leave|
  {
    SweepFrom(s, 0, true)
  }
}
