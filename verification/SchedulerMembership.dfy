/** Who rides: what each letter does to the slots and to the queue, and what that comes to over a run. */
module SchedulerMembership {
  import opened Common
  import opened Mailbox
  import opened Rounds
  import opened Layout
  import opened SchedulerSpec
  import opened SchedulerProofs
  import opened SchedulerTheorems
  import opened SchedulerWaits

  // ----- One letter -----

  ghost predicate Rides(slots: seq<Option<Round>>, j: nat, pid: Pid) {
    j < |slots| && slots[j].Some? && pid in slots[j].value.clients
  }

  /** The round of slot k without the pid, and nothing else changed. */
  function Without(slots: seq<Option<Round>>, k: nat, pid: Pid): seq<Option<Round>>
    requires k < |slots| && slots[k].Some?
  {
    slots[k := Some(slots[k].value.(clients := slots[k].value.clients - {pid}))]
  }

  ghost predicate FirstRide(slots: seq<Option<Round>>, i: nat, k: nat, pid: Pid) {
    i <= k && Rides(slots, k, pid) && forall j :: i <= j < k ==> !Rides(slots, j, pid)
  }

  /** An early exit takes the pid out of the first round that has it, and leaves every other round and rider alone. */
  lemma {:induction false} RemoveFromExactly(slots: seq<Option<Round>>, i: nat, k: nat, pid: Pid)
    requires i <= |slots|
    ensures FirstRide(slots, i, k, pid) ==> RemoveFrom(slots, i, pid) == Without(slots, k, pid)
    ensures (forall j: nat :: i <= j ==> !Rides(slots, j, pid)) ==> RemoveFrom(slots, i, pid) == slots
    decreases |slots| - i
  {
    if i < |slots| {
      if Rides(slots, i, pid) {
      } else {
        RemoveFromExactly(slots, i + 1, k, pid);
      }
    }
  }

  lemma {:induction false} FirstRideExists(slots: seq<Option<Round>>, i: nat, k: nat, pid: Pid) returns (f: nat)
    requires i <= k && Rides(slots, k, pid)
    ensures f <= k && FirstRide(slots, i, f, pid)
    decreases k - i
  {
    if Rides(slots, i, pid) {
      f := i;
    } else {
      f := FirstRideExists(slots, i + 1, k, pid);
    }
  }

  /** One letter: a request joins the queue, an exit takes its sender out of the first round k that has it. */
  lemma LetterExactly(s: Sched, l: Letter<Message>, k: nat)
    ensures var r := Handle(s, l);
            match l.body
            case EnterAttraction(visit) =>
              r == s.(queue := s.queue + [Request(l.from, visit)], arrived := s.arrived + [Request(l.from, visit)])
            case ExitAttraction =>
              && (FirstRide(s.slots, 0, k, l.from) ==> r == s.(slots := Without(s.slots, k, l.from)))
              && ((forall j: nat :: !Rides(s.slots, j, l.from)) ==> r == s)
            case Unknown => r == s
  {
    if l.body.ExitAttraction? {
      RemoveFromExactly(s.slots, 0, k, l.from);
    }
  }

  /**
    * What the worker does with its mailbox: at most one letter is read; a request is queued, well-formed or not; an
    * exit takes its sender out of the first round k that has it; and nothing else changes.
    */
  lemma MailboxExactly(s: Sched, receiving: seq<Event>, k: nat)
    requires |s.slots| == |s.leave|
    ensures var s1, r := DeliverAll(s, receiving), HandleMailbox(s, receiving);
            if s1.ch.box == [] then r == s1.(ch := s1.ch.(hand := false))
            else
              var l := s1.ch.box[0];
              var s2 := s1.(ch := s1.ch.(box := s1.ch.box[1..], hand := false, received := s1.ch.received + [l]));
              && (l.body.EnterAttraction? ==>
                   var q := Request(l.from, l.body.visit);
                   r == s2.(queue := s.queue + [q], arrived := s.arrived + [q]))
              && (l.body.ExitAttraction? && FirstRide(s1.slots, 0, k, l.from) ==>
                   r == s2.(slots := Without(s1.slots, k, l.from)))
              && (l.body.ExitAttraction? && (forall j: nat :: !Rides(s1.slots, j, l.from)) ==> r == s2)
              && (l.body.Unknown? ==> r == s2)
  {
    hide DeliverAll, Handle, FirstRide, Rides;
    var s1 := DeliverAll(s, receiving);
    if s1.ch.box != [] {
      LetterExactly(s1.(ch := Receive(s1.ch).0), s1.ch.box[0], k);
    }
  }

  // ----- What is recorded -----

  ghost function AsRequest(l: Letter<Message>): seq<Request> {
    if l.body.EnterAttraction? then [Request(l.from, l.body.visit)] else []
  }

  /** The requests among some letters, in order. */
  ghost function Requests(ls: seq<Letter<Message>>): seq<Request> {
    if ls == [] then [] else Requests(ls[..|ls| - 1]) + AsRequest(ls[|ls| - 1])
  }

  ghost predicate Noticed(s: Sched) {
    s.arrived == Requests(s.ch.received)
  }

  lemma EventKeepsReceived(s: Sched, e: Event)
    requires |s.slots| == |s.leave|
    ensures Deliver(s, e).ch.received == s.ch.received
  {}

  lemma {:induction false} EventsKeepReceived(s: Sched, es: seq<Event>)
    requires |s.slots| == |s.leave|
    ensures DeliverAll(s, es).ch.received == s.ch.received
    decreases |es|
  {
    hide Deliver;
    if es != [] {
      EventKeepsReceived(s, es[0]);
      EventsKeepReceived(Deliver(s, es[0]), es[1..]);
    }
  }

  // ----- Riders and admissions -----

  /** An exit of p has been read since n letters had been. */
  ghost predicate Exited(received: seq<Letter<Message>>, p: Pid, n: nat) {
    exists i :: n <= i < |received| && received[i].from == p && received[i].body.ExitAttraction?
  }

  /**
    * Whoever was admitted to the round and has sent no exit since is still there; whoever is there in spite of an exit
    * has been admitted another time.
    */
  ghost predicate Manned(r: Round, admitted: set<Admission>, received: seq<Letter<Message>>) {
    forall a <- admitted :: a.serial == r.serial ==>
      var p := a.request.pid;
      && (!Exited(received, p, a.heard) ==> p in r.clients)
      && (Exited(received, p, a.heard) && p in r.clients ==> exists b <- admitted :: b != a && b.request.pid == p)
  }

  /** The riders of a round under construction are all those admitted to it. */
  ghost predicate Filling(r: Round, admitted: set<Admission>, received: seq<Letter<Message>>) {
    forall a <- admitted :: a.serial == r.serial ==> a.request.pid in r.clients && a.heard == |received|
  }

  /** No installed round has the serial number bound or a later one, and no admission has one after it. */
  ghost predicate Tied(slots: seq<Option<Round>>, admitted: set<Admission>, received: seq<Letter<Message>>,
                       bound: nat) {
    && (forall a <- admitted :: a.serial <= bound && a.heard <= |received|)
    && forall i :: 0 <= i < |slots| && slots[i].Some? ==>
         slots[i].value.serial < bound && Manned(slots[i].value, admitted, received)
  }

  /** Slots are only emptied. */
  ghost predicate OnlyGo(slots: seq<Option<Round>>, later: seq<Option<Round>>) {
    |later| == |slots| && forall j :: 0 <= j < |slots| ==> later[j].None? || later[j] == slots[j]
  }

  lemma SweepOnlyGoes(s: Sched, all: bool)
    requires |s.slots| == |s.leave|
    ensures OnlyGo(s.slots, SweepFrom(s, 0, all).slots)
  {
    SweepEffect(s, all);
  }

  lemma {:induction false} EventsOnlyGo(s: Sched, es: seq<Event>)
    requires |s.slots| == |s.leave|
    ensures OnlyGo(s.slots, DeliverAll(s, es).slots)
    decreases |es|
  {
    hide SweepFrom;
    if es != [] {
      if es[0].Pause? {
        SweepOnlyGoes(BeginPause(s), true);
      }
      EventsOnlyGo(Deliver(s, es[0]), es[1..]);
    }
  }

  lemma GoingKeepsTied(slots: seq<Option<Round>>, later: seq<Option<Round>>, admitted: set<Admission>,
                       received: seq<Letter<Message>>, bound: nat)
    requires Tied(slots, admitted, received, bound) && OnlyGo(slots, later)
    ensures Tied(later, admitted, received, bound)
  {
    hide Manned;
  }

  /** The same of a state, between the rounds it fills. */
  ghost predicate Known(s: Sched) {
    && Noticed(s) && Tied(s.slots, s.admitted, s.ch.received, s.serial)
    && forall a <- s.admitted :: a.serial < s.serial
  }

  lemma EventsKeepTied(s: Sched, es: seq<Event>, bound: nat)
    requires |s.slots| == |s.leave| && Tied(s.slots, s.admitted, s.ch.received, bound)
    ensures var r := DeliverAll(s, es);
            && Tied(r.slots, r.admitted, r.ch.received, bound) && r.ch.received == s.ch.received
            && r.arrived == s.arrived
  {
    EventsKeepReceived(s, es);
    EventsOnlyGo(s, es);
    GoingKeepsTied(s.slots, DeliverAll(s, es).slots, s.admitted, s.ch.received, bound);
  }

  lemma EventsKeepKnown(s: Sched, es: seq<Event>)
    requires |s.slots| == |s.leave| && Known(s)
    ensures Known(DeliverAll(s, es))
  {
    hide Tied;
    EventsKeepTied(s, es, s.serial);
  }

  lemma AdmissionKeepsTied(slots: seq<Option<Round>>, admitted: set<Admission>, received: seq<Letter<Message>>,
                           r: Round, g: Rider, a: Admission)
    requires Tied(slots, admitted, received, r.serial) && Filling(r, admitted, received)
    requires a.serial == r.serial && a.heard == |received|
    ensures Tied(slots, admitted + {a}, received, r.serial)
    ensures Filling(Board(r, a.request.pid, g), admitted + {a}, received)
  {
    forall i | 0 <= i < |slots| && slots[i].Some?
      ensures Manned(slots[i].value, admitted + {a}, received)
    {
      assert Manned(slots[i].value, admitted, received);
    }
  }

  lemma RegisterKeepsTied(cfg: Config, s: Sched, r: Round, q: Request, h: Shake)
    requires |s.slots| == |s.leave| && Tied(s.slots, s.admitted, s.ch.received, r.serial)
    requires Filling(r, s.admitted, s.ch.received)
    ensures var (s1, r1, _) := Register(cfg, s, r, q, h);
            && Tied(s1.slots, s1.admitted, s1.ch.received, r.serial) && Filling(r1, s1.admitted, s1.ch.received)
            && r1.serial == r.serial && s1.ch.received == s.ch.received
  {
    hide Tied, Filling, DeliverAll;
    if Register(cfg, s, r, q, h).2 && q.visit.Some? && !h.Missing? {
      var s1 := DeliverAll(s, h.posting);
      EventsKeepTied(s, h.posting, r.serial);
      if h.Sent? && Allowed(cfg, s, q.visit.value) {
        var s2 := DeliverAll(s1, h.awaiting);
        EventsKeepTied(s1, h.awaiting, r.serial);
        if h.reply.Ack? {
          AdmissionKeepsTied(s2.slots, s2.admitted, s2.ch.received, r, Guest(q.visit.value.hasChild, FromPark),
                             Admission(q, s.open, s.paused, r.serial, |s.handled|, |s2.ch.received|));
        }
      }
    }
  }

  lemma {:induction false} FillKeepsTied(cfg: Config, s: Sched, r: Round, env: Script)
    requires |s.slots| == |s.leave| && Tied(s.slots, s.admitted, s.ch.received, r.serial)
    requires Filling(r, s.admitted, s.ch.received)
    ensures var (s1, r1) := Fill(cfg, s, r, env);
            && Tied(s1.slots, s1.admitted, s1.ch.received, r.serial) && Filling(r1, s1.admitted, s1.ch.received)
            && r1.serial == r.serial && s1.ch.received == s.ch.received
    decreases |s.queue|
  {
    hide Tied, Filling, Register;
    if s.queue != [] {
      RegisterKeepsTied(cfg, s, r, s.queue[0], env.shakes(|s.handled|));
      var (s1, r1, served) := Register(cfg, s, r, s.queue[0], env.shakes(|s.handled|));
      if served {
        FillKeepsTied(cfg, Take(s1), r1, env);
      }
    }
  }

  lemma InstallKeepsTied(slots: seq<Option<Round>>, admitted: set<Admission>, received: seq<Letter<Message>>, i: nat,
                         r: Round, b: Round)
    requires Tied(slots, admitted, received, r.serial) && Filling(r, admitted, received) && i < |slots|
    requires b.clients == r.clients && b.serial == r.serial
    ensures Tied(slots, admitted, received, r.serial + 1)
    ensures Tied(slots[i := Some(b)], admitted, received, r.serial + 1)
  {
    assert Manned(b, admitted, received);
    hide Manned;
  }

  lemma NewRoundKeepsKnown(cfg: Config, s: Sched, env: Script)
    requires |s.slots| == |s.leave| && Known(s)
    ensures Known(NewRound(cfg, s, env).0)
  {
    hide Tied, Filling, Fill;
    FirstFreeIsFree(s.slots, 0);
    var free := FirstFree(s.slots, 0);
    if !s.paused && free.Some? {
      var i, f := free.value, Fresh(s.serial);
      NobodyFills(f, s.admitted, s.ch.received);
      FillKeepsTied(cfg, Construct(s, i), f, env);
      var (s1, r) := Prepare(cfg, s, i, env);
      InstallKeepsTied(s1.slots, s1.admitted, s1.ch.received, i, r, Begin(r, s1.now, cfg.duration));
      TiedBounds(s1.slots, s1.admitted, s1.ch.received, s.serial);
    }
  }

  lemma NobodyFills(r: Round, admitted: set<Admission>, received: seq<Letter<Message>>)
    requires forall a <- admitted :: a.serial < r.serial
    ensures Filling(r, admitted, received)
  {}

  lemma TiedBounds(slots: seq<Option<Round>>, admitted: set<Admission>, received: seq<Letter<Message>>, bound: nat)
    requires Tied(slots, admitted, received, bound)
    ensures forall a <- admitted :: a.serial < bound + 1
  {}

  lemma {:induction false} CreationKeepsKnown(cfg: Config, s: Sched, env: Script)
    requires |s.slots| == |s.leave| && Known(s)
    ensures Known(CreateRounds(cfg, s, env))
    decreases |s.queue|
  {
    hide Known, NewRound, DeliverAll;
    NewRoundKeepsKnown(cfg, s, env);
    var (s1, made) := NewRound(cfg, s, env);
    if made {
      EventsKeepKnown(s1, env.logs(|s1.handled|));
      CreationKeepsKnown(cfg, CreateRound(cfg, s, env).0, env);
    }
  }

  /** Reading a letter that is no exit, or the exit of somebody who is not in the round. */
  lemma ReadKeepsManned(r: Round, admitted: set<Admission>, received: seq<Letter<Message>>, l: Letter<Message>)
    requires Manned(r, admitted, received) && (l.body.ExitAttraction? ==> l.from !in r.clients)
    ensures Manned(r, admitted, received + [l])
  {
    forall a <- admitted
      ensures Exited(received + [l], a.request.pid, a.heard) <==>
                Exited(received, a.request.pid, a.heard)
                || (a.heard <= |received| && l.body.ExitAttraction? && l.from == a.request.pid)
    {
      ExitedLater(received, l, a.request.pid, a.heard);
    }
  }

  lemma ExitedLater(received: seq<Letter<Message>>, l: Letter<Message>, p: Pid, n: nat)
    ensures Exited(received + [l], p, n) <==>
              Exited(received, p, n) || (n <= |received| && l.body.ExitAttraction? && l.from == p)
  {
    var more := received + [l];
    assert more[|received|] == l;
    if i :| n <= i < |received| && received[i].from == p && received[i].body.ExitAttraction? {
      assert more[i] == received[i];
    }
  }

  /** The exit of a rider: the round it leaves, and another one that it is in. */
  lemma ExitKeepsManned(r: Round, admitted: set<Admission>, received: seq<Letter<Message>>, l: Letter<Message>)
    requires Manned(r, admitted, received) && l.body.ExitAttraction?
    requires forall a <- admitted :: a.heard <= |received|
    ensures Manned(r.(clients := r.clients - {l.from}), admitted, received + [l])
    ensures (exists b <- admitted :: b.request.pid == l.from && b.serial != r.serial) ==>
              Manned(r, admitted, received + [l])
  {
    forall a <- admitted
      ensures Exited(received + [l], a.request.pid, a.heard) <==>
                Exited(received, a.request.pid, a.heard) || l.from == a.request.pid
    {
      ExitedLater(received, l, a.request.pid, a.heard);
    }
  }

  /** The letter's sender, if it is an exit, leaves slot k, where it has been admitted. */
  lemma LetterKeepsTied(slots: seq<Option<Round>>, admitted: set<Admission>, received: seq<Letter<Message>>, bound: nat,
                        l: Letter<Message>, k: nat)
    requires Tied(slots, admitted, received, bound)
    requires l.body.ExitAttraction? && Rides(slots, k, l.from) && Riders(slots[k].value, admitted)
    requires forall j :: 0 <= j < |slots| && j != k && slots[j].Some? ==> slots[j].value.serial != slots[k].value.serial
    ensures Tied(Without(slots, k, l.from), admitted, received + [l], bound)
  {
    var more := Without(slots, k, l.from);
    var b :| b in admitted && b.request.pid == l.from && b.serial == slots[k].value.serial;
    forall j | 0 <= j < |more| && more[j].Some?
      ensures more[j].value.serial < bound && Manned(more[j].value, admitted, received + [l])
    {
      assert Manned(slots[j].value, admitted, received);
      ExitKeepsManned(slots[j].value, admitted, received, l);
    }
  }

  lemma OtherLetterKeepsTied(slots: seq<Option<Round>>, admitted: set<Admission>, received: seq<Letter<Message>>,
                             bound: nat, l: Letter<Message>)
    requires Tied(slots, admitted, received, bound)
    requires l.body.ExitAttraction? ==> forall j: nat :: !Rides(slots, j, l.from)
    ensures Tied(slots, admitted, received + [l], bound)
  {
    forall j | 0 <= j < |slots| && slots[j].Some?
      ensures Manned(slots[j].value, admitted, received + [l])
    {
      assert !l.body.ExitAttraction? || !Rides(slots, j, l.from);
      ReadKeepsManned(slots[j].value, admitted, received, l);
    }
  }

  lemma RequestsLater(ls: seq<Letter<Message>>, l: Letter<Message>)
    ensures Requests(ls + [l]) == Requests(ls) + AsRequest(l)
  {
    assert (ls + [l])[..|ls|] == ls;
  }

  lemma LetterKeepsKnown(cfg: Config, s: Sched, l: Letter<Message>, ch: Channel<Message>)
    requires Sound(cfg, s, s.serial) && Known(s) && ch.received == s.ch.received + [l]
    ensures Known(Handle(s.(ch := ch), l))
  {
    hide Tied, AdmittedSound, AllFair, Balanced, Requests, AsRequest, RemoveFrom, Riders, Rides, FirstRide;
    RequestsLater(s.ch.received, l);
    if l.body.ExitAttraction? && exists k: nat :: Rides(s.slots, k, l.from) {
      var k: nat :| Rides(s.slots, k, l.from);
      var f := FirstRideExists(s.slots, 0, k, l.from);
      RemoveFromExactly(s.slots, 0, f, l.from);
      FirstRideRides(s.slots, f, l.from);
      LetterKeepsTied(s.slots, s.admitted, s.ch.received, s.serial, l, f);
      assert AsRequest(l) == [] by {
        NoRequest(l);
      }
    } else {
      if l.body.ExitAttraction? {
        RemoveFromExactly(s.slots, 0, 0, l.from);
        NoRequest(l);
      }
      OtherLetterKeepsTied(s.slots, s.admitted, s.ch.received, s.serial, l);
      assert AsRequest(l) == if l.body.EnterAttraction? then [Request(l.from, l.body.visit)] else [] by {
        NoRequest(l);
      }
    }
  }

  lemma FirstRideRides(slots: seq<Option<Round>>, f: nat, pid: Pid)
    requires FirstRide(slots, 0, f, pid)
    ensures Rides(slots, f, pid) && f < |slots| && slots[f].Some?
  {}

  lemma NoRequest(l: Letter<Message>)
    ensures AsRequest(l) == if l.body.EnterAttraction? then [Request(l.from, l.body.visit)] else []
  {}

  lemma MailboxKeepsKnown(cfg: Config, s: Sched, receiving: seq<Event>)
    requires Sound(cfg, s, s.serial) && Known(s)
    ensures Known(HandleMailbox(s, receiving))
  {
    hide Known, DeliverAll, Handle, SlotsSound, AdmittedSound, Once, AllFair, Balanced;
    EventsKeepKnown(s, receiving);
    DeliverAllKeeps(cfg, s, receiving, s.serial);
    var s1 := DeliverAll(s, receiving);
    var (ch, letter) := Receive(s1.ch);
    if letter.Some? {
      LetterKeepsKnown(cfg, s1, letter.value, ch);
    } else {
      SameKnown(s1, s1.(ch := ch));
    }
  }

  lemma SameKnown(s: Sched, r: Sched)
    requires Known(s)
    requires r.slots == s.slots && r.admitted == s.admitted && r.arrived == s.arrived && r.serial == s.serial
    requires r.ch.received == s.ch.received
    ensures Known(r)
  {}

  lemma SweepKeepsKnown(s: Sched)
    requires |s.slots| == |s.leave| && Known(s)
    ensures Known(SweepFrom(s, 0, false))
  {
    hide Tied;
    SweepOnlyGoes(s, false);
    GoingKeepsTied(s.slots, SweepFrom(s, 0, false).slots, s.admitted, s.ch.received, s.serial);
  }

  lemma WorkKeepsKnown(cfg: Config, s: Sched, p: Pass, env: Script)
    requires Sound(cfg, s, s.serial) && Known(s)
    ensures Known(Work(cfg, s, p, env))
  {
    hide Known, DeliverAll, HandleMailbox, CreateRounds, SlotsSound, AdmittedSound, Once, AllFair, Balanced, SweepFrom;
    SweepKeepsKnown(s);
    SweepKeeps(cfg, s, 0, false, s.serial);
    var s1 := SweepFrom(s, 0, false);
    if s1.paused {
      SameKnown(s1, s1.(ch := Skip(s1.ch)));
    } else {
      MailboxKeepsKnown(cfg, s1, p.receiving);
      CreationKeepsKnown(cfg, HandleMailbox(s1, p.receiving), env);
    }
    EventsKeepKnown(HandleAttraction(cfg, s1, p.receiving, env), p.between);
  }

  lemma IterateKeepsKnown(cfg: Config, s: Sched, p: Pass, env: Script)
    requires Sound(cfg, s, s.serial) && Known(s) && !s.ch.hand
    ensures Known(Iterate(cfg, s, p, env))
  {
    hide Known, DeliverAll, Work, SlotsSound, AdmittedSound, Once, AllFair, Balanced;
    if !Finished(s) {
      var s0 := s.(waiting := Some(Timeout(s)));
      SameKnown(s, s0);
      SameRounds(cfg, s, s0, s.serial);
      EventsKeepKnown(s0, p.asleep);
      DeliverAllKeeps(cfg, s0, p.asleep, s.serial);
      var s1 := Asleep(s, p);
      WaitKeepsBalance(s1.ch, Timeout(s), p.interrupted, p.expired);
      var w := Wait(s1.ch, Timeout(s), p.interrupted, p.expired);
      if w.Some? {
        var s2 := s1.(waiting := None, ch := w.value);
        SameKnown(s1, s2);
        SameRounds(cfg, s1, s2, s.serial);
        WorkKeepsKnown(cfg, s2, p, env);
      }
    }
  }

  lemma {:induction false} RunKeepsKnown(cfg: Config, s: Sched, ps: seq<Pass>, env: Script)
    requires Usable(cfg) && Sound(cfg, s, s.serial) && Known(s) && !s.ch.hand
    ensures Known(Run(cfg, s, ps, env))
    decreases |ps|
  {
    hide Known, Iterate, SlotsSound, AdmittedSound, Once, AllFair, Balanced;
    if ps != [] {
      IterateKeepsKnown(cfg, s, ps[0], env);
      IterateKeeps(cfg, s, ps[0], env);
      RunKeepsKnown(cfg, Iterate(cfg, s, ps[0], env), ps[1..], env);
    }
  }

  /** p has been admitted to this round, and no exit of its own has been read since. */
  ghost predicate Stays(admitted: set<Admission>, received: seq<Letter<Message>>, r: Round, p: Pid) {
    exists a <- admitted :: a.request.pid == p && a.serial == r.serial && !Exited(received, p, a.heard)
  }

  ghost predicate AdmittedOnce(admitted: set<Admission>, p: Pid) {
    forall a <- admitted, b <- admitted :: a.request.pid == p && b.request.pid == p ==> a == b
  }

  /**
    * Over every run: a rider of a running round has been admitted to it, and stays at least until an exit of its own is
    * read. A pid that is admitted once rides exactly if it has sent no exit since; one that is in several rounds leaves
    * one of them with each exit.
    */
  lemma RidersExactly(cfg: Config, now: nat, ps: seq<Pass>, env: Script, i: nat, p: Pid)
    requires Usable(cfg)
    ensures var s := Run(cfg, Start(cfg, now), ps, env);
            i < |s.slots| && s.slots[i].Some? ==>
              var r := s.slots[i].value;
              && (Stays(s.admitted, s.ch.received, r, p) ==> p in r.clients)
              && (p in r.clients ==> exists a <- s.admitted :: a.request.pid == p && a.serial == r.serial)
              && (AdmittedOnce(s.admitted, p) ==> (p in r.clients <==> Stays(s.admitted, s.ch.received, r, p)))
  {
    hide Run, AdmittedSound, Once, AllFair, Balanced;
    StartIsSound(cfg, now);
    RunKeepsKnown(cfg, Start(cfg, now), ps, env);
    Reachable(cfg, now, ps, env);
    var s := Run(cfg, Start(cfg, now), ps, env);
    if i < |s.slots| && s.slots[i].Some? {
      assert Manned(s.slots[i].value, s.admitted, s.ch.received);
      assert Riders(s.slots[i].value, s.admitted);
    }
  }

  // ----- From post to service -----

  lemma {:induction false} RequestsConcat(a: seq<Letter<Message>>, b: seq<Letter<Message>>)
    ensures Requests(a + b) == Requests(a) + Requests(b)
  {
    if b == [] {
      assert a + b == a;
    } else {
      var n := |b| - 1;
      assert (a + b)[..|a| + n] == a + b[..n];
      RequestsConcat(a, b[..n]);
    }
  }

  /**
    * Clients post to an attraction with one priority. Over every run their requests, in the order of posting, are those
    * handled, then the queue, then those still unread.
    */
  lemma PostedInOrder(cfg: Config, now: nat, ps: seq<Pass>, env: Script)
    requires Usable(cfg)
    ensures var s := Run(cfg, Start(cfg, now), ps, env);
            Plain(s.ch.posted) ==> s.handled + s.queue + Requests(s.ch.box) == Requests(s.ch.posted)
  {
    hide Run, SlotsSound, AdmittedSound, Once, AllFair;
    StartIsSound(cfg, now);
    RunKeepsKnown(cfg, Start(cfg, now), ps, env);
    Reachable(cfg, now, ps, env);
    var s := Run(cfg, Start(cfg, now), ps, env);
    if Plain(s.ch.posted) {
      PlainInOrder(s.ch);
      RequestsConcat(s.ch.received, s.ch.box);
    }
  }
}
