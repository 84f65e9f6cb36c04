/** What an attraction's worker keeps, step by step, whatever signals, clients and handshakes do. */
module SchedulerProofs {
  import opened Common
  import opened Mailbox
  import opened Rounds
  import opened Layout
  import opened SchedulerSpec

  // ----- The invariant -----

  /** Every rider has been admitted to this round, with the same party size. */
  ghost predicate Riders(r: Round, admitted: set<Admission>) {
    forall p <- r.clients ::
      exists a <- admitted ::
        && a.request.pid == p && a.serial == r.serial
        && a.request.visit.Some? && a.request.visit.value.hasChild == r.clients[p].hasChild
  }

  ghost predicate Installed(cfg: Config, r: Round, admitted: set<Admission>) {
    r.started && !r.released && r.finish > 0 && Load(r.clients) <= cfg.capacity && Riders(r, admitted)
  }

  /** A round under construction. */
  ghost predicate Boarding(cfg: Config, r: Round, admitted: set<Admission>) {
    !r.started && !r.released && Load(r.clients) <= cfg.capacity && Riders(r, admitted)
  }

  /** Running rounds are within bounds, and nobody can pass a leave semaphore whose round is not released. */
  ghost predicate SlotsSound(cfg: Config, slots: seq<Option<Round>>, leave: seq<nat>, admitted: set<Admission>)
    requires |slots| == |leave|
  {
    forall i :: 0 <= i < |slots| && slots[i].Some? ==> Installed(cfg, slots[i].value, admitted) && leave[i] == 0
  }

  /** Every boarding was allowed: by an open, unpaused worker, and for a party that meets the criteria. */
  ghost predicate AdmittedSound(cfg: Config, admitted: set<Admission>) {
    forall a <- admitted ::
      && a.open && !a.paused && a.request.visit.Some?
      && var v := a.request.visit.value;
         Meets(cfg, v.person, v.child, v.hasChild)
  }

  /** No two rounds share a serial number below the bound, released or running: each is released at most once. */
  ghost predicate Once(slots: seq<Option<Round>>, freed: seq<Freed>, bound: nat) {
    && (forall i :: 0 <= i < |slots| && slots[i].Some? ==> slots[i].value.serial < bound)
    && (forall i, j :: 0 <= i < j < |slots| && slots[i].Some? && slots[j].Some? ==>
          slots[i].value.serial != slots[j].value.serial)
    && (forall k :: 0 <= k < |freed| ==> freed[k].round.serial < bound)
    && (forall k, l :: 0 <= k < l < |freed| ==> freed[k].round.serial != freed[l].round.serial)
    && (forall k, i :: 0 <= k < |freed| && 0 <= i < |slots| && slots[i].Some? ==>
          freed[k].round.serial != slots[i].value.serial)
  }

  /** Clients are let go only at the end of their round or by a pause. */
  ghost predicate Fair(f: Freed) {
    f.round.clients == map[] || f.at >= f.round.finish || f.paused
  }

  ghost predicate AllFair(freed: seq<Freed>) {
    forall k :: 0 <= k < |freed| ==> Fair(freed[k])
  }

  /** bound is the serial number that the next installed or discarded round will have. */
  ghost predicate Sound(cfg: Config, s: Sched, bound: nat) {
    && |s.slots| == |s.leave| == cfg.handlers
    && SlotsSound(cfg, s.slots, s.leave, s.admitted)
    && AdmittedSound(cfg, s.admitted)
    && Once(s.slots, s.freed, bound)
    && AllFair(s.freed)
    && s.handled + s.queue == s.arrived
    && Balanced(s.ch)
  }

  /** Slot i is free and its semaphore at zero, as it is from the construction of a round to its installation. */
  ghost predicate Vacant(s: Sched, i: nat) {
    i < |s.slots| == |s.leave| && s.slots[i].None? && s.leave[i] == 0
  }

  /**
    * How a state may develop: a round that already existed stays in its slot and only loses clients, releases are
    * only added, time does not run backwards and a closed park stays closed.
    */
  ghost predicate Evolves(s: Sched, r: Sched) {
    && |r.slots| == |s.slots|
    && s.serial <= r.serial && s.now <= r.now && s.freed <= r.freed && (r.open ==> s.open)
    && forall i :: 0 <= i < |r.slots| && r.slots[i].Some? && r.slots[i].value.serial < s.serial ==>
         && s.slots[i].Some?
         && r.slots[i].value.serial == s.slots[i].value.serial
         && r.slots[i].value.finish == s.slots[i].value.finish
         && r.slots[i].value.clients.Items <= s.slots[i].value.clients.Items
  }

  lemma EvolvesTransitive(a: Sched, b: Sched, c: Sched)
    requires Evolves(a, b) && Evolves(b, c)
    ensures Evolves(a, c)
  {}

  lemma EvolvesReflexive(s: Sched)
    ensures Evolves(s, s)
  {}

  /** Rounds, semaphores and history stay; the rest may change as far as it goes. */
  lemma SameRounds(cfg: Config, s: Sched, r: Sched, bound: nat)
    requires Sound(cfg, s, bound)
    requires r.slots == s.slots && r.leave == s.leave && r.admitted == s.admitted && r.freed == s.freed
    requires r.serial == s.serial && s.now <= r.now && (r.open ==> s.open)
    requires r.handled + r.queue == r.arrived && Balanced(r.ch)
    ensures Sound(cfg, r, bound) && Evolves(s, r)
  {}

  // ----- Releasing and events -----

  lemma FreeKeeps(cfg: Config, s: Sched, i: nat, bound: nat)
    requires Sound(cfg, s, bound) && i < |s.slots| && s.slots[i].Some?
    requires Over(s.slots[i].value, s.now) || s.paused
    ensures Sound(cfg, Free(s, i), bound) && Evolves(s, Free(s, i))
    ensures forall j :: Vacant(s, j) ==> Vacant(Free(s, i), j)
  {}

  lemma {:induction false} SweepKeeps(cfg: Config, s: Sched, i: nat, all: bool, bound: nat)
    requires Sound(cfg, s, bound) && i <= |s.slots|
    requires all ==> s.paused
    ensures var r := SweepFrom(s, i, all);
            && Sound(cfg, r, bound) && Evolves(s, r)
            && forall j :: Vacant(s, j) ==> Vacant(r, j)
    decreases |s.slots| - i
  {
    hide SlotsSound, AdmittedSound, Once, AllFair, Balanced, Evolves;
    EvolvesReflexive(s);
    if i < |s.slots| {
      if s.slots[i].Some? && (all || Over(s.slots[i].value, s.now)) {
        var s1 := Free(s, i);
        FreeKeeps(cfg, s, i, bound);
        SweepKeeps(cfg, s1, i + 1, all, bound);
        EvolvesTransitive(s, s1, SweepFrom(s1, i + 1, all));
      } else {
        SweepKeeps(cfg, s, i + 1, all, bound);
      }
    }
  }

  predicate Swept(s: Sched, j: nat, all: bool) {
    j < |s.slots| && s.slots[j].Some? && (all || Over(s.slots[j].value, s.now))
  }

  lemma {:induction false} SweepEffectAt(s: Sched, i: nat, all: bool, j: nat)
    requires i <= |s.slots| == |s.leave| && j < |s.slots|
    ensures var r, swept := SweepFrom(s, i, all), i <= j && Swept(s, j, all);
            && r.slots[j] == (if swept then None else s.slots[j])
            && r.leave[j] == s.leave[j] +
               if swept && !s.slots[j].value.released then |s.slots[j].value.clients| else 0
    decreases |s.slots| - i
  {
    if i < |s.slots| {
      SweepEffectAt(SweepSlot(s, i, all), i + 1, all, j);
    }
  }

  /** A sweep empties exactly the slots it is about, and each of their clients gets a token. */
  lemma SweepEffect(s: Sched, all: bool)
    requires |s.slots| == |s.leave|
    ensures var r := SweepFrom(s, 0, all);
            forall j :: 0 <= j < |s.slots| ==> r.slots[j] == if Swept(s, j, all) then None else s.slots[j]
  {
    forall j | 0 <= j < |s.slots|
      ensures SweepFrom(s, 0, all).slots[j] == if Swept(s, j, all) then None else s.slots[j]
    {
      SweepEffectAt(s, 0, all, j);
    }
  }

  lemma PauseKeeps(cfg: Config, s: Sched, bound: nat)
    requires Sound(cfg, s, bound)
    ensures Sound(cfg, Deliver(s, Pause), bound) && Evolves(s, Deliver(s, Pause))
    ensures forall j :: Vacant(s, j) ==> Vacant(Deliver(s, Pause), j)
  {
    hide SlotsSound, AdmittedSound, Once, AllFair, Balanced, Evolves;
    SameRounds(cfg, s, BeginPause(s), bound);
    SweepKeeps(cfg, BeginPause(s), 0, true, bound);
    EvolvesTransitive(s, BeginPause(s), Deliver(s, Pause));
  }

  lemma LeaveKeeps(cfg: Config, s: Sched, i: nat, bound: nat)
    requires Sound(cfg, s, bound)
    ensures Sound(cfg, Deliver(s, Leave(i)), bound) && Evolves(s, Deliver(s, Leave(i)))
  {
    hide AdmittedSound, Once, AllFair, Balanced;
  }

  lemma DeliverKeeps(cfg: Config, s: Sched, e: Event, bound: nat)
    requires Sound(cfg, s, bound)
    ensures Sound(cfg, Deliver(s, e), bound) && Evolves(s, Deliver(s, e))
    ensures forall j :: Vacant(s, j) ==> Vacant(Deliver(s, e), j)
    ensures Deliver(s, e).ch.hand == s.ch.hand
  {
    hide SlotsSound, AdmittedSound, Once, AllFair, Balanced, Evolves, SweepFrom;
    match e
    case Pause => PauseKeeps(cfg, s, bound);
    case Leave(i) => LeaveKeeps(cfg, s, i, bound);
    case Mail(t) =>
      StepKeepsBalance(s.ch, t);
      SameRounds(cfg, s, Deliver(s, e), bound);
    case _ => SameRounds(cfg, s, Deliver(s, e), bound);
  }

  lemma {:induction false} DeliverAllKeeps(cfg: Config, s: Sched, es: seq<Event>, bound: nat)
    requires Sound(cfg, s, bound)
    ensures Sound(cfg, DeliverAll(s, es), bound) && Evolves(s, DeliverAll(s, es))
    ensures forall j :: Vacant(s, j) ==> Vacant(DeliverAll(s, es), j)
    ensures DeliverAll(s, es).ch.hand == s.ch.hand
    decreases |es|
  {
    hide SlotsSound, AdmittedSound, Once, AllFair, Balanced, Evolves;
    EvolvesReflexive(s);
    if es != [] {
      var s1 := Deliver(s, es[0]);
      DeliverKeeps(cfg, s, es[0], bound);
      DeliverAllKeeps(cfg, s1, es[1..], bound);
      EvolvesTransitive(s, s1, DeliverAll(s1, es[1..]));
    }
  }

  // ----- Registration -----

  lemma RidersMonotone(r: Round, a: set<Admission>, b: set<Admission>)
    requires Riders(r, a) && a <= b
    ensures Riders(r, b)
  {}

  lemma SlotsMonotone(cfg: Config, slots: seq<Option<Round>>, leave: seq<nat>, a: set<Admission>, b: set<Admission>)
    requires |slots| == |leave| && SlotsSound(cfg, slots, leave, a) && a <= b
    ensures SlotsSound(cfg, slots, leave, b)
  {
    forall i | 0 <= i < |slots| && slots[i].Some?
      ensures Riders(slots[i].value, b)
    {
      RidersMonotone(slots[i].value, a, b);
    }
  }

  lemma BoardKeeps(cfg: Config, r: Round, q: Request, admitted: set<Admission>)
    requires Boarding(cfg, r, admitted) && q.visit.Some? && Fits(cfg, r, q.visit.value)
    requires exists a <- admitted :: a.request == q && a.serial == r.serial
    ensures var r' := Board(r, q.pid, Guest(q.visit.value.hasChild, FromPark));
            Boarding(cfg, r', admitted) && r'.serial == r.serial && r'.finish == r.finish
  {
    if q.pid !in r.clients {
      LoadInsert(r.clients, q.pid, Guest(q.visit.value.hasChild, FromPark));
    }
  }

  lemma AdmitKeeps(cfg: Config, s: Sched, r: Round, q: Request, bound: nat)
    requires Sound(cfg, s, bound) && Boarding(cfg, r, s.admitted)
    requires q.visit.Some? && Fits(cfg, r, q.visit.value)
    requires Meets(cfg, q.visit.value.person, q.visit.value.child, q.visit.value.hasChild)
    ensures var s1 := s.(admitted := s.admitted +
                           {Admission(q, true, false, r.serial, |s.handled|, |s.ch.received|)});
            var r1 := Board(r, q.pid, Guest(q.visit.value.hasChild, FromPark));
            && Sound(cfg, s1, bound) && Evolves(s, s1) && Boarding(cfg, r1, s1.admitted)
            && r1.serial == r.serial && r1.finish == r.finish
  {
    var a := s.admitted + {Admission(q, true, false, r.serial, |s.handled|, |s.ch.received|)};
    SlotsMonotone(cfg, s.slots, s.leave, s.admitted, a);
    RidersMonotone(r, s.admitted, a);
    BoardKeeps(cfg, r, q, a);
  }

  /** The new round is out of reach of signals, so its load cannot change between the check and the boarding. */
  lemma RegisterKeeps(cfg: Config, s: Sched, r: Round, q: Request, h: Shake, bound: nat)
    requires Sound(cfg, s, bound) && Boarding(cfg, r, s.admitted)
    ensures var (s1, r1, served) := Register(cfg, s, r, q, h);
            && Sound(cfg, s1, bound) && Evolves(s, s1) && Boarding(cfg, r1, s1.admitted)
            && s1.ch.hand == s.ch.hand && r1.serial == r.serial && r1.finish == r.finish
            && forall j :: Vacant(s, j) ==> Vacant(s1, j)
  {
    hide SlotsSound, AdmittedSound, Once, AllFair, Balanced, Evolves, Boarding;
    EvolvesReflexive(s);
    if Register(cfg, s, r, q, h).2 && q.visit.Some? && !h.Missing? {
      var s1 := DeliverAll(s, h.posting);
      DeliverAllKeeps(cfg, s, h.posting, bound);
      if h.Sent? && Allowed(cfg, s, q.visit.value) {
        var s2 := DeliverAll(s1, h.awaiting);
        DeliverAllKeeps(cfg, s1, h.awaiting, bound);
        EvolvesTransitive(s, s1, s2);
        if h.reply.Ack? {
          AdmitKeeps(cfg, s2, r, q, bound);
          var a := Admission(q, true, false, r.serial, |s2.handled|, |s2.ch.received|);
          EvolvesTransitive(s, s2, s2.(admitted := s2.admitted + {a}));
        }
      }
    }
  }

  lemma TakeKeeps(cfg: Config, s: Sched, bound: nat)
    requires Sound(cfg, s, bound) && s.queue != []
    ensures Sound(cfg, Take(s), bound) && Evolves(s, Take(s)) && s.handled <= Take(s).handled
    ensures forall j :: Vacant(s, j) ==> Vacant(Take(s), j)
  {
    assert s.queue == [s.queue[0]] + s.queue[1..];
    assert Take(s).handled + Take(s).queue == s.handled + s.queue;
  }

  lemma {:induction false} FillKeeps(cfg: Config, s: Sched, r: Round, env: Script, bound: nat)
    requires Sound(cfg, s, bound) && Boarding(cfg, r, s.admitted)
    ensures var (s1, r1) := Fill(cfg, s, r, env);
            && Sound(cfg, s1, bound) && Evolves(s, s1) && Boarding(cfg, r1, s1.admitted)
            && s1.ch.hand == s.ch.hand && r1.serial == r.serial && r1.finish == r.finish
            && s.handled <= s1.handled
            && forall j :: Vacant(s, j) ==> Vacant(s1, j)
    decreases |s.queue|
  {
    hide SlotsSound, AdmittedSound, Once, AllFair, Balanced, Evolves, Boarding, Register;
    EvolvesReflexive(s);
    if s.queue != [] {
      var h := env.shakes(|s.handled|);
      RegisterKeeps(cfg, s, r, s.queue[0], h, bound);
      var (s1, r1, served) := Register(cfg, s, r, s.queue[0], h);
      if served {
        var s2 := Take(s1);
        TakeKeeps(cfg, s1, bound);
        FillKeeps(cfg, s2, r1, env, bound);
        var s3 := Fill(cfg, s2, r1, env).0;
        EvolvesTransitive(s, s1, s2);
        EvolvesTransitive(s, s2, s3);
      }
    }
  }

  // ----- Creating rounds -----

  lemma InstallKeepsOnce(slots: seq<Option<Round>>, freed: seq<Freed>, i: nat, b: Round)
    requires Once(slots, freed, b.serial) && i < |slots|
    ensures Once(slots[i := Some(b)], freed, b.serial + 1)
  {}

  lemma DiscardKeepsOnce(slots: seq<Option<Round>>, freed: seq<Freed>, f: Freed)
    requires Once(slots, freed, f.round.serial)
    ensures Once(slots, freed + [f], f.round.serial + 1)
  {}

  lemma BeginIsInstalled(cfg: Config, r: Round, now: nat, admitted: set<Admission>)
    requires Usable(cfg) && Boarding(cfg, r, admitted)
    ensures Installed(cfg, Begin(r, now, cfg.duration), admitted)
  {
    assert Begin(r, now, cfg.duration).clients == r.clients;
  }

  lemma ConcludeKeeps(cfg: Config, s: Sched, r: Round, i: nat)
    requires Usable(cfg) && Sound(cfg, s, r.serial) && s.serial == r.serial + 1
    requires Boarding(cfg, r, s.admitted) && Vacant(s, i)
    ensures Sound(cfg, Conclude(cfg, s, r, i), s.serial)
  {
    hide Boarding, Installed, AdmittedSound, Once, Balanced;
    if r.clients != map[] {
      BeginIsInstalled(cfg, r, s.now, s.admitted);
      InstallKeepsOnce(s.slots, s.freed, i, Begin(r, s.now, cfg.duration));
    } else {
      DiscardKeepsOnce(s.slots, s.freed, Freed(r, s.now, s.paused));
    }
  }

  lemma ConstructKeeps(cfg: Config, s: Sched, i: nat)
    requires Sound(cfg, s, s.serial) && i < |s.slots| && s.slots[i].None?
    ensures var c := Construct(s, i);
            Sound(cfg, c, s.serial) && Evolves(s, c) && Vacant(c, i) && Boarding(cfg, Fresh(s.serial), c.admitted)
  {
    LoadEmpty(Fresh(s.serial).clients);
  }

  lemma InstallationEvolves(cfg: Config, s: Sched, s1: Sched, r: Round, i: nat)
    requires Evolves(s, s1) && i < |s1.slots| == |s1.leave| && r.serial == s.serial
    ensures Evolves(s, Conclude(cfg, s1, r, i))
  {}

  lemma PrepareKeeps(cfg: Config, s: Sched, i: nat, env: Script)
    requires Sound(cfg, s, s.serial) && i < |s.slots| && s.slots[i].None?
    ensures var (s1, r) := Prepare(cfg, s, i, env);
            && Sound(cfg, s1, s.serial) && Vacant(s1, i) && Boarding(cfg, r, s1.admitted) && r.serial == s.serial
            && Evolves(s, s1) && s1.ch.hand == s.ch.hand && s.handled <= s1.handled
  {
    var c := Construct(s, i);
    ConstructKeeps(cfg, s, i);
    FillKeeps(cfg, c, Fresh(s.serial), env, s.serial);
    EvolvesTransitive(s, c, Prepare(cfg, s, i, env).0);
  }

  lemma NewRoundKeeps(cfg: Config, s: Sched, env: Script)
    requires Usable(cfg) && Sound(cfg, s, s.serial)
    ensures var (r, made) := NewRound(cfg, s, env);
            && Sound(cfg, r, r.serial) && Evolves(s, r) && r.ch.hand == s.ch.hand && s.handled <= r.handled
  {
    hide SlotsSound, AdmittedSound, Once, AllFair, Balanced, Evolves, Boarding, Prepare;
    EvolvesReflexive(s);
    FirstFreeIsFree(s.slots, 0);
    var free := FirstFree(s.slots, 0);
    if !s.paused && free.Some? {
      var i := free.value;
      PrepareKeeps(cfg, s, i, env);
      var (s1, r) := Prepare(cfg, s, i, env);
      ConcludeKeeps(cfg, s1, r, i);
      InstallationEvolves(cfg, s, s1, r, i);
    }
  }

  lemma CreateRoundKeeps(cfg: Config, s: Sched, env: Script)
    requires Usable(cfg) && Sound(cfg, s, s.serial)
    ensures var (r, made) := CreateRound(cfg, s, env);
            && Sound(cfg, r, r.serial) && Evolves(s, r) && r.ch.hand == s.ch.hand
  {
    hide SlotsSound, AdmittedSound, Once, AllFair, Balanced, Evolves;
    NewRoundKeeps(cfg, s, env);
    var (s1, made) := NewRound(cfg, s, env);
    if made {
      DeliverAllKeeps(cfg, s1, env.logs(|s1.handled|), s1.serial);
      EvolvesTransitive(s, s1, DeliverAll(s1, env.logs(|s1.handled|)));
    }
  }

  lemma {:induction false} CreateRoundsKeeps(cfg: Config, s: Sched, env: Script)
    requires Usable(cfg) && Sound(cfg, s, s.serial)
    ensures var r := CreateRounds(cfg, s, env);
            && Sound(cfg, r, r.serial) && Evolves(s, r) && r.ch.hand == s.ch.hand
    decreases |s.queue|
  {
    hide SlotsSound, AdmittedSound, Once, AllFair, Balanced, Evolves;
    CreateRoundKeeps(cfg, s, env);
    var (s1, made) := CreateRound(cfg, s, env);
    if made {
      CreateRoundsKeeps(cfg, s1, env);
      EvolvesTransitive(s, s1, CreateRounds(cfg, s1, env));
    }
  }

  // ----- The mailbox and the main loop -----

  lemma {:induction false} RemoveFromEffect(slots: seq<Option<Round>>, i: nat, pid: Pid)
    requires i <= |slots|
    ensures var r := RemoveFrom(slots, i, pid);
            forall j :: 0 <= j < |slots| ==>
              || r[j] == slots[j]
              || (slots[j].Some? && r[j] == Some(slots[j].value.(clients := slots[j].value.clients - {pid})))
    decreases |slots| - i
  {
    if i < |slots| && !(slots[i].Some? && pid in slots[i].value.clients) {
      RemoveFromEffect(slots, i + 1, pid);
    }
  }

  lemma LoadShrinks(m: map<Pid, Rider>, p: Pid)
    ensures Load(m - {p}) <= Load(m)
  {
    if p in m {
      LoadRemove(m, p);
    } else {
      assert m - {p} == m;
    }
  }

  lemma ExitKeeps(cfg: Config, s: Sched, pid: Pid, bound: nat)
    requires Sound(cfg, s, bound)
    ensures var r := s.(slots := RemoveFrom(s.slots, 0, pid));
            Sound(cfg, r, bound) && Evolves(s, r)
  {
    RemoveFromEffect(s.slots, 0, pid);
    var slots := RemoveFrom(s.slots, 0, pid);
    forall j | 0 <= j < |slots| && slots[j].Some?
      ensures Installed(cfg, slots[j].value, s.admitted)
    {
      LoadShrinks(s.slots[j].value.clients, pid);
    }
  }

  lemma HandleKeeps(cfg: Config, s: Sched, l: Letter<Message>)
    requires Sound(cfg, s, s.serial)
    ensures var r := Handle(s, l);
            Sound(cfg, r, r.serial) && Evolves(s, r) && r.ch == s.ch
  {
    hide SlotsSound, AdmittedSound, Once, AllFair, Balanced, Evolves;
    EvolvesReflexive(s);
    match l.body
    case EnterAttraction(_) => SameRounds(cfg, s, Handle(s, l), s.serial);
    case ExitAttraction => ExitKeeps(cfg, s, l.from, s.serial);
    case Unknown =>
  }

  lemma HandleMailboxKeeps(cfg: Config, s: Sched, receiving: seq<Event>)
    requires Sound(cfg, s, s.serial)
    ensures var r := HandleMailbox(s, receiving);
            Sound(cfg, r, r.serial) && Evolves(s, r) && !r.ch.hand
  {
    hide SlotsSound, AdmittedSound, Once, AllFair, Balanced, Evolves, Handle, DeliverAll;
    DeliverAllKeeps(cfg, s, receiving, s.serial);
    var s1 := DeliverAll(s, receiving);
    ReceiveKeepsBalance(s1.ch);
    var (ch, letter) := Receive(s1.ch);
    var s2 := s1.(ch := ch);
    SameRounds(cfg, s1, s2, s1.serial);
    EvolvesTransitive(s, s1, s2);
    if letter.Some? {
      HandleKeeps(cfg, s2, letter.value);
      EvolvesTransitive(s, s2, Handle(s2, letter.value));
    }
  }

  lemma HandleAttractionKeeps(cfg: Config, s: Sched, receiving: seq<Event>, env: Script)
    requires Usable(cfg) && Sound(cfg, s, s.serial)
    ensures var r := HandleAttraction(cfg, s, receiving, env);
            Sound(cfg, r, r.serial) && Evolves(s, r) && !r.ch.hand
  {
    hide SlotsSound, AdmittedSound, Once, AllFair, Balanced, Evolves;
    if s.paused {
      SkipKeepsBalance(s.ch);
      SameRounds(cfg, s, s.(ch := Skip(s.ch)), s.serial);
    } else {
      HandleMailboxKeeps(cfg, s, receiving);
      var s1 := HandleMailbox(s, receiving);
      CreateRoundsKeeps(cfg, s1, env);
      EvolvesTransitive(s, s1, CreateRounds(cfg, s1, env));
    }
  }

  lemma WorkKeeps(cfg: Config, s: Sched, p: Pass, env: Script)
    requires Usable(cfg) && Sound(cfg, s, s.serial)
    ensures var r := Work(cfg, s, p, env);
            Sound(cfg, r, r.serial) && Evolves(s, r) && !r.ch.hand
  {
    hide SlotsSound, AdmittedSound, Once, AllFair, Balanced, Evolves, HandleAttraction;
    SweepKeeps(cfg, s, 0, false, s.serial);
    var s1 := SweepFrom(s, 0, false);
    HandleAttractionKeeps(cfg, s1, p.receiving, env);
    var s2 := HandleAttraction(cfg, s1, p.receiving, env);
    DeliverAllKeeps(cfg, s2, p.between, s2.serial);
    var s3 := DeliverAll(s2, p.between);
    EvolvesTransitive(s, s1, s2);
    EvolvesTransitive(s, s2, s3);
  }

  lemma IterateKeeps(cfg: Config, s: Sched, p: Pass, env: Script)
    requires Usable(cfg) && Sound(cfg, s, s.serial) && !s.ch.hand
    ensures var r := Iterate(cfg, s, p, env);
            Sound(cfg, r, r.serial) && Evolves(s, r) && !r.ch.hand
  {
    hide SlotsSound, AdmittedSound, Once, AllFair, Balanced, Evolves, Work, DeliverAll;
    EvolvesReflexive(s);
    if !Finished(s) {
      var timeout := if s.waiting.Some? then s.waiting.value else NextTimeout(s);
      var s0 := s.(waiting := Some(timeout));
      SameRounds(cfg, s, s0, s.serial);
      DeliverAllKeeps(cfg, s0, p.asleep, s0.serial);
      var s1 := DeliverAll(s0, p.asleep);
      EvolvesTransitive(s, s0, s1);
      WaitKeepsBalance(s1.ch, timeout, p.interrupted, p.expired);
      var w := Wait(s1.ch, timeout, p.interrupted, p.expired);
      if w.Some? {
        var s2 := s1.(waiting := None, ch := w.value);
        SameRounds(cfg, s1, s2, s1.serial);
        EvolvesTransitive(s, s1, s2);
        WorkKeeps(cfg, s2, p, env);
        EvolvesTransitive(s, s2, Work(cfg, s2, p, env));
      }
    }
  }

  lemma {:induction false} RunKeeps(cfg: Config, s: Sched, ps: seq<Pass>, env: Script)
    requires Usable(cfg) && Sound(cfg, s, s.serial) && !s.ch.hand
    ensures var r := Run(cfg, s, ps, env);
            Sound(cfg, r, r.serial) && Evolves(s, r) && !r.ch.hand
    decreases |ps|
  {
    hide SlotsSound, AdmittedSound, Once, AllFair, Balanced, Evolves, Iterate;
    EvolvesReflexive(s);
    if ps != [] {
      IterateKeeps(cfg, s, ps[0], env);
      var s1 := Iterate(cfg, s, ps[0], env);
      RunKeeps(cfg, s1, ps[1..], env);
      EvolvesTransitive(s, s1, Run(cfg, s1, ps[1..], env));
    }
  }
}
