/** Every seated guest has a handshake of its own request behind it, and so has accepted a permit. */
module RestaurantHistory {
  import opened Common
  import opened Mailbox
  import opened Rounds
  import opened Layout
  import opened RestaurantSpec
  import opened RestaurantProofs
  import opened RestaurantTheorems
  import Protocol = ReplyProtocol

  ghost predicate Granted(seat: Seat, handled: seq<Request>, env: nat -> Shake) {
    && seat.at < |handled| && handled[seat.at].pid == seat.pid && handled[seat.at].who == Some(seat.who)
    && Acknowledged(env(seat.at))
  }

  /** Everyone in the round has a seat in it. */
  ghost predicate HaveSeats(r: Round, seated: seq<Seat>) {
    forall p <- r.clients :: exists k :: 0 <= k < |seated| && seated[k].pid == p && seated[k].serial == r.serial
  }

  ghost predicate Known(s: Restaurant, env: nat -> Shake) {
    && (forall k :: 0 <= k < |s.seated| ==> Granted(s.seated[k], s.handled, env))
    && (s.round.Some? ==> HaveSeats(s.round.value, s.seated))
  }

  lemma EventKeepsSeats(s: Restaurant, e: Event)
    requires s.round.Some? ==> HaveSeats(s.round.value, s.seated)
    ensures var r := Deliver(s, e);
            r.seated == s.seated && (r.round.Some? ==> HaveSeats(r.round.value, s.seated))
  {}

  lemma {:induction false} EventsKeepSeats(s: Restaurant, es: seq<Event>)
    requires s.round.Some? ==> HaveSeats(s.round.value, s.seated)
    ensures var r := DeliverAll(s, es);
            r.round.Some? ==> HaveSeats(r.round.value, s.seated)
    decreases |es|
  {
    hide HaveSeats, Deliver;
    if es != [] {
      EventKeepsSeats(s, es[0]);
      EventsKeepSeats(Deliver(s, es[0]), es[1..]);
    }
  }

  lemma MoreSeats(r: Round, a: seq<Seat>, b: seq<Seat>)
    requires HaveSeats(r, a) && a <= b
    ensures HaveSeats(r, b)
  {
    forall p <- r.clients
      ensures exists k :: 0 <= k < |b| && b[k].pid == p && b[k].serial == r.serial
    {
      var k :| 0 <= k < |a| && a[k].pid == p && a[k].serial == r.serial;
      assert b[k] == a[k];
    }
  }

  lemma BoardKeepsSeats(r: Round, p: Pid, who: Rider, seated: seq<Seat>, seat: Seat)
    requires HaveSeats(r, seated) && seat.pid == p && seat.serial == r.serial
    ensures HaveSeats(Board(r, p, who), seated + [seat])
  {
    MoreSeats(r, seated, seated + [seat]);
    assert (seated + [seat])[|seated|] == seat;
  }

  lemma RegisterKeepsKnown(cfg: Config, s: Restaurant, r: Round, env: nat -> Shake)
    requires s.queue != [] && Known(s, env) && s.round.None? && HaveSeats(r, s.seated)
    ensures var (s1, r1, served) := Register(cfg, s, r, s.queue[0], env(|s.handled|));
            served ==> Known(Take(s1), env) && HaveSeats(r1, s1.seated)
  {
    var q, h := s.queue[0], env(|s.handled|);
    var (s1, r1, served) := Register(cfg, s, r, q, h);
    if s1.seated != s.seated {
      BoardKeepsSeats(r, q.pid, q.who.value, s.seated, s1.seated[|s.seated|]);
    }
    forall k | 0 <= k < |s1.seated|
      ensures Granted(s1.seated[k], s.handled + [q], env)
    {
      assert k < |s.seated| ==> Granted(s.seated[k], s.handled, env);
    }
  }

  lemma {:induction false} FillKeepsKnown(cfg: Config, s: Restaurant, r: Round, env: nat -> Shake)
    requires Known(s, env) && s.round.None? && HaveSeats(r, s.seated)
    ensures var (s1, r1) := Fill(cfg, s, r, env);
            Known(s1, env) && HaveSeats(r1, s1.seated)
    decreases |s.queue|
  {
    if s.queue != [] {
      RegisterKeepsKnown(cfg, s, r, env);
      var (s1, r1, served) := Register(cfg, s, r, s.queue[0], env(|s.handled|));
      if served {
        FillKeepsKnown(cfg, Take(s1), r1, env);
      }
    }
  }

  lemma EventsKeepKnown(s: Restaurant, es: seq<Event>, env: nat -> Shake)
    requires Known(s, env)
    ensures Known(DeliverAll(s, es), env)
  {
    EventsKeepSeats(s, es);
  }

  lemma SendBillKeepsKnown(s: Restaurant, pid: Pid, bill: Shake, env: nat -> Shake)
    requires Known(s, env)
    ensures Known(SendBill(s, pid, bill), env)
  {
    hide DeliverAll, Granted, HaveSeats;
    if !bill.Missing? {
      EventsKeepKnown(s, bill.posting, env);
      if bill.Sent? {
        EventsKeepKnown(DeliverAll(s, bill.posting), bill.awaiting, env);
      }
    }
  }

  lemma RemoveKeepsKnown(s: Restaurant, pid: Pid, env: nat -> Shake)
    requires Known(s, env)
    ensures Known(Remove(s, pid), env)
  {
    hide Granted;
  }

  lemma HandleKeepsKnown(s: Restaurant, l: Letter<Message>, bill: Shake, env: nat -> Shake)
    requires Known(s, env)
    ensures Known(Handle(s, l, bill), env)
  {
    hide SendBill, Remove, Granted, HaveSeats;
    if l.body.ExitRestaurant? {
      SendBillKeepsKnown(s, l.from, bill, env);
      RemoveKeepsKnown(SendBill(s, l.from, bill), l.from, env);
    }
  }

  lemma MailboxKeepsKnown(s: Restaurant, receiving: seq<Event>, bill: Shake, env: nat -> Shake)
    requires Known(s, env)
    ensures Known(HandleMailbox(s, receiving, bill), env)
  {
    hide DeliverAll, Handle, Granted, HaveSeats;
    EventsKeepKnown(s, receiving, env);
    var s1 := DeliverAll(s, receiving);
    var (ch, letter) := Receive(s1.ch);
    if letter.Some? {
      HandleKeepsKnown(s1.(ch := ch), letter.value, bill, env);
    }
  }

  lemma NobodyNeedsSeats(serial: nat, seated: seq<Seat>)
    ensures HaveSeats(Fresh(serial), seated)
  {}

  lemma BeginKeepsSeats(cfg: Config, r: Round, now: nat, seated: seq<Seat>)
    requires HaveSeats(r, seated)
    ensures HaveSeats(Begin(r, now, cfg.duration), seated)
  {
    assert Begin(r, now, cfg.duration).clients == r.clients;
  }

  lemma RefillKeepsKnown(cfg: Config, s: Restaurant, env: nat -> Shake)
    requires Known(s, env)
    ensures Known(Refill(cfg, s, env), env)
  {
    hide HaveSeats, Granted, Fill;
    if s.round.None? {
      NobodyNeedsSeats(s.serial, s.seated);
      FillKeepsKnown(cfg, Construct(s), Fresh(s.serial), env);
      var (s1, r) := Fill(cfg, Construct(s), Fresh(s.serial), env);
      BeginKeepsSeats(cfg, r, s1.now, s1.seated);
    }
  }

  lemma WorkKeepsKnown(cfg: Config, s: Restaurant, p: Pass, env: nat -> Shake)
    requires Known(s, env)
    ensures Known(Work(cfg, s, p, env), env)
  {
    hide DeliverAll, HandleMailbox, Refill, HaveSeats, Granted;
    MailboxKeepsKnown(Sweep(s), p.receiving, p.bill, env);
    var s1 := HandleMailbox(Sweep(s), p.receiving, p.bill);
    RefillKeepsKnown(cfg, s1, env);
    EventsKeepKnown(Refill(cfg, s1, env), p.between, env);
  }

  lemma {:induction false} RunKeepsKnown(cfg: Config, s: Restaurant, ps: seq<Pass>, env: nat -> Shake)
    requires Known(s, env)
    ensures Known(Run(cfg, s, ps, env), env)
    decreases |ps|
  {
    hide Work, DeliverAll, HaveSeats, Granted;
    if ps != [] {
      var p := ps[0];
      if !Finished(s) {
        var timeout := if s.waiting.Some? then s.waiting.value else NextTimeout(s);
        EventsKeepKnown(s.(waiting := Some(timeout)), p.asleep, env);
        var s1 := DeliverAll(s.(waiting := Some(timeout)), p.asleep);
        var w := Wait(s1.ch, timeout, p.interrupted, p.expired);
        if w.Some? {
          WorkKeepsKnown(cfg, s1.(waiting := None, ch := w.value), p, env);
        }
      }
      RunKeepsKnown(cfg, Iterate(cfg, s, p, env), ps[1..], env);
    }
  }

  /** Every guest has acknowledged a permit in a handshake for its own request, and was seated in the present round. */
  lemma GuestsHaveAcknowledged(cfg: Config, now: nat, ps: seq<Pass>, env: nat -> Shake, p: Pid)
    ensures var s := Run(cfg, Start(now), ps, env);
            p in Guests(s) ==>
              exists k :: 0 <= k < |s.seated| && s.seated[k].pid == p && s.seated[k].serial == s.round.value.serial
                          && Granted(s.seated[k], s.handled, env)
  {
    RunKeepsKnown(cfg, Start(now), ps, env);
    var s := Run(cfg, Start(now), ps, env);
    if p in Guests(s) {
      var k :| 0 <= k < |s.seated| && s.seated[k].pid == p && s.seated[k].serial == s.round.value.serial;
      assert Granted(s.seated[k], s.handled, env);
    }
  }

  /** Whom the restaurant's handshakes were with; a malformed request has none. */
  ghost function Asked(s: Restaurant): seq<Option<Pid>> {
    seq(|s.handled|, k requires 0 <= k < |s.handled| =>
      if s.handled[k].who.Some? then Some(s.handled[k].pid) else None)
  }

  /** A restaurant whose handshakes are those of a run of the protocol: every guest has accepted a permit in it. */
  lemma GuestsHaveAccepted(cfg: Config, now: nat, ps: seq<Pass>, env: nat -> Shake, steps: seq<Protocol.Step>,
                           at: seq<nat>, p: Pid)
    ensures var s, t := Run(cfg, Start(now), ps, env), Protocol.Exec(Protocol.INIT, steps);
            Protocol.Enacted(Asked(s), env, at, t) && p in Guests(s) ==> exists k: nat :: Protocol.Accepted(t, k, p)
  {
    hide Run, Protocol.Exec;
    GuestsHaveAcknowledged(cfg, now, ps, env, p);
    var s := Run(cfg, Start(now), ps, env);
    if p in Guests(s) {
      var k :| 0 <= k < |s.seated| && s.seated[k].pid == p && Granted(s.seated[k], s.handled, env);
      assert Granted(s.seated[k], s.handled, env);
      var i := s.seated[k].at;
      assert i < |s.handled| && Asked(s)[i] == Some(p);
      Protocol.AcknowledgedMeansAccepted(steps, Asked(s), env, at, i);
    }
  }
}
