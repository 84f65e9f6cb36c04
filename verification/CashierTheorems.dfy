/** The cashier's promises, for every park size, every script of passes and every outcome of every handshake. */
module CashierTheorems {
  import opened Common
  import opened Mailbox
  import opened CashierSpec
  import opened CashierProofs
  import opened CashierHistory
  import Protocol = ReplyProtocol

  lemma Reachable(parkSize: nat, ps: seq<Pass>, env: nat -> Shake)
    ensures var s := Run(Start(parkSize), ps, env);
            Sound(s) && Settled(s) && s.parkSize == parkSize && Known(s, env)
  {
    LoadEmpty(Start(parkSize).clients);
    RunKeeps(Start(parkSize), ps, env);
    RunKeepsKnown(Start(parkSize), ps, env);
  }

  /**
    * The cached counter never falls short of the people registered. It equals their number exactly when no pid
    * has joined again before it left - in particular when no pid asks to enter twice.
    */
  lemma CounterAgreesWithMap(parkSize: nat, ps: seq<Pass>, env: nat -> Shake)
    ensures var s := Run(Start(parkSize), ps, env);
            && Load(s.clients) <= s.counter <= parkSize
            && (s.counter == Load(s.clients) <==> !Reentered(s.log))
            && (Unique(s.arrived) ==> s.counter == Load(s.clients))
  {
    Reachable(parkSize, ps, env);
    var s := Run(Start(parkSize), ps, env);
    LostExactly(s.log);
    if Unique(s.arrived) {
      UniqueNeverReenters(s, env);
    }
  }

  /** An idle cashier with room, to which one letter is posted and signalled during its sleep. */
  ghost predicate Idle(s: Cashier) {
    && s.open && !s.waiting && !s.terminated && !s.ch.hand && !Pending(s)
    && s.ch.box == [] && s.ch.pending == {} && s.counter < s.parkSize
  }

  function EntryLetter(p: Pid): Letter<Message> {
    Letter(p, false, Enter(Some(Guest(false, Ordinary))))
  }

  function EntryPass(p: Pid): Pass {
    Pass([Mail(Post(EntryLetter(p))), Mail(Signal(p))], false, [], Missing, [])
  }

  lemma EntryLetterArrives(s: Cashier, p: Pid)
    requires Idle(s)
    ensures var r := DeliverAll(s.(waiting := true), EntryPass(p).asleep);
            r.ch.box == [EntryLetter(p)] && r.ch.tokens == s.ch.tokens + 1 && r.ch.pending == {}
            && r == s.(waiting := true, ch := r.ch) && !r.ch.hand
  {
    var s0, es := s.(waiting := true), EntryPass(p).asleep;
    var s1 := Deliver(s0, es[0]);
    assert s1.ch.box == [EntryLetter(p)] && s1.ch.pending == {p};
    var s2 := Deliver(s1, es[1]);
    assert s2.ch.pending == {};
    assert es[1..] == [es[1]] && DeliverAll(s1, [es[1]]) == DeliverAll(s2, []);
  }

  lemma EntryIsGranted(s: Cashier, p: Pid, env: nat -> Shake)
    requires Idle(s) && env(|s.served|) == Sent([], Ack, [])
    ensures var r, e := Iterate(s, EntryPass(p), env), Entry(p, Guest(false, Ordinary));
            && r.counter == s.counter + 1 && r.clients == s.clients[p := e.who]
            && r.log == s.log + [Joined(e, |s.served|, true)] && |r.served| == |s.served| + 1
            && (r.counter < s.parkSize ==> Idle(r)) && r.parkSize == s.parkSize
  {
    EntryLetterArrives(s, p);
    var s1 := DeliverAll(s.(waiting := true), EntryPass(p).asleep);
    var s2 := s1.(waiting := false, ch := Wait(s1.ch, -1, false, false).value);
    var s3 := HandleMailbox(s2, [], Missing);
    var e := Entry(p, Guest(false, Ordinary));
    assert s3.others == [e] && s3.vips == [] && s3.ch.box == [];
    var s4 := TakeOther(Register(s3, e, env(|s3.served|)).0, s3.open);
    assert ServeOthers(s3, env) == ServeOthers(s4, env) == s4;
  }

  /** It does happen: the same pid enters twice, and the counter of a park for two shows two people instead of one. */
  lemma ReentryHappens(p: Pid, env: nat -> Shake)
    requires env(0) == env(1) == Sent([], Ack, [])
    ensures var s := Run(Start(2), [EntryPass(p), EntryPass(p)], env);
            Reentered(s.log) && s.counter == 2 && Load(s.clients) == 1
  {
    hide Iterate, EntryPass, DeliverAll;
    var s1 := Iterate(Start(2), EntryPass(p), env);
    EntryIsGranted(Start(2), p, env);
    var s2 := Iterate(s1, EntryPass(p), env);
    EntryIsGranted(s1, p, env);
    var ps := [EntryPass(p), EntryPass(p)];
    assert ps[1..] == [EntryPass(p)] && ps[1..][1..] == [];
    assert Run(Start(2), ps, env) == Run(s1, ps[1..], env) == Run(s2, [], env);
    assert InsideSince(s2.log, p, 0, 1) && ReentryAt(s2.log, 1);
    LoadOfOne(p, Guest(false, Ordinary));
  }

  lemma LoadOfOne(p: Pid, who: Visitor)
    ensures Load(map[p := who]) == Weight(who.hasChild)
  {
    var nobody: map<Pid, Visitor> := map[];
    LoadEmpty(nobody);
    LoadInsert(nobody, p, who);
  }

  /** Whoever is registered has acknowledged a permit in a handshake with the cashier, and has not left since. */
  lemma RegisteredHaveAcknowledged(parkSize: nat, ps: seq<Pass>, env: nat -> Shake, p: Pid)
    ensures var s := Run(Start(parkSize), ps, env);
            p in s.clients ==>
              && Inside(s.log, p, |s.log|)
              && exists i :: 0 <= i < |s.served| && s.served[i].entry.pid == p && Acknowledged(env(i))
  {
    Reachable(parkSize, ps, env);
    var s := Run(Start(parkSize), ps, env);
    if p in s.clients {
      RegisteredAreInside(s.log, p);
      var i: nat :| InsideSince(s.log, p, i, |s.log|);
      assert Granted(s.log[i], s.served, s.open, env);
    }
  }

  /** And exactly the acknowledged handshakes that an open park began have led to a registration. */
  lemma JoinsExactly(parkSize: nat, ps: seq<Pass>, env: nat -> Shake, k: nat)
    ensures var s := Run(Start(parkSize), ps, env);
            k < |s.served| ==> (JoinedAt(s.log, k) <==> s.served[k].open && Acknowledged(env(k)))
  {
    hide Run;
    Reachable(parkSize, ps, env);
    var s := Run(Start(parkSize), ps, env);
    if JoinedAt(s.log, k) {
      var j :| 0 <= j < |s.log| && s.log[j].Joined? && s.log[j].at == k;
      assert Granted(s.log[j], s.served, s.open, env);
    }
  }

  /** Whom the cashier's handshakes were with. */
  ghost function Asked(s: Cashier): seq<Option<Pid>> {
    seq(|s.served|, i requires 0 <= i < |s.served| => Some(s.served[i].entry.pid))
  }

  /**
    * A cashier whose handshakes are those of a run of the reply-queue protocol: whoever is registered has accepted a
    * permit in it, and considers itself admitted.
    */
  lemma RegisteredHaveAccepted(parkSize: nat, ps: seq<Pass>, env: nat -> Shake, steps: seq<Protocol.Step>,
                               at: seq<nat>, p: Pid)
    ensures var s, t := Run(Start(parkSize), ps, env), Protocol.Exec(Protocol.INIT, steps);
            Protocol.Enacted(Asked(s), env, at, t) && p in s.clients ==> exists k: nat :: Protocol.Accepted(t, k, p)
  {
    RegisteredHaveAcknowledged(parkSize, ps, env, p);
    var s := Run(Start(parkSize), ps, env);
    if p in s.clients {
      var i: nat :| i < |s.served| && s.served[i].entry.pid == p && Acknowledged(env(i));
      Protocol.AcknowledgedMeansAccepted(steps, Asked(s), env, at, i);
    }
  }

  /** And no two registrations rest on the same permit. */
  lemma RegistrationsHaveOwnPermits(parkSize: nat, ps: seq<Pass>, env: nat -> Shake, steps: seq<Protocol.Step>,
                                    at: seq<nat>, i: nat, j: nat)
    ensures var s, t := Run(Start(parkSize), ps, env), Protocol.Exec(Protocol.INIT, steps);
            Protocol.Enacted(Asked(s), env, at, t) && i < j < |s.log| && s.log[i].Joined? && s.log[j].Joined? ==>
              && s.log[i].at < |at| && s.log[j].at < |at|
              && var k, l := at[s.log[i].at], at[s.log[j].at];
                 && Protocol.Accepted(t, k, s.log[i].entry.pid) && Protocol.Accepted(t, l, s.log[j].entry.pid)
                 && t.attempts[k].outcome.offer != t.attempts[l].outcome.offer
  {
    Reachable(parkSize, ps, env);
    var s, t := Run(Start(parkSize), ps, env), Protocol.Exec(Protocol.INIT, steps);
    hide Run, Sound, Settled, Protocol.Exec;
    if Protocol.Enacted(Asked(s), env, at, t) && i < j < |s.log| && s.log[i].Joined? && s.log[j].Joined? {
      assert Granted(s.log[i], s.served, s.open, env) && Granted(s.log[j], s.served, s.open, env);
      var a, b := s.log[i].at, s.log[j].at;
      assert a < b < |Asked(s)|;
      Protocol.AcknowledgedMeansAccepted(steps, Asked(s), env, at, a);
      Protocol.AcknowledgedMeansAccepted(steps, Asked(s), env, at, b);
      Protocol.PermitsAreDistinct(steps, at[a], at[b]);
    }
  }

  /** Each class is served in order of arrival, and no ordinary request while a VIP request waits. */
  lemma ServedInOrder(parkSize: nat, ps: seq<Pass>, env: nat -> Shake)
    ensures var s := Run(Start(parkSize), ps, env);
            && ServedOf(s.served, Vip) + s.vips == OfClass(s.arrived, Vip)
            && ServedOf(s.served, Ordinary) + s.others == OfClass(s.arrived, Ordinary)
            && forall e <- s.served :: e.entry.who.kind == Ordinary ==> !e.vipWaiting
  {
    Reachable(parkSize, ps, env);
  }

  /** As long as a VIP request is left over, the ordinary queue is not touched. */
  lemma VipsComeFirst(s: Cashier, env: nat -> Shake)
    ensures var r := Serve(s, env);
            r.vips != [] ==> r.others == s.others && r == ServeVips(s, env)
  {}

  /** A client posts its request with the priority of its class. */
  ghost predicate Proper(ls: seq<Letter<Message>>) {
    forall l <- ls :: l.body.Enter? && l.body.who.Some? ==> l.urgent == (l.body.who.value.kind == Vip)
  }

  lemma {:induction false} RequestsConcat(a: seq<Letter<Message>>, b: seq<Letter<Message>>)
    ensures Requests(a + b) == Requests(a) + Requests(b)
  {
    if b == [] {
      assert a + b == a;
    } else {
      var n := |b| - 1;
      assert (a + b)[..|a| + n] == a + b[..n];
      RequestsConcat(a, b[..n]);
    }
  }

  lemma UrgencyIsClassOfOne(l: Letter<Message>, c: Class)
    requires Proper([l])
    ensures OfClass(AsRequest(l), c) == Requests(OfUrgency([l], c == Vip))
    ensures Requests([l]) == AsRequest(l)
  {
    assert [l][..0] == [];
    assert l in [l];
    if AsRequest(l) != [] {
      OfClassAppend([], AsRequest(l)[0], c);
    }
  }

  lemma OfClassConcat(a: seq<Entry>, l: Letter<Message>, c: Class)
    ensures OfClass(a + AsRequest(l), c) == OfClass(a, c) + OfClass(AsRequest(l), c)
  {
    if AsRequest(l) == [] {
      assert a + AsRequest(l) == a;
    } else {
      OfClassAppend(a, AsRequest(l)[0], c);
      OfClassAppend([], AsRequest(l)[0], c);
    }
  }

  lemma {:induction false} UrgencyIsClass(ls: seq<Letter<Message>>, c: Class)
    requires Proper(ls)
    ensures OfClass(Requests(ls), c) == Requests(OfUrgency(ls, c == Vip))
  {
    if ls != [] {
      var front, l := ls[..|ls| - 1], ls[|ls| - 1];
      assert ls == front + [l];
      UrgencyIsClass(front, c);
      UrgencyIsClassOfOne(l, c);
      OfClassConcat(Requests(front), l, c);
      OfUrgencyConcat(front, [l], c == Vip);
      RequestsConcat(OfUrgency(front, c == Vip), OfUrgency([l], c == Vip));
    }
  }

  lemma {:induction false} OfUrgencyMembers(ls: seq<Letter<Message>>, l: Letter<Message>, urgent: bool)
    ensures l in OfUrgency(ls, urgent) <==> l in ls && l.urgent == urgent
  {
    if ls != [] {
      OfUrgencyMembers(ls[1..], l, urgent);
    }
  }

  lemma PostedIsProper(ch: Channel<Message>)
    requires Balanced(ch) && Proper(ch.posted)
    ensures Proper(ch.box) && Proper(ch.received)
  {
    forall l | l in ch.box || l in ch.received
      ensures l in ch.posted
    {
      OfUrgencyMembers(ch.box, l, l.urgent);
      OfUrgencyMembers(ch.received, l, l.urgent);
      OfUrgencyMembers(ch.posted, l, l.urgent);
    }
  }

  /**
    * From post to service, over every run: the requests of a class, in the order in which its clients posted them,
    * are those served, then those pending, then those still unread.
    */
  lemma PostedInOrder(parkSize: nat, ps: seq<Pass>, env: nat -> Shake, c: Class)
    ensures var s := Run(Start(parkSize), ps, env);
            Proper(s.ch.posted) ==>
              ServedOf(s.served, c) + (if c == Vip then s.vips else s.others) + OfClass(Requests(s.ch.box), c)
              == OfClass(Requests(s.ch.posted), c)
  {
    Reachable(parkSize, ps, env);
    var s := Run(Start(parkSize), ps, env);
    if Proper(s.ch.posted) {
      PostedIsProper(s.ch);
      UrgencyIsClass(s.ch.posted, c);
      UrgencyIsClass(s.ch.received, c);
      UrgencyIsClass(s.ch.box, c);
      assert InOrder(s.ch, c == Vip);
      RequestsConcat(OfUrgency(s.ch.received, c == Vip), OfUrgency(s.ch.box, c == Vip));
    }
  }

  function Next(s: Cashier): Entry
    requires Pending(s)
  {
    if s.vips != [] then s.vips[0] else s.others[0]
  }

  /** A request left pending after serving an open park does not fit, so at most one place is free. */
  lemma AdmissionWastesAtMostOnePlace(s: Cashier, env: nat -> Shake)
    ensures var r := Serve(s, env);
            Pending(r) ==> r.open && !Fits(r, Next(r)) && r.counter >= r.parkSize - 1
  {}

  /** While the cashier is blocked, at most as many letters are unread as there are clients still to signal. */
  lemma NoLostWakeUp(parkSize: nat, ps: seq<Pass>, env: nat -> Shake)
    ensures var s := Run(Start(parkSize), ps, env);
            && |s.ch.box| <= s.ch.tokens + |s.ch.pending|
            && (s.ch.pending == {} && s.ch.tokens == 0 ==> s.ch.box == [])
  {
    Reachable(parkSize, ps, env);
  }

  /** A pass leaves the cashier asleep exactly if neither a token nor a signal ends its wait, and then does no more. */
  lemma SleepsExactly(s: Cashier, p: Pass, env: nat -> Shake)
    requires !Finished(s)
    ensures var s1, r := DeliverAll(s.(waiting := true), p.asleep), Iterate(s, p, env);
            && (r.waiting <==> !p.interrupted && s1.ch.tokens == 0)
            && (r.waiting ==> r == s1)
  {
    hide DeliverAll, HandleMailbox;
  }

  // ----- Normal termination -----

  /**
    * The loop ends normally with everyone gone and, in a park for at least two in which nobody has re-entered, with
    * no request unanswered. Otherwise what is left of the counter must leave room for two.
    */
  lemma NormalTermination(parkSize: nat, ps: seq<Pass>, env: nat -> Shake)
    ensures var s := Run(Start(parkSize), ps, env);
            Finished(s) && !s.terminated ==>
              && !s.open && s.clients == map[] && s.ch.box == []
              && (s.counter == 0 <==> !Reentered(s.log))
              && (Unique(s.arrived) ==> !Reentered(s.log))
              && (parkSize >= 2 && !Reentered(s.log) ==> !Pending(s))
              && (s.counter + 2 <= parkSize ==> !Pending(s))
  {
    Reachable(parkSize, ps, env);
    var s := Run(Start(parkSize), ps, env);
    LoadEmpty(s.clients);
    LostExactly(s.log);
    if Unique(s.arrived) {
      UniqueNeverReenters(s, env);
    }
  }

  /**
    * The bound is exact. From any quiet state of an open park without clients in which it fails, one
    * pass that brings a party of two and then closes the park ends the loop with the request unanswered.
    */
  lemma RequestCanBeStranded(s: Cashier, p: Pid, env: nat -> Shake) returns (pass: Pass)
    requires Sound(s) && !s.ch.hand && s.open && !s.waiting && !s.terminated
    requires s.clients == map[] && !Pending(s) && s.ch.box == [] && s.ch.pending == {}
    requires s.counter + 2 > s.parkSize
    ensures var r := Iterate(s, pass, env);
            Finished(r) && !r.terminated && r.others == [Entry(p, Guest(true, Ordinary))]
  {
    var who := Guest(true, Ordinary);
    var l := Letter(p, false, Enter(Some(who)));
    var post, signal := Mail(Post(l)), Mail(Signal(p));
    pass := Pass([post, signal], false, [], Missing, [Close]);
    LoadEmpty(s.clients);
    var s0 := s.(waiting := true);
    var s1 := Deliver(s0, post);
    assert s1.ch.box == [l] && s1.ch.pending == {p};
    var s2 := Deliver(s1, signal);
    assert s2.ch.pending == {};
    assert DeliverAll(s0, pass.asleep) == s2 by {
      assert [post, signal][1..] == [signal];
      assert DeliverAll(s1, [signal]) == DeliverAll(s2, []);
    }
    var w := Wait(s2.ch, -1, false, false);
    var s3 := s2.(waiting := false, ch := w.value);
    var s4 := HandleMailbox(s3, [], Missing);
    var e := Entry(p, who);
    assert s4.vips == [] && s4.others == [e] && s4.ch.box == [];
    assert Serve(s4, env) == s4;
    assert DeliverAll(s4, [Close]) == Deliver(s4, Close);
  }
}
