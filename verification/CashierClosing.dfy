/** How the cashier closes: late admissions, draining, and SIGTERM at any moment. */
module CashierClosing {
  import opened Common
  import opened Mailbox
  import opened CashierSpec
  import opened CashierProofs
  import opened CashierHistory
  import opened CashierTheorems

  // ----- Closing -----

  lemma {:induction false} ClosedVips(s: Cashier, env: nat -> Shake)
    requires !s.open
    ensures var r := ServeVips(s, env);
            !r.open && r.vips == [] && r.clients.Items <= s.clients.Items
    decreases |s.vips|
  {
    if s.vips != [] {
      ClosedVips(TakeVip(Register(s, s.vips[0], env(|s.served|)).0, s.open), env);
    }
  }

  lemma {:induction false} ClosedOthers(s: Cashier, env: nat -> Shake)
    requires !s.open && s.vips == []
    ensures var r := ServeOthers(s, env);
            !r.open && !Pending(r) && r.clients.Items <= s.clients.Items
    decreases |s.others|
  {
    if s.others != [] {
      ClosedOthers(TakeOther(Register(s, s.others[0], env(|s.served|)).0, s.open), env);
    }
  }

  /** A closed park answers every pending request and admits nobody. */
  lemma ClosedServeOnlyShrinks(s: Cashier, env: nat -> Shake)
    requires !s.open
    ensures var r := Serve(s, env);
            !r.open && !Pending(r) && r.clients.Items <= s.clients.Items
  {
    ClosedVips(s, env);
    ClosedOthers(ServeVips(s, env), env);
  }

  lemma LetterOnlyShrinks(s: Cashier, l: Letter<Message>, bill: Shake)
    ensures var r := Handle(s, l, bill);
            (r.open ==> s.open) && r.clients.Items <= s.clients.Items
  {}

  lemma MailboxOnlyShrinks(s: Cashier, receiving: seq<Event>, bill: Shake)
    ensures var r := HandleMailbox(s, receiving, bill);
            (r.open ==> s.open) && r.clients.Items <= s.clients.Items
  {
    hide Handle;
    var s1 := DeliverAll(s, receiving);
    var (ch, letter) := Receive(s1.ch);
    if letter.Some? {
      LetterOnlyShrinks(s1.(ch := ch), letter.value, bill);
    }
  }

  lemma ClosedPassOnlyShrinks(s: Cashier, p: Pass, env: nat -> Shake)
    requires !s.open
    ensures var r := Iterate(s, p, env);
            !r.open && r.clients.Items <= s.clients.Items
  {
    hide HandleMailbox, Serve;
    if !Finished(s) {
      var s1 := DeliverAll(s.(waiting := true), p.asleep);
      var w := Wait(s1.ch, -1, p.interrupted, false);
      if w.Some? {
        var s2 := s1.(waiting := false, ch := w.value);
        MailboxOnlyShrinks(s2, p.receiving, p.bill);
        ClosedServeOnlyShrinks(HandleMailbox(s2, p.receiving, p.bill), env);
      }
    }
  }

  /** Once the park is closed no pass adds a client, and it stays closed. */
  lemma {:induction false} ClosingIsStable(s: Cashier, ps: seq<Pass>, env: nat -> Shake)
    requires !s.open
    ensures var r := Run(s, ps, env);
            !r.open && r.clients.Items <= s.clients.Items
    decreases |ps|
  {
    if ps != [] {
      ClosedPassOnlyShrinks(s, ps[0], env);
      ClosingIsStable(Iterate(s, ps[0], env), ps[1..], env);
    }
  }

  lemma {:induction false} EventsClose(s: Cashier, es: seq<Event>)
    ensures DeliverAll(s, es).open <==> s.open && Close !in es
    decreases |es|
  {
    if es != [] {
      EventsClose(Deliver(s, es[0]), es[1..]);
    }
  }

  /** A newcomer is admitted to a closed park exactly when the park closes during its acknowledged handshake. */
  lemma LateAdmissionExactly(s: Cashier, e: Entry, h: Shake)
    requires e.pid !in s.clients
    ensures var r := Register(s, e, h).0;
            !r.open && e.pid in r.clients <==>
              s.open && Fits(s, e) && Acknowledged(h) && (Close in h.posting || Close in h.awaiting)
  {
    if !h.Missing? {
      EventsClose(s, h.posting);
      if h.Sent? {
        EventsClose(DeliverAll(s, h.posting), h.awaiting);
      }
    }
  }

  /** So over every run only the very last registration can come after closing. */
  lemma OneLateAdmission(parkSize: nat, ps: seq<Pass>, env: nat -> Shake, i: nat, j: nat)
    ensures var s := Run(Start(parkSize), ps, env);
            && (i < j < |s.log| && s.log[i].Joined? && s.log[j].Joined? ==> s.log[i].open)
            && (j < |s.log| && s.log[j].Joined? && s.open ==> s.log[j].open)
  {
    Reachable(parkSize, ps, env);
    var s := Run(Start(parkSize), ps, env);
    if j < |s.log| {
      assert Granted(s.log[j], s.served, s.open, env);
    }
  }

  // ----- Draining -----

  /** Nothing is sent any more and SIGTERM does not come; late signals and wake-ups by the main process may. */
  ghost predicate Quiet(es: seq<Event>) {
    forall e <- es :: e.Close? || (e.Mail? && !e.traffic.Post?)
  }

  ghost predicate QuietShake(h: Shake) {
    Throughout(h, Quiet)
  }

  ghost predicate QuietPass(p: Pass) {
    Quiet(p.asleep) && Quiet(p.receiving) && QuietShake(p.bill) && Quiet(p.logging)
  }

  ghost predicate IsExit(m: Message) {
    m.Exit?
  }

  /** Every registered client's exit is in the mailbox. */
  ghost predicate ExitsWait(s: Cashier) {
    Announced(s.clients.Keys, s.ch.box, IsExit)
  }

  /** A closed park in which no client will be heard of again, seen from the cashier. */
  ghost predicate Draining(s: Cashier) {
    !s.open && !s.terminated && s.ch.pending == {}
  }

  /** What the counter shows beyond the people registered. */
  ghost function Excess(s: Cashier): int {
    s.counter - Load(s.clients)
  }

  /** r differs from s at most by tokens gained. */
  ghost predicate OnlyTokens(s: Cashier, r: Cashier) {
    r.ch.tokens >= s.ch.tokens && r == s.(ch := s.ch.(tokens := r.ch.tokens))
  }

  lemma {:induction false} QuietEventsOnlyAddTokens(s: Cashier, es: seq<Event>)
    requires Draining(s) && Quiet(es)
    ensures OnlyTokens(s, DeliverAll(s, es))
    decreases |es|
  {
    if es != [] {
      assert es[0] in es;
      assert OnlyTokens(s, Deliver(s, es[0]));
      QuietEventsOnlyAddTokens(Deliver(s, es[0]), es[1..]);
    }
  }

  /** r has the same clients and unread letters as s, and is drained like it. */
  ghost predicate SameCrowd(s: Cashier, r: Cashier) {
    && Draining(r) && r.ch.tokens >= s.ch.tokens
    && r.clients == s.clients && r.counter == s.counter && r.ch.box == s.ch.box
  }

  lemma QuietRegister(s: Cashier, e: Entry, h: Shake)
    requires Draining(s) && QuietShake(h)
    ensures Register(s, e, h).1 && OnlyTokens(s, Register(s, e, h).0)
  {
    match h
    case Missing =>
    case Unsent(posting) => QuietEventsOnlyAddTokens(s, posting);
    case Sent(posting, _, _) => QuietEventsOnlyAddTokens(s, posting);
  }

  lemma {:induction false} QuietVips(s: Cashier, env: nat -> Shake)
    requires Draining(s) && forall i :: QuietShake(env(i))
    ensures SameCrowd(s, ServeVips(s, env))
    decreases |s.vips|
  {
    if s.vips != [] {
      QuietRegister(s, s.vips[0], env(|s.served|));
      QuietVips(TakeVip(Register(s, s.vips[0], env(|s.served|)).0, s.open), env);
    }
  }

  lemma {:induction false} QuietOthers(s: Cashier, env: nat -> Shake)
    requires Draining(s) && forall i :: QuietShake(env(i))
    ensures SameCrowd(s, ServeOthers(s, env))
    decreases |s.others|
  {
    if s.vips == [] && s.others != [] {
      QuietRegister(s, s.others[0], env(|s.served|));
      QuietOthers(TakeOther(Register(s, s.others[0], env(|s.served|)).0, s.open), env);
    }
  }

  lemma QuietSettle(s: Cashier, pid: Pid, visited: Option<bool>, h: Shake)
    requires Draining(s) && QuietShake(h)
    ensures OnlyTokens(s, Settle(s, pid, visited, h))
  {
    match h
    case Missing =>
    case Unsent(posting) => QuietEventsOnlyAddTokens(s, posting);
    case Sent(posting, _, awaiting) =>
      QuietEventsOnlyAddTokens(s, posting);
      QuietEventsOnlyAddTokens(DeliverAll(s, posting), awaiting);
  }

  lemma QuietHandle(s: Cashier, l: Letter<Message>, bill: Shake)
    requires Draining(s) && QuietShake(bill)
    ensures var r := Handle(s, l, bill);
            && Draining(r) && Excess(r) == Excess(s) && r.ch.box == s.ch.box
            && r.clients.Keys == if l.body.Exit? then s.clients.Keys - {l.from} else s.clients.Keys
  {
    if l.body.Exit? {
      QuietSettle(s, l.from, l.body.visitedRestaurant, bill);
      if l.from in s.clients {
        LoadRemove(s.clients, l.from);
      }
    }
  }

  /** Reading one letter keeps every client's exit unread, or removes the client it came from. */
  lemma QuietMailbox(s: Cashier, receiving: seq<Event>, bill: Shake)
    requires Draining(s) && ExitsWait(s) && Quiet(receiving) && QuietShake(bill)
    ensures var r := HandleMailbox(s, receiving, bill);
            && Draining(r) && ExitsWait(r) && Excess(r) == Excess(s)
            && r.ch.box == if s.ch.box == [] then [] else s.ch.box[1..]
  {
    QuietEventsOnlyAddTokens(s, receiving);
    var s1 := DeliverAll(s, receiving);
    if s.ch.box != [] {
      AnnouncedRest(s.clients.Keys, s.ch.box, IsExit);
      QuietHandle(s1.(ch := Receive(s1.ch).0), s.ch.box[0], bill);
    }
  }

  lemma QuietWork(s: Cashier, p: Pass, env: nat -> Shake)
    requires Draining(s) && ExitsWait(s) && QuietPass(p) && forall i :: QuietShake(env(i))
    ensures var r := Work(s, p, env);
            && Draining(r) && ExitsWait(r) && !Pending(r) && r.waiting == s.waiting && Excess(r) == Excess(s)
            && r.ch.box == if s.ch.box == [] then [] else s.ch.box[1..]
  {
    QuietMailbox(s, p.receiving, p.bill);
    var s1 := HandleMailbox(s, p.receiving, p.bill);
    QuietVips(s1, env);
    QuietOthers(ServeVips(s1, env), env);
    ClosedServeOnlyShrinks(s1, env);
    QuietEventsOnlyAddTokens(Serve(s1, env), p.logging);
  }

  lemma NobodyLeft(s: Cashier)
    requires ExitsWait(s) && s.ch.box == []
    ensures s.clients == map[]
  {
    NobodyAnnounced(s.clients.Keys, s.ch.box, IsExit);
  }

  /** A draining cashier that has not finished does not block, and reads one letter. */
  lemma DrainingPass(s: Cashier, p: Pass, env: nat -> Shake)
    requires Sound(s) && Settled(s) && !Finished(s)
    requires Draining(s) && ExitsWait(s) && QuietPass(p) && forall i :: QuietShake(env(i))
    requires s.waiting && s.ch.box == [] ==> s.ch.tokens >= 1
    ensures var r := Iterate(s, p, env);
            && Draining(r) && ExitsWait(r) && !r.waiting && !Pending(r) && Excess(r) == Excess(s)
            && r.ch.box == if s.ch.box == [] then [] else s.ch.box[1..]
  {
    if s.ch.box == [] {
      NobodyLeft(s);
    }
    var s0 := s.(waiting := true);
    QuietEventsOnlyAddTokens(s0, p.asleep);
    var s1 := DeliverAll(s0, p.asleep);
    assert s1.ch.tokens >= 1;
    QuietWork(s1.(waiting := false, ch := Wait(s1.ch, -1, p.interrupted, false).value), p, env);
  }

  /**
    * Closing drains the cashier. If every registered client's exit is in the mailbox and nobody is still to
    * signal, the loop ends within one pass for each unread letter - one more if it was asleep over an
    * empty mailbox - with nobody registered and, after at least one pass, every request answered.
    */
  lemma {:induction false} ClosingDrains(s: Cashier, ps: seq<Pass>, env: nat -> Shake)
    requires Sound(s) && Settled(s) && Draining(s) && ExitsWait(s)
    requires s.waiting && s.ch.box == [] ==> s.ch.tokens >= 1
    requires (forall p <- ps :: QuietPass(p)) && forall i :: QuietShake(env(i))
    requires |ps| >= if s.waiting && s.ch.box == [] then 1 else |s.ch.box|
    ensures var r := Run(s, ps, env);
            Finished(r) && r.clients == map[] && r.counter == Excess(s) && (Pending(r) ==> Finished(s))
    decreases |ps|
  {
    if Finished(s) {
      FinishedStays(s, ps, env);
      LoadEmpty(s.clients);
    } else {
      if s.ch.box == [] {
        NobodyLeft(s);
      }
      assert ps[0] in ps;
      var s1 := Iterate(s, ps[0], env);
      DrainingPass(s, ps[0], env);
      IterateKeeps(s, ps[0], env);
      ClosingDrains(s1, ps[1..], env);
      if Finished(s1) {
        FinishedStays(s1, ps[1..], env);
      }
    }
  }

  /**
    * The main process closes the park and then gives every event semaphore a token. A sleeping cashier is thereby
    * woken and drained, even if it had neither a client nor a letter to wait for.
    */
  lemma HandleSigintDrains(s: Cashier, p: Pass, ps: seq<Pass>, env: nat -> Shake)
    requires Sound(s) && Settled(s)
    requires s.waiting && !s.terminated && s.ch.pending == {} && ExitsWait(s)
    requires p.asleep == [Close, Mail(Extra)]
    requires QuietPass(p) && (forall q <- ps :: QuietPass(q)) && forall i :: QuietShake(env(i))
    requires 1 + |ps| >= |s.ch.box|
    ensures var r := Run(s, [p] + ps, env);
            Finished(r) && r.clients == map[] && r.counter == Excess(s) && !Pending(r)
  {
    hide Sound, Settled, Serve, HandleMailbox, Guard;
    var s1 := DeliverAll(s, p.asleep);
    EventsKeepSettled(s, p.asleep);
    assert s1 == Deliver(Deliver(s, Close), Mail(Extra)) by {
      assert p.asleep[1..] == [Mail(Extra)];
      assert DeliverAll(Deliver(s, Close), [Mail(Extra)]) == DeliverAll(Deliver(Deliver(s, Close), Mail(Extra)), []);
    }
    var p1 := p.(asleep := []);
    assert DeliverAll(s1, []) == s1 && s.(waiting := true) == s && s1.(waiting := true) == s1;
    assert Iterate(s, p, env) == Iterate(s1, p1, env);
    assert ([p] + ps)[1..] == ps && ([p1] + ps)[1..] == ps;
    ClosingDrains(s1, [p1] + ps, env);
  }

  // ----- SIGTERM -----

  lemma {:induction false} TerminationArrives(s: Cashier, es: seq<Event>)
    requires !s.open && (Terminate in es || (s.terminated && s.clients == map[] && s.ch.tokens >= 1))
    ensures var r := DeliverAll(s, es);
            r.terminated && r.clients == map[] && !r.open && r.ch.tokens >= 1
    decreases |es|
  {
    if es != [] {
      TerminationArrives(Deliver(s, es[0]), es[1..]);
    }
  }

  /** In a closed park SIGTERM gets a sleeping cashier out of its wait and its loop, whoever never sent an exit. */
  lemma SigtermWakesTheCashier(s: Cashier, p: Pass, env: nat -> Shake)
    requires !s.open && Terminate in p.asleep && !Finished(s)
    ensures var r := Iterate(s, p, env);
            Finished(r) && r.terminated && r.clients == map[]
  {
    var s1 := DeliverAll(s.(waiting := true), p.asleep);
    TerminationArrives(s.(waiting := true), p.asleep);
    var s2 := s1.(waiting := false, ch := Wait(s1.ch, -1, p.interrupted, false).value);
    var s3 := HandleMailbox(s2, p.receiving, p.bill);
    assert s3.terminated && s3.clients == map[] && !s3.open;
    ClosedServeOnlyShrinks(s3, env);
    VipsKeepTermination(s3, env);
    OthersKeepTermination(ServeVips(s3, env), env);
  }

  lemma {:induction false} VipsKeepTermination(s: Cashier, env: nat -> Shake)
    requires s.terminated
    ensures ServeVips(s, env).terminated
    decreases |s.vips|
  {
    if s.vips != [] {
      var (s1, done) := Register(s, s.vips[0], env(|s.served|));
      if done {
        VipsKeepTermination(TakeVip(s1, s.open), env);
      }
    }
  }

  lemma {:induction false} OthersKeepTermination(s: Cashier, env: nat -> Shake)
    requires s.terminated
    ensures ServeOthers(s, env).terminated
    decreases |s.others|
  {
    if s.vips == [] && s.others != [] {
      var (s1, done) := Register(s, s.others[0], env(|s.served|));
      if done {
        OthersKeepTermination(TakeOther(s1, s.open), env);
      }
    }
  }

  /** A cashier that has handled SIGTERM, at whatever moment: its park is closed and its clients have been cleared. */
  ghost predicate Cleaned(s: Cashier) {
    && (s.terminated <==> Cleared in s.log)
    && (s.terminated ==> !s.open && s.clients == map[] && s.log[|s.log| - 1] == Cleared)
  }

  /** The same while requests are served: one client may have been admitted since. */
  ghost predicate Ended(s: Cashier) {
    && (s.terminated <==> Cleared in s.log)
    && (s.terminated ==>
         && !s.open
         && var last := s.log[|s.log| - 1];
            || (last == Cleared && s.clients == map[])
            || (last.Joined? && s.clients == map[last.entry.pid := last.entry.who]))
  }

  lemma {:induction false} EventsKeepCleaned(s: Cashier, es: seq<Event>)
    requires Cleaned(s)
    ensures Cleaned(DeliverAll(s, es))
    ensures (s.terminated ==> s.ch.tokens >= 1) ==> DeliverAll(s, es).terminated ==> DeliverAll(s, es).ch.tokens >= 1
    decreases |es|
  {
    if es != [] {
      EventsKeepCleaned(Deliver(s, es[0]), es[1..]);
    }
  }

  lemma {:induction false} EventsKeepEnded(s: Cashier, es: seq<Event>)
    requires Ended(s)
    ensures Ended(DeliverAll(s, es))
    decreases |es|
  {
    if es != [] {
      EventsKeepEnded(Deliver(s, es[0]), es[1..]);
    }
  }

  lemma SettleKeepsCleaned(s: Cashier, pid: Pid, visited: Option<bool>, bill: Shake)
    requires Cleaned(s)
    ensures Cleaned(Settle(s, pid, visited, bill))
  {
    if !bill.Missing? {
      EventsKeepCleaned(s, bill.posting);
      if bill.Sent? {
        EventsKeepCleaned(DeliverAll(s, bill.posting), bill.awaiting);
      }
    }
  }

  lemma MailboxKeepsCleaned(s: Cashier, receiving: seq<Event>, bill: Shake)
    requires Cleaned(s)
    ensures Cleaned(HandleMailbox(s, receiving, bill))
  {
    hide DeliverAll, Settle;
    EventsKeepCleaned(s, receiving);
    var s1 := DeliverAll(s, receiving);
    var (ch, letter) := Receive(s1.ch);
    if letter.Some? && letter.value.body.Exit? {
      var l := letter.value;
      SettleKeepsCleaned(s1.(ch := ch), l.from, l.body.visitedRestaurant, bill);
    }
  }

  /** An admission after SIGTERM is the only one, because the park must have been open when it began. */
  lemma RegisterKeepsEnded(s: Cashier, e: Entry, h: Shake)
    requires Ended(s)
    ensures Ended(Register(s, e, h).0)
  {
    if !h.Missing? {
      EventsKeepEnded(s, h.posting);
      if h.Sent? && s.open {
        var s1 := DeliverAll(s, h.posting);
        EventsKeepEnded(s1, h.awaiting);
        if h.reply.Ack? {
          CleanedInHandshake(s, h);
        }
      }
    }
  }

  lemma CleanedInHandshake(s: Cashier, h: Shake)
    requires Ended(s) && s.open && h.Sent?
    ensures Cleaned(DeliverAll(DeliverAll(s, h.posting), h.awaiting))
  {
    EventsKeepCleaned(s, h.posting);
    EventsKeepCleaned(DeliverAll(s, h.posting), h.awaiting);
  }

  lemma {:induction false} VipsKeepEnded(s: Cashier, env: nat -> Shake)
    requires Ended(s)
    ensures Ended(ServeVips(s, env))
    decreases |s.vips|
  {
    if s.vips != [] {
      RegisterKeepsEnded(s, s.vips[0], env(|s.served|));
      var (s1, done) := Register(s, s.vips[0], env(|s.served|));
      if done {
        VipsKeepEnded(TakeVip(s1, s.open), env);
      }
    }
  }

  lemma {:induction false} OthersKeepEnded(s: Cashier, env: nat -> Shake)
    requires Ended(s)
    ensures Ended(ServeOthers(s, env))
    decreases |s.others|
  {
    if s.vips == [] && s.others != [] {
      RegisterKeepsEnded(s, s.others[0], env(|s.served|));
      var (s1, done) := Register(s, s.others[0], env(|s.served|));
      if done {
        OthersKeepEnded(TakeOther(s1, s.open), env);
      }
    }
  }

  lemma IterateKeepsEnded(s: Cashier, p: Pass, env: nat -> Shake)
    requires Ended(s) && (s.terminated ==> Finished(s))
    ensures var r := Iterate(s, p, env);
            Ended(r) && (r.terminated ==> Finished(r))
  {
    hide HandleMailbox, ServeVips, ServeOthers, DeliverAll;
    if !Finished(s) {
      var s0 := s.(waiting := true);
      EventsKeepCleaned(s0, p.asleep);
      var s1 := DeliverAll(s0, p.asleep);
      var w := Wait(s1.ch, -1, p.interrupted, false);
      if w.Some? {
        var s2 := s1.(waiting := false, ch := w.value);
        MailboxKeepsCleaned(s2, p.receiving, p.bill);
        var s3 := HandleMailbox(s2, p.receiving, p.bill);
        VipsKeepEnded(s3, env);
        OthersKeepEnded(ServeVips(s3, env), env);
        EventsKeepEnded(Serve(s3, env), p.logging);
      }
    }
  }

  lemma {:induction false} RunKeepsEnded(s: Cashier, ps: seq<Pass>, env: nat -> Shake)
    requires Ended(s) && (s.terminated ==> Finished(s))
    ensures var r := Run(s, ps, env);
            Ended(r) && (r.terminated ==> Finished(r))
    decreases |ps|
  {
    if ps != [] {
      IterateKeepsEnded(s, ps[0], env);
      RunKeepsEnded(Iterate(s, ps[0], env), ps[1..], env);
    }
  }

  /**
    * Over every run, whichever blocking call a SIGTERM falls into: once it has cleared the clients of a closed park,
    * the pass in which it did so is the last. A client is left registered exactly if its registration comes after the
    * clearing, and then it is the only one.
    */
  lemma SigtermEndsTheLoop(parkSize: nat, ps: seq<Pass>, env: nat -> Shake)
    ensures var s := Run(Start(parkSize), ps, env);
            Cleared in s.log ==>
              && Finished(s) && s.terminated && !s.open
              && (s.clients != map[] <==> s.log[|s.log| - 1].Joined?)
              && forall p <- s.clients :: s.clients.Keys == {p} && s.log[|s.log| - 1].entry.pid == p
  {
    RunKeepsEnded(Start(parkSize), ps, env);
    var s := Run(Start(parkSize), ps, env);
    if Cleared in s.log && s.log[|s.log| - 1].Joined? {
      var e := s.log[|s.log| - 1].entry;
      assert e.pid in s.clients && s.clients.Keys == {e.pid};
    }
  }

  /** SIGTERM takes effect during some events of an open park if it comes after the closing. */
  ghost predicate ClosedThenTerminated(es: seq<Event>) {
    exists i, j :: 0 <= i < j < |es| && es[i] == Close && es[j] == Terminate
  }

  /** SIGTERM clears the clients during some events: the park is closed by then. */
  ghost predicate Clears(open: bool, es: seq<Event>) {
    if open then ClosedThenTerminated(es) else Terminate in es
  }

  /** What some events do to the park, the clients and the counter. */
  lemma {:induction false} EventsClearExactly(s: Cashier, es: seq<Event>)
    ensures var r, cleared := DeliverAll(s, es), Clears(s.open, es);
            && r.clients == (if cleared then map[] else s.clients)
            && r.counter == (if cleared then 0 else s.counter)
            && (r.terminated <==> s.terminated || cleared)
            && (r.open <==> s.open && Close !in es)
            && r.ch.received == s.ch.received
    decreases |es|
  {
    if es != [] {
      assert es == [es[0]] + es[1..];
      hide Clears, ClosedThenTerminated, Step;
      EventsClearExactly(Deliver(s, es[0]), es[1..]);
      EventKeepsReceived(s, es[0]);
      ClearsLater(s.open, es);
    }
  }

  lemma EventKeepsReceived(s: Cashier, e: Event)
    ensures Deliver(s, e).ch.received == s.ch.received
  {}

  lemma ClearsLater(open: bool, es: seq<Event>)
    requires es != []
    ensures Clears(open, es) <==>
              (!open && es[0] == Terminate) || Clears(open && es[0] != Close, es[1..])
  {
    assert es == [es[0]] + es[1..];
    LaterTermination(es);
  }

  lemma LaterTermination(es: seq<Event>)
    requires es != []
    ensures ClosedThenTerminated(es) <==>
              ClosedThenTerminated(es[1..]) || (es[0] == Close && Terminate in es[1..])
  {
    var rest := es[1..];
    if ClosedThenTerminated(es) {
      var i, j :| 0 <= i < j < |es| && es[i] == Close && es[j] == Terminate;
      assert rest[j - 1] == Terminate;
      if i > 0 {
        assert rest[i - 1] == Close;
      }
    }
    if ClosedThenTerminated(rest) {
      var i, j :| 0 <= i < j < |rest| && rest[i] == Close && rest[j] == Terminate;
      assert es[i + 1] == Close && es[j + 1] == Terminate;
    }
    if es[0] == Close && Terminate in rest {
      var j :| 0 <= j < |rest| && rest[j] == Terminate;
      assert es[j + 1] == Terminate;
    }
  }

  lemma {:induction false} DeliverAllConcat(s: Cashier, a: seq<Event>, b: seq<Event>)
    ensures DeliverAll(s, a + b) == DeliverAll(DeliverAll(s, a), b)
    decreases |a|
  {
    if a == [] {
      assert a + b == b;
    } else {
      assert (a + b)[1..] == a[1..] + b;
      DeliverAllConcat(Deliver(s, a[0]), a[1..], b);
    }
  }

  /**
    * In terms of one handshake: SIGTERM leaves a client registered exactly if the entry fits, is acknowledged, and both
    * the closing and the signal after it come during the handshake.
    */
  lemma ClientLeftExactly(s: Cashier, e: Entry, h: Shake)
    requires Cleaned(s) && !s.terminated
    ensures var r := Register(s, e, h).0;
            r.terminated && r.clients != map[] <==>
              s.open && Fits(s, e) && Acknowledged(h) && ClosedThenTerminated(h.posting + h.awaiting)
  {
    if !h.Missing? {
      EventsClearExactly(s, h.posting);
      EventsKeepCleaned(s, h.posting);
      if h.Sent? {
        DeliverAllConcat(s, h.posting, h.awaiting);
        EventsClearExactly(s, h.posting + h.awaiting);
        EventsKeepCleaned(DeliverAll(s, h.posting), h.awaiting);
        assert s.open && Fits(s, e) && h.reply.Ack? ==> e.pid in Register(s, e, h).0.clients;
      }
    }
  }
}
