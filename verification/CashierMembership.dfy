/** Who is registered: what each handshake and each letter does to the clients, and what that comes to over a run. */
module CashierMembership {
  import opened Common
  import opened Mailbox
  import opened CashierSpec
  import opened CashierProofs
  import opened CashierHistory
  import opened CashierTheorems
  import opened CashierClosing

  // ----- One request -----

  /** An open park has no room for the party. */
  predicate NoRoom(s: Cashier, e: Entry) {
    s.open && s.counter + 1 + (if e.who.hasChild then 1 else 0) > s.parkSize
  }

  /** What happens while the cashier deals with the request: a request without room has no handshake. */
  ghost function HeardWith(s: Cashier, e: Entry, h: Shake): seq<Event> {
    if NoRoom(s, e) then [] else Delivered(h, s.open)
  }

  /**
    * One request, of either class, by a newcomer or not. It stays in its queue exactly if an open park has no room.
    * Its party is registered and counted exactly if the park was open, had room, and the permit was acknowledged;
    * otherwise, and for everybody else, only a SIGTERM that finds the park closed changes anything.
    */
  lemma RegisterExactly(s: Cashier, e: Entry, h: Shake)
    ensures var (r, done) := Register(s, e, h);
            var admitted := s.open && !NoRoom(s, e) && Acknowledged(h);
            var cleared := Clears(s.open, HeardWith(s, e, h));
            var clients, counter := if cleared then map[] else s.clients, if cleared then 0 else s.counter;
            && (done <==> !NoRoom(s, e))
            && r.clients == (if admitted then clients[e.pid := e.who] else clients)
            && r.counter == (if admitted then counter + 1 + (if e.who.hasChild then 1 else 0) else counter)
            && (r.terminated <==> s.terminated || cleared)
            && (r.open <==> s.open && Close !in HeardWith(s, e, h))
            && r.ch.received == s.ch.received
  {
    hide Clears;
    if NoRoom(s, e) || h.Missing? {
      NothingClears(s.open);
    } else {
      EventsClearExactly(s, h.posting);
      if h.Sent? && s.open {
        DeliverAllConcat(s, h.posting, h.awaiting);
        EventsClearExactly(s, h.posting + h.awaiting);
      }
    }
  }

  lemma NothingClears(open: bool)
    ensures !Clears(open, [])
  {}

  /** In particular a newcomer is registered, with its party, exactly under these conditions. */
  lemma NewcomerExactly(s: Cashier, e: Entry, h: Shake)
    requires e.pid !in s.clients
    ensures var r := Register(s, e, h).0;
            && (e.pid in r.clients <==>
                 s.open && s.counter + (if e.who.hasChild then 2 else 1) <= s.parkSize && Acknowledged(h))
            && (e.pid in r.clients ==> r.clients[e.pid] == e.who)
  {
    RegisterExactly(s, e, h);
  }

  // ----- One letter -----

  /** A registered client gets a bill, unless its letter is malformed or it is a VIP who did not eat. */
  predicate Billed(s: Cashier, pid: Pid, visited: Option<bool>) {
    pid in s.clients && visited.Some? && (s.clients[pid].kind == Ordinary || visited == Some(true))
  }

  /** What the cashier hears while it deals with an exit: the bill handshake takes place exactly if a bill is due. */
  ghost function HeardWithExit(s: Cashier, pid: Pid, visited: Option<bool>, bill: Shake): seq<Event> {
    if Billed(s, pid, visited) then Delivered(bill, true) else []
  }

  lemma SettleHears(s: Cashier, pid: Pid, visited: Option<bool>, bill: Shake)
    ensures Settle(s, pid, visited, bill) == DeliverAll(s, HeardWithExit(s, pid, visited, bill))
  {
    if Billed(s, pid, visited) && bill.Sent? {
      DeliverAllConcat(s, bill.posting, bill.awaiting);
    }
  }

  /**
    * Whoever sends an exit is gone, whatever state the park is in, and its weight is given back. The others stay,
    * unless the bill handshake brings a SIGTERM to the closed park.
    */
  lemma ExitExactly(s: Cashier, l: Letter<Message>, bill: Shake)
    requires l.body.Exit?
    ensures var r, heard := Handle(s, l, bill), HeardWithExit(s, l.from, l.body.visitedRestaurant, bill);
            var cleared := Clears(s.open, heard);
            && l.from !in r.clients
            && r.clients == (if cleared then map[] else s.clients - {l.from})
            && r.counter == (if cleared then 0
                             else if l.from in s.clients then s.counter - Weight(s.clients[l.from].hasChild)
                             else s.counter)
            && (r.terminated <==> s.terminated || cleared)
            && (r.open <==> s.open && Close !in heard)
            && r.served == s.served && r.arrived == s.arrived && r.ch.received == s.ch.received
  {
    hide Clears, Settle, HeardWithExit, DeliverAll;
    var heard := HeardWithExit(s, l.from, l.body.visitedRestaurant, bill);
    SettleHears(s, l.from, l.body.visitedRestaurant, bill);
    EventsClearExactly(s, heard);
    assert l.from !in s.clients ==> s.clients - {l.from} == s.clients;
  }

  lemma OtherLetterExactly(s: Cashier, l: Letter<Message>, bill: Shake)
    requires !l.body.Exit?
    ensures var r := Handle(s, l, bill);
            && r.clients == s.clients && r.counter == s.counter && r.terminated == s.terminated
            && r.served == s.served && r.arrived == s.arrived + AsRequest(l) && r.ch == s.ch
  {}

  /** What the cashier does with its mailbox: it reads at most one letter, queues a request and removes who exits. */
  lemma MailboxExactly(s: Cashier, receiving: seq<Event>, bill: Shake)
    ensures var s1, r := DeliverAll(s, receiving), HandleMailbox(s, receiving, bill);
            && r.ch.received == s1.ch.received + (if s1.ch.box == [] then [] else [s1.ch.box[0]])
            && r.served == s.served
            && if s1.ch.box != [] && s1.ch.box[0].body.Exit? then
                 var l := s1.ch.box[0];
                 var cleared := Clears(s1.open, HeardWithExit(s1, l.from, l.body.visitedRestaurant, bill));
                 && l.from !in r.clients && r.clients == (if cleared then map[] else s1.clients - {l.from})
                 && (r.terminated <==> s1.terminated || cleared) && r.arrived == s.arrived
               else
                 && r.clients == s1.clients && r.counter == s1.counter && r.terminated == s1.terminated
                 && r.arrived == s.arrived + if s1.ch.box == [] then [] else AsRequest(s1.ch.box[0])
  {
    hide DeliverAll, Clears, Handle, AsRequest, HeardWithExit;
    var s1 := DeliverAll(s, receiving);
    if s1.ch.box != [] {
      var l, s2 := s1.ch.box[0], s1.(ch := Receive(s1.ch).0);
      if l.body.Exit? {
        ExitExactly(s2, l, bill);
        BillIgnoresMailbox(s1, s2, l.from, l.body.visitedRestaurant, bill);
      } else {
        OtherLetterExactly(s2, l, bill);
      }
    }
  }

  lemma BillIgnoresMailbox(s: Cashier, r: Cashier, pid: Pid, visited: Option<bool>, bill: Shake)
    requires r.clients == s.clients
    ensures HeardWithExit(r, pid, visited, bill) == HeardWithExit(s, pid, visited, bill)
  {}

  // ----- Every run -----

  ghost predicate ExitOf(l: Letter<Message>, p: Pid) {
    l.from == p && l.body.Exit?
  }

  /** The k-th request served: by p, in an open park, and acknowledged; and no exit of p has been read since. */
  ghost predicate Stays(served: seq<Served>, received: seq<Letter<Message>>, env: nat -> Shake, p: Pid, k: nat) {
    && k < |served| && served[k].entry.pid == p && served[k].open && Acknowledged(env(k))
    && forall i :: served[k].heard <= i < |received| ==> !ExitOf(received[i], p)
  }

  ghost predicate LastStay(served: seq<Served>, received: seq<Letter<Message>>, env: nat -> Shake, p: Pid, k: nat) {
    && Stays(served, received, env, p, k)
    && forall j: nat :: k < j ==> !Stays(served, received, env, p, j)
  }

  /** The clients are those with a stay, each with the party of its last one. */
  ghost predicate Members(clients: map<Pid, Visitor>, served: seq<Served>, received: seq<Letter<Message>>,
                          env: nat -> Shake) {
    && (forall k :: 0 <= k < |served| ==> served[k].heard <= |received|)
    && (forall p :: p in clients <==> exists k: nat :: Stays(served, received, env, p, k))
    && (forall p, k: nat :: LastStay(served, received, env, p, k) ==> p in clients && clients[p] == served[k].entry.who)
  }

  ghost predicate Peopled(s: Cashier, env: nat -> Shake) {
    !s.terminated ==> Members(s.clients, s.served, s.ch.received, env)
  }

  lemma EventsKeepPeopled(s: Cashier, es: seq<Event>, env: nat -> Shake)
    requires Peopled(s, env)
    ensures Peopled(DeliverAll(s, es), env)
  {
    hide Members;
    EventsClearExactly(s, es);
  }

  lemma ServedKeepsMembers(clients: map<Pid, Visitor>, served: seq<Served>, received: seq<Letter<Message>>,
                           env: nat -> Shake, v: Served)
    requires Members(clients, served, received, env) && v.heard == |received|
    ensures Members(if v.open && Acknowledged(env(|served|)) then clients[v.entry.pid := v.entry.who] else clients,
                    served + [v], received, env)
  {
    var n, more := |served|, served + [v];
    var admitted := v.open && Acknowledged(env(n));
    forall p, k: nat
      ensures Stays(more, received, env, p, k) <==>
                if k == n then admitted && p == v.entry.pid else Stays(served, received, env, p, k)
    {
      assert k < n ==> more[k] == served[k];
    }
    forall p, k: nat | LastStay(more, received, env, p, k)
      ensures if k == n then admitted && p == v.entry.pid
              else LastStay(served, received, env, p, k) && !(admitted && p == v.entry.pid)
    {
      assert k < n ==> !Stays(more, received, env, p, n);
      forall j: nat | k < j < n
        ensures !Stays(served, received, env, p, j)
      {
        assert !Stays(more, received, env, p, j);
      }
    }
    assert admitted ==> Stays(more, received, env, v.entry.pid, n);
    forall p | p in clients
      ensures exists k: nat :: Stays(more, received, env, p, k)
    {
      var k: nat :| Stays(served, received, env, p, k);
      assert Stays(more, received, env, p, k);
    }
  }

  lemma ReadKeepsMembers(clients: map<Pid, Visitor>, served: seq<Served>, received: seq<Letter<Message>>,
                         env: nat -> Shake, l: Letter<Message>)
    requires Members(clients, served, received, env)
    ensures Members(if l.body.Exit? then clients - {l.from} else clients, served, received + [l], env)
  {
    var more := received + [l];
    forall p, k: nat
      ensures Stays(served, more, env, p, k) <==> Stays(served, received, env, p, k) && !ExitOf(l, p)
    {
      if Stays(served, more, env, p, k) {
        assert more[|received|] == l;
        forall i | served[k].heard <= i < |received|
          ensures !ExitOf(received[i], p)
        {
          assert more[i] == received[i];
        }
      }
    }
    forall p, k: nat | LastStay(served, more, env, p, k)
      ensures LastStay(served, received, env, p, k) && !ExitOf(l, p)
    {
      forall j: nat | k < j
        ensures !Stays(served, received, env, p, j)
      {
        assert !Stays(served, more, env, p, j);
      }
    }
  }

  lemma RequestKeepsPeopled(s: Cashier, v: Served, env: nat -> Shake)
    requires Peopled(s, env) && v.open == s.open && v.heard == |s.ch.received|
    ensures var (r, done) := Register(s, v.entry, env(|s.served|));
            done ==> Peopled(Noted(r, v), env)
  {
    hide Members, Register, Clears;
    RegisterExactly(s, v.entry, env(|s.served|));
    if !s.terminated {
      ServedKeepsMembers(s.clients, s.served, s.ch.received, env, v);
    }
  }

  lemma {:induction false} VipsKeepPeopled(s: Cashier, env: nat -> Shake)
    requires Peopled(s, env)
    ensures Peopled(ServeVips(s, env), env)
    decreases |s.vips|
  {
    hide Peopled, Register;
    if s.vips != [] {
      var (s1, done) := Register(s, s.vips[0], env(|s.served|));
      RegisterExactly(s, s.vips[0], env(|s.served|));
      if done {
        var v := Served(s.vips[0], true, s.open, |s.ch.received|);
        RequestKeepsPeopled(s, v, env);
        TakingIsNoting(s1, TakeVip(s1, s.open), v, env);
        VipsKeepPeopled(TakeVip(s1, s.open), env);
      }
    }
  }

  lemma TakingIsNoting(s: Cashier, r: Cashier, v: Served, env: nat -> Shake)
    requires Peopled(Noted(s, v), env)
    requires r.clients == s.clients && r.served == s.served + [v] && r.ch == s.ch && r.terminated == s.terminated
    ensures Peopled(r, env)
  {}

  lemma {:induction false} OthersKeepPeopled(s: Cashier, env: nat -> Shake)
    requires Peopled(s, env)
    ensures Peopled(ServeOthers(s, env), env)
    decreases |s.others|
  {
    hide Peopled, Register;
    if s.vips == [] && s.others != [] {
      var (s1, done) := Register(s, s.others[0], env(|s.served|));
      RegisterExactly(s, s.others[0], env(|s.served|));
      if done {
        var v := Served(s.others[0], false, s.open, |s.ch.received|);
        RequestKeepsPeopled(s, v, env);
        TakingIsNoting(s1, TakeOther(s1, s.open), v, env);
        OthersKeepPeopled(TakeOther(s1, s.open), env);
      }
    }
  }

  lemma MailboxKeepsPeopled(s: Cashier, receiving: seq<Event>, bill: Shake, env: nat -> Shake)
    requires Peopled(s, env)
    ensures Peopled(HandleMailbox(s, receiving, bill), env)
  {
    hide Members, DeliverAll, HandleMailbox, Clears;
    EventsKeepPeopled(s, receiving, env);
    MailboxExactly(s, receiving, bill);
    var s1, r := DeliverAll(s, receiving), HandleMailbox(s, receiving, bill);
    if s1.ch.box == [] {
      assert r.ch.received == s1.ch.received;
    } else if !r.terminated {
      ReadKeepsMembers(s1.clients, s1.served, s1.ch.received, env, s1.ch.box[0]);
    }
  }

  lemma IterateKeepsPeopled(s: Cashier, p: Pass, env: nat -> Shake)
    requires Peopled(s, env)
    ensures Peopled(Iterate(s, p, env), env)
  {
    hide Members, HandleMailbox, ServeVips, ServeOthers, DeliverAll;
    if !Finished(s) {
      EventsKeepPeopled(s.(waiting := true), p.asleep, env);
      var s1 := DeliverAll(s.(waiting := true), p.asleep);
      var w := Wait(s1.ch, -1, p.interrupted, false);
      if w.Some? {
        var s2 := s1.(waiting := false, ch := w.value);
        MailboxKeepsPeopled(s2, p.receiving, p.bill, env);
        var s3 := HandleMailbox(s2, p.receiving, p.bill);
        VipsKeepPeopled(s3, env);
        OthersKeepPeopled(ServeVips(s3, env), env);
        EventsKeepPeopled(Serve(s3, env), p.logging, env);
      }
    }
  }

  lemma {:induction false} RunKeepsPeopled(s: Cashier, ps: seq<Pass>, env: nat -> Shake)
    requires Peopled(s, env)
    ensures Peopled(Run(s, ps, env), env)
    decreases |ps|
  {
    hide Peopled, Iterate;
    if ps != [] {
      IterateKeepsPeopled(s, ps[0], env);
      RunKeepsPeopled(Iterate(s, ps[0], env), ps[1..], env);
    }
  }

  /**
    * Over every run, until SIGTERM clears the park: a pid is registered exactly if it has acknowledged a permit in a
    * handshake that began in an open park, and no exit of its own has been read since; and it is registered with the
    * party of the last such request. After SIGTERM see CashierClosing.SigtermEndsTheLoop.
    */
  lemma RegisteredExactly(parkSize: nat, ps: seq<Pass>, env: nat -> Shake, p: Pid)
    ensures var s := Run(Start(parkSize), ps, env);
            !s.terminated ==>
              && (p in s.clients <==> exists k: nat :: Stays(s.served, s.ch.received, env, p, k))
              && forall k: nat :: LastStay(s.served, s.ch.received, env, p, k) ==>
                   p in s.clients && s.clients[p] == s.served[k].entry.who
  {
    RunKeepsPeopled(Start(parkSize), ps, env);
  }
}
