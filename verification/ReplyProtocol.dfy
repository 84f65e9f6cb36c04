/**
  * The handshake over a client's reply queue, as interleaved steps of one server and any number of clients.
  * The queue holds one message and carries offers (permits and bills) one way and acknowledgements the other.
  * The server opens it by the client's name whenever it likes, so stale requests are covered; an unlinked queue
  * lives on for a server that still has it open; and every wait of either side may time out at any moment.
  */
module ReplyProtocol {
  import opened Common

  datatype Kind = Permit | Bill

  /** The number is history: it tells apart the offers a server makes. */
  datatype Offer = Offer(number: nat, kind: Kind, allowed: bool)

  /** An acknowledgement carries no reference; the offer it answers is history, and no step depends on it. */
  datatype Message = Proposal(offer: Offer) | Answer(answers: Offer)

  /** One instance of a queue. What its owner created it for, and what it has received from it, is history. */
  datatype Queue = Queue(owner: Pid, wants: Kind, content: Option<Message>, received: Option<Message>)

  datatype Client =
    | Expecting(q: nat, wants: Kind)
    | Answering(q: nat, offer: Offer)
    | Closing(q: nat)

  datatype Server =
    | Free
    | Opened(q: nat, pid: Pid, kind: Kind)
    | Awaiting(q: nat, pid: Pid, offer: Offer)

  /** History of one handshake of the server, from opening the queue to its end. */
  datatype Outcome = NoQueue | Unposted | Posted(offer: Offer, reply: Reply)

  datatype Attempt = Attempt(pid: Pid, kind: Kind, outcome: Outcome)

  datatype State = State(
    queues: seq<Queue>, names: map<Pid, nat>, clients: map<Pid, Client>, server: Server, next: nat,
    accepted: set<(Pid, Offer)>,    // clients that sent their acknowledgement: they consider themselves admitted
    confirmed: set<(Pid, Offer)>,   // pids that the server registered or settled
    timedOut: set<Offer>,           // history: offers whose reply the server stopped waiting for
    attempts: seq<Attempt>)         // history: the server's handshakes that are over, in order

  datatype Step =
    | Create(p: Pid, wants: Kind) | ReceiveOffer(p: Pid) | ReceiveTimeout(p: Pid)
    | SendAck(p: Pid) | SendAckTimeout(p: Pid) | Unlink(p: Pid)
    | Open(p: Pid, kind: Kind) | SendOffer(allowed: bool) | SendOfferTimeout | ReceiveReply | ReplyTimeout

  const INIT := State([], map[], map[], Free, 0, {}, {}, {}, [])

  function Put(s: State, q: nat, m: Option<Message>): State
    requires q < |s.queues|
  {
    s.(queues := s.queues[q := s.queues[q].(content := m)])
  }

  /** A client goes on only with what it asked for. */
  predicate Welcome(wants: Kind, m: Message) {
    m.Proposal? && m.offer.kind == wants && m.offer.allowed
  }

  function ClientStep(s: State, a: Step): State {
    match a
    case Create(p, wants) =>
      if p in s.clients || p in s.names then s
      else s.(queues := s.queues + [Queue(p, wants, None, None)], names := s.names[p := |s.queues|],
              clients := s.clients[p := Expecting(|s.queues|, wants)])
    case ReceiveOffer(p) =>
      if p !in s.clients || !s.clients[p].Expecting? then s
      else
        var c := s.clients[p];
        if c.q >= |s.queues| || s.queues[c.q].content.None? then s
        else
          var m := s.queues[c.q].content.value;
          var s1 := s.(queues := s.queues[c.q := s.queues[c.q].(content := None, received := Some(m))]);
          s1.(clients := s.clients[p := if Welcome(c.wants, m) then Answering(c.q, m.offer) else Closing(c.q)])
    case SendAck(p) =>
      if p !in s.clients || !s.clients[p].Answering? then s
      else
        var c := s.clients[p];
        if c.q >= |s.queues| || s.queues[c.q].content.Some? then s
        else Put(s, c.q, Some(Answer(c.offer))).(clients := s.clients[p := Closing(c.q)],
                                              accepted := s.accepted + {(p, c.offer)})
    case ReceiveTimeout(p) =>
      if p in s.clients && s.clients[p].Expecting? then s.(clients := s.clients[p := Closing(s.clients[p].q)]) else s
    case SendAckTimeout(p) =>
      if p in s.clients && s.clients[p].Answering? then s.(clients := s.clients[p := Closing(s.clients[p].q)]) else s
    case Unlink(p) =>
      if p in s.clients && s.clients[p].Closing? then s.(clients := s.clients - {p}, names := s.names - {p}) else s
    case _ => s
  }

  /** The end of a handshake. */
  function Done(s: State, p: Pid, kind: Kind, outcome: Outcome): State {
    s.(server := Free, attempts := s.attempts + [Attempt(p, kind, outcome)])
  }

  function ServerStep(s: State, a: Step): State {
    match a
    case Open(p, kind) =>
      if !s.server.Free? then s
      else if p in s.names then s.(server := Opened(s.names[p], p, kind))
      else Done(s, p, kind, NoQueue)
    case SendOffer(allowed) =>
      if !s.server.Opened? || s.server.q >= |s.queues| || s.queues[s.server.q].content.Some? then s
      else
        var u := s.server;
        var o := Offer(s.next, u.kind, allowed || u.kind == Bill);
        var s1 := Put(s, u.q, Some(Proposal(o))).(next := s.next + 1);
        if o.allowed then s1.(server := Awaiting(u.q, u.pid, o)) else Done(s1, u.pid, u.kind, Posted(o, Silence))
    case SendOfferTimeout =>
      if s.server.Opened? then Done(s, s.server.pid, s.server.kind, Unposted) else s
    case ReceiveReply =>
      if !s.server.Awaiting? || s.server.q >= |s.queues| || s.queues[s.server.q].content.None? then s
      else
        var u := s.server;
        var answered := s.queues[u.q].content.value.Answer?;
        var s1 := Done(Put(s, u.q, None), u.pid, u.offer.kind, Posted(u.offer, if answered then Ack else Other));
        if answered then s1.(confirmed := s.confirmed + {(u.pid, u.offer)}) else s1
    case ReplyTimeout =>
      if s.server.Awaiting?
      then Done(s, s.server.pid, s.server.offer.kind, Posted(s.server.offer, Silence)).(
             timedOut := s.timedOut + {s.server.offer})
      else s
    case _ => s
  }

  function Do(s: State, a: Step): State {
    if a.Create? || a.ReceiveOffer? || a.ReceiveTimeout? || a.SendAck? || a.SendAckTimeout? || a.Unlink?
    then ClientStep(s, a) else ServerStep(s, a)
  }

  function Exec(s: State, steps: seq<Step>): State
    decreases |steps|
  {
    if steps == [] then s else Exec(Do(s, steps[0]), steps[1..])
  }

  // ----- The invariant -----

  ghost predicate QueueSound(u: Queue, accepted: set<(Pid, Offer)>) {
    u.content.Some? && u.content.value.Answer? ==>
      u.received == Some(Proposal(u.content.value.answers)) && (u.owner, u.content.value.answers) in accepted
  }

  ghost predicate ClientSound(queues: seq<Queue>, p: Pid, c: Client) {
    && c.q < |queues| && queues[c.q].owner == p
    && (c.Expecting? ==> queues[c.q].received.None?)
    && (c.Answering? ==> queues[c.q].received == Some(Proposal(c.offer)))
  }

  /** The server's own offer is still there, or its client took it and then, at most, answered it. */
  ghost predicate ServerSound(queues: seq<Queue>, server: Server) {
    match server
    case Free => true
    case Opened(q, pid, _) => q < |queues| && queues[q].owner == pid
    case Awaiting(q, pid, o) =>
      && q < |queues| && queues[q].owner == pid
      && var u := queues[q];
         || u.content == Some(Proposal(o))
         || (u.received == Some(Proposal(o)) && (u.content.None? || u.content == Some(Answer(o))))
  }

  ghost predicate Sound(s: State) {
    && (forall u <- s.queues :: QueueSound(u, s.accepted))
    && (forall p <- s.clients :: ClientSound(s.queues, p, s.clients[p]))
    && (forall p <- s.names :: s.names[p] < |s.queues| && s.queues[s.names[p]].owner == p)
    && ServerSound(s.queues, s.server)
    && s.confirmed <= s.accepted
  }

  lemma ClientStepKeeps(s: State, a: Step)
    requires Sound(s)
    ensures Sound(ClientStep(s, a))
  {
    var t := ClientStep(s, a);
    forall i | 0 <= i < |t.queues|
      ensures QueueSound(t.queues[i], t.accepted)
    {
      if i < |s.queues| {
        assert s.queues[i] in s.queues;
      }
    }
  }

  /** An acknowledgement can only be placed in an empty queue, so it answers the offer the server is waiting on. */
  lemma ServerStepKeeps(s: State, a: Step)
    requires Sound(s)
    ensures Sound(ServerStep(s, a))
  {
    var t := ServerStep(s, a);
    forall i | 0 <= i < |t.queues|
      ensures QueueSound(t.queues[i], t.accepted)
    {
      assert s.queues[i] in s.queues;
    }
    if s.server.Awaiting? {
      assert s.queues[s.server.q] in s.queues;
    }
  }

  lemma {:induction false} ExecKeeps(s: State, steps: seq<Step>)
    requires Sound(s)
    ensures Sound(Exec(s, steps))
    decreases |steps|
  {
    if steps != [] {
      ClientStepKeeps(s, steps[0]);
      ServerStepKeeps(s, steps[0]);
      ExecKeeps(Do(s, steps[0]), steps[1..]);
    }
  }

  /** Whoever the server registers or settles has accepted that very offer, in every interleaving. */
  lemma Agreement(steps: seq<Step>, p: Pid, o: Offer)
    ensures var s := Exec(INIT, steps);
            (p, o) in s.confirmed ==> (p, o) in s.accepted
  {
    ExecKeeps(INIT, steps);
  }

  // ----- One acceptance per offer -----

  ghost predicate Carries(u: Queue, number: nat) {
    || (u.content.Some? && u.content.value.Proposal? && u.content.value.offer.number == number)
    || (u.received.Some? && u.received.value.Proposal? && u.received.value.offer.number == number)
  }

  /** An offer is found in one queue only, and what was accepted was received from a queue of one's own. */
  ghost predicate Distinct(s: State) {
    && (forall i, n: nat :: 0 <= i < |s.queues| && Carries(s.queues[i], n) ==> n < s.next)
    && (forall i, j, n: nat :: 0 <= i < j < |s.queues| && Carries(s.queues[i], n) ==> !Carries(s.queues[j], n))
    && (forall a <- s.accepted :: exists i :: 0 <= i < |s.queues| && s.queues[i].owner == a.0
                                              && s.queues[i].received == Some(Proposal(a.1)))
  }

  lemma AcceptedStays(s: State, t: State)
    requires |s.queues| <= |t.queues|
    requires forall i :: 0 <= i < |s.queues| && s.queues[i].received.Some? ==>
               t.queues[i].owner == s.queues[i].owner && t.queues[i].received == s.queues[i].received
    requires forall a <- s.accepted :: exists i :: 0 <= i < |s.queues| && s.queues[i].owner == a.0
                                                   && s.queues[i].received == Some(Proposal(a.1))
    ensures forall a <- s.accepted :: exists i :: 0 <= i < |t.queues| && t.queues[i].owner == a.0
                                                  && t.queues[i].received == Some(Proposal(a.1))
  {
    forall a <- s.accepted
      ensures exists i :: 0 <= i < |t.queues| && t.queues[i].owner == a.0 && t.queues[i].received == Some(Proposal(a.1))
    {
      var i :| 0 <= i < |s.queues| && s.queues[i].owner == a.0 && s.queues[i].received == Some(Proposal(a.1));
      assert t.queues[i].owner == a.0;
    }
  }

  lemma ClientStepKeepsDistinct(s: State, a: Step)
    requires Sound(s) && Distinct(s)
    ensures Distinct(ClientStep(s, a))
  {
    var t := ClientStep(s, a);
    AcceptedStays(s, t);
    forall i, n: nat | 0 <= i < |t.queues| && Carries(t.queues[i], n)
      ensures i < |s.queues| && Carries(s.queues[i], n)
    {}
    if a.SendAck? && t.accepted != s.accepted {
      assert ClientSound(s.queues, a.p, s.clients[a.p]);
      assert t.queues[s.clients[a.p].q].owner == a.p;
    }
  }

  lemma ServerStepKeepsDistinct(s: State, a: Step)
    requires Sound(s) && Distinct(s)
    ensures Distinct(ServerStep(s, a))
  {
    var t := ServerStep(s, a);
    AcceptedStays(s, t);
    forall i, n: nat | 0 <= i < |t.queues| && Carries(t.queues[i], n)
      ensures Carries(s.queues[i], n) || (n == s.next && t.next == n + 1 && i == s.server.q)
    {}
  }

  lemma {:induction false} ExecKeepsDistinct(s: State, steps: seq<Step>)
    requires Sound(s) && Distinct(s)
    ensures Distinct(Exec(s, steps))
    decreases |steps|
  {
    if steps != [] {
      ClientStepKeepsDistinct(s, steps[0]);
      ServerStepKeepsDistinct(s, steps[0]);
      ClientStepKeeps(s, steps[0]);
      ServerStepKeeps(s, steps[0]);
      ExecKeepsDistinct(Do(s, steps[0]), steps[1..]);
    }
  }

  /** No offer is ever accepted, or confirmed, for two clients. */
  lemma OneClientPerOffer(steps: seq<Step>, a: (Pid, Offer), b: (Pid, Offer))
    ensures var s := Exec(INIT, steps);
            a in s.accepted && b in s.accepted && a.1.number == b.1.number ==> a == b
  {
    ExecKeepsDistinct(INIT, steps);
    var s := Exec(INIT, steps);
    if a in s.accepted && b in s.accepted && a.1.number == b.1.number {
      var i :| 0 <= i < |s.queues| && s.queues[i].owner == a.0 && s.queues[i].received == Some(Proposal(a.1));
      var j :| 0 <= j < |s.queues| && s.queues[j].owner == b.0 && s.queues[j].received == Some(Proposal(b.1));
      assert Carries(s.queues[i], a.1.number) && Carries(s.queues[j], a.1.number);
    }
  }

  // ----- What a client takes up -----

  /** p has received offer o from a queue of its own that it created to receive an offer of this kind. */
  ghost predicate AskedFor(queues: seq<Queue>, p: Pid, o: Offer) {
    exists i :: 0 <= i < |queues| && queues[i].owner == p && queues[i].wants == o.kind
                && queues[i].received == Some(Proposal(o))
  }

  ghost predicate ClientAims(queues: seq<Queue>, c: Client) {
    c.q < |queues| &&
    match c
    case Expecting(q, wants) => queues[q].wants == wants
    case Answering(q, o) => o.allowed && queues[q].wants == o.kind
    case Closing(_) => true
  }

  ghost predicate Aimed(s: State) {
    && (forall p <- s.clients :: ClientAims(s.queues, s.clients[p]))
    && (forall a <- s.accepted :: a.1.allowed && AskedFor(s.queues, a.0, a.1))
  }

  /** Queues keep owner and purpose, and what has been received from them. */
  ghost predicate Prolongs(queues: seq<Queue>, later: seq<Queue>) {
    && |queues| <= |later|
    && forall i :: 0 <= i < |queues| ==>
         && later[i].owner == queues[i].owner && later[i].wants == queues[i].wants
         && (queues[i].received.Some? ==> later[i].received == queues[i].received)
  }

  lemma AskedForStays(queues: seq<Queue>, later: seq<Queue>, p: Pid, o: Offer)
    requires Prolongs(queues, later) && AskedFor(queues, p, o)
    ensures AskedFor(later, p, o)
  {
    var i :| 0 <= i < |queues| && queues[i].owner == p && queues[i].wants == o.kind
             && queues[i].received == Some(Proposal(o));
    assert later[i].owner == p;
  }

  lemma StepProlongs(s: State, a: Step)
    requires Sound(s)
    ensures Prolongs(s.queues, Do(s, a).queues)
  {
    if a.ReceiveOffer? && a.p in s.clients {
      assert ClientSound(s.queues, a.p, s.clients[a.p]);
    }
  }

  lemma StepKeepsAims(s: State, a: Step, p: Pid)
    requires Sound(s) && Aimed(s) && p in Do(s, a).clients
    ensures ClientAims(Do(s, a).queues, Do(s, a).clients[p])
  {
    hide QueueSound, ServerSound;
    StepProlongs(s, a);
    assert p in s.clients ==> ClientAims(s.queues, s.clients[p]);
  }

  lemma StepKeepsAimed(s: State, a: Step)
    requires Sound(s) && Aimed(s)
    ensures Aimed(Do(s, a))
  {
    var t := Do(s, a);
    StepProlongs(s, a);
    forall p | p in t.clients
      ensures ClientAims(t.queues, t.clients[p])
    {
      StepKeepsAims(s, a, p);
    }
    hide ServerSound, QueueSound;
    forall p, o | (p, o) in t.accepted
      ensures o.allowed && AskedFor(t.queues, p, o)
    {
      if (p, o) in s.accepted {
        hide Do;
        AskedForStays(s.queues, t.queues, p, o);
      } else {
        var c := s.clients[p];
        assert ClientSound(s.queues, p, c) && ClientAims(s.queues, c);
        assert t.queues[c.q].owner == p;
      }
    }
  }

  lemma {:induction false} ExecKeepsAimed(s: State, steps: seq<Step>)
    requires Sound(s) && Aimed(s)
    ensures Aimed(Exec(s, steps))
    decreases |steps|
  {
    if steps != [] {
      StepKeepsAimed(s, steps[0]);
      ClientStepKeeps(s, steps[0]);
      ServerStepKeeps(s, steps[0]);
      ExecKeepsAimed(Do(s, steps[0]), steps[1..]);
    }
  }

  /**
    * In every interleaving, stale requests included: an accepted offer was allowed, and its client received it from a
    * queue that it had created for an offer of that kind.
    */
  lemma AcceptedAsWanted(steps: seq<Step>, p: Pid, o: Offer)
    ensures var s := Exec(INIT, steps);
            (p, o) in s.accepted ==> o.allowed && AskedFor(s.queues, p, o)
  {
    ExecKeepsAimed(INIT, steps);
  }

  lemma StepCreates(s: State, a: Step, i: nat)
    requires |s.queues| <= i < |Do(s, a).queues|
    ensures var u := Do(s, a).queues[i];
            a == Create(u.owner, u.wants)
  {}

  /** Every queue was created by its owner, for the kind of offer on record. */
  lemma {:induction false} QueuesAreCreated(s: State, steps: seq<Step>, i: nat)
    requires Sound(s) && |s.queues| <= i < |Exec(s, steps).queues|
    ensures var u := Exec(s, steps).queues[i];
            Create(u.owner, u.wants) in steps
    decreases |steps|
  {
    if steps != [] {
      var t, rest := Do(s, steps[0]), steps[1..];
      assert steps == [steps[0]] + rest;
      ClientStepKeeps(s, steps[0]);
      ServerStepKeeps(s, steps[0]);
      ExecProlongs(t, rest);
      if i >= |t.queues| {
        hide Do, Sound;
        QueuesAreCreated(t, rest, i);
      } else {
        StepCreates(s, steps[0], i);
        hide Do, Sound;
        assert Exec(s, steps) == Exec(t, rest);
      }
    }
  }

  lemma {:induction false} ExecProlongs(s: State, steps: seq<Step>)
    requires Sound(s)
    ensures Prolongs(s.queues, Exec(s, steps).queues)
    decreases |steps|
  {
    if steps != [] {
      StepProlongs(s, steps[0]);
      ClientStepKeeps(s, steps[0]);
      ServerStepKeeps(s, steps[0]);
      ExecProlongs(Do(s, steps[0]), steps[1..]);
    }
  }

  /** A client that reads its queue goes on exactly with an offer that is allowed and of the kind it came for. */
  lemma TakesUpExactly(s: State, p: Pid)
    requires Sound(s) && Aimed(s) && p in s.clients && s.clients[p].Expecting?
    requires s.queues[s.clients[p].q].content.Some?
    ensures var u, t := s.queues[s.clients[p].q], Do(s, ReceiveOffer(p));
            var m := u.content.value;
            && (t.clients[p].Answering? <==> m.Proposal? && m.offer.allowed && m.offer.kind == u.wants)
            && (t.clients[p].Answering? ==> t.clients[p].offer == m.offer)
            && t.queues[s.clients[p].q] == u.(content := None, received := Some(m))
  {
    assert ClientAims(s.queues, s.clients[p]);
  }

  /** One exchange without a timeout: the client asks for one kind of offer, the server makes it one. */
  function Exchange(p: Pid, wants: Kind, kind: Kind, allowed: bool): seq<Step> {
    [Create(p, wants), Open(p, kind), SendOffer(allowed), ReceiveOffer(p), SendAck(p), ReceiveReply, Unlink(p)]
  }

  lemma ExecOne(s: State, a: Step)
    ensures Exec(s, [a]) == Do(s, a)
  {
    assert Exec(Do(s, a), [a][1..]) == Do(s, a);
  }

  lemma ExecConcat(s: State, a: seq<Step>, b: seq<Step>)
    ensures Exec(s, a + b) == Exec(Exec(s, a), b)
    decreases |a|
  {
    if a == [] {
      assert a + b == b;
    } else {
      assert (a + b)[1..] == a[1..] + b;
      ExecConcat(Do(s, a[0]), a[1..], b);
    }
  }

  lemma ExecThree(s: State, a: Step, b: Step, c: Step)
    ensures Exec(s, [a, b, c]) == Do(Do(Do(s, a), b), c)
  {
    assert [a, b, c][1..] == [b, c] && [b, c][1..] == [c];
    ExecOne(Do(Do(s, a), b), c);
  }

  /** The state in which the client finds its offer. */
  lemma OfferArrives(s: State, p: Pid, wants: Kind, kind: Kind, allowed: bool)
    requires p !in s.clients && p !in s.names && s.server.Free?
    ensures var t := Exec(s, [Create(p, wants), Open(p, kind), SendOffer(allowed)]);
            var o, n := Offer(s.next, kind, allowed || kind == Bill), |s.queues|;
            && t.queues == s.queues + [Queue(p, wants, Some(Proposal(o)), None)]
            && t.names == s.names[p := n] && t.clients == s.clients[p := Expecting(n, wants)] && t.next == s.next + 1
            && t.server == (if o.allowed then Awaiting(n, p, o) else Free)
            && t.accepted == s.accepted && t.confirmed == s.confirmed && t.timedOut == s.timedOut
            && t.attempts == s.attempts + if o.allowed then [] else [Attempt(p, kind, Posted(o, Silence))]
  {
    ExecThree(s, Create(p, wants), Open(p, kind), SendOffer(allowed));
    var s1 := Do(s, Create(p, wants));
    var s2 := Do(s1, Open(p, kind));
    assert s2.server == Opened(|s.queues|, p, kind);
  }

  /**
    * An undisturbed exchange, from any state: the client counts as admitted and the server registers it exactly if it
    * asked for this kind of offer and the server did not refuse; a bill is never refused. Otherwise neither does, even
    * if a stale request has the server make an offer of the wrong kind, which then stays unanswered.
    */
  lemma ExchangeExactly(s: State, p: Pid, wants: Kind, kind: Kind, allowed: bool)
    requires p !in s.clients && p !in s.names && s.server.Free?
    ensures var t, o := Exec(s, Exchange(p, wants, kind, allowed)), Offer(s.next, kind, true);
            var agreed := if wants == kind && (allowed || kind == Bill) then {(p, o)} else {};
            && t.accepted == s.accepted + agreed && t.confirmed == s.confirmed + agreed
            && t.clients == s.clients && t.names == s.names
            && (t.server.Free? <==> wants == kind || (kind == Permit && !allowed))
  {
    var first := [Create(p, wants), Open(p, kind), SendOffer(allowed)];
    var then' := [ReceiveOffer(p), SendAck(p), ReceiveReply];
    assert Exchange(p, wants, kind, allowed) == first + (then' + [Unlink(p)]);
    ExecConcat(s, first, then' + [Unlink(p)]);
    OfferArrives(s, p, wants, kind, allowed);
    hide ServerStep, ClientStep;
    var t := Exec(s, first);
    ExecConcat(t, then', [Unlink(p)]);
    ExecThree(t, ReceiveOffer(p), SendAck(p), ReceiveReply);
    OfferIsAnswered(s, t, p, wants, Offer(s.next, kind, allowed || kind == Bill));
    var u := Exec(t, then');
    ExecOne(u, Unlink(p));
    UnlinkLeaves(s, u, p);
  }

  lemma OfferIsAnswered(s: State, t: State, p: Pid, wants: Kind, o: Offer)
    requires var n := |s.queues|;
             && t.queues == s.queues + [Queue(p, wants, Some(Proposal(o)), None)]
             && t.names == s.names[p := n] && t.clients == s.clients[p := Expecting(n, wants)]
             && t.server == (if o.allowed then Awaiting(n, p, o) else Free)
    ensures var u := Do(Do(Do(t, ReceiveOffer(p)), SendAck(p)), ReceiveReply);
            var agreed := if wants == o.kind && o.allowed then {(p, o)} else {};
            && u.accepted == t.accepted + agreed && u.confirmed == t.confirmed + agreed
            && u.names == t.names && u.clients == s.clients[p := Closing(|s.queues|)]
            && (u.server.Free? <==> wants == o.kind || !o.allowed)
  {
    var n := |s.queues|;
    var t1 := Do(t, ReceiveOffer(p));
    assert t1.queues == s.queues + [Queue(p, wants, None, Some(Proposal(o)))];
    var t2 := Do(t1, SendAck(p));
    if t1.clients[p].Answering? {
      assert t2.queues == s.queues + [Queue(p, wants, Some(Answer(o)), Some(Proposal(o)))];
    }
  }

  lemma UnlinkLeaves(s: State, u: State, p: Pid)
    requires p !in s.clients && p !in s.names
    requires u.clients == s.clients[p := Closing(|s.queues|)] && u.names == s.names[p := |s.queues|]
    ensures var t := Do(u, Unlink(p));
            t == u.(clients := s.clients, names := s.names)
  {
    assert s.clients[p := Closing(|s.queues|)] - {p} == s.clients;
    assert s.names[p := |s.queues|] - {p} == s.names;
  }

  /** The entry request of a guest is still in the mailbox when the guest already waits for its bill. */
  lemma StaleRequestAdmitsNobody(p: Pid)
    ensures var s := Exec(INIT, Exchange(p, Bill, Permit, true)[..6]);
            s.accepted == {} && s.confirmed == {}
  {
    var steps := Exchange(p, Bill, Permit, true);
    assert steps == steps[..6] + [Unlink(p)];
    ExchangeExactly(INIT, p, Bill, Permit, true);
    ExecConcat(INIT, steps[..6], [Unlink(p)]);
    ExecOne(Exec(INIT, steps[..6]), Unlink(p));
  }

  lemma ClientGivesUp(s: State, p: Pid)
    requires p in s.clients
    ensures var t := Exec(s, [ReceiveTimeout(p), SendAckTimeout(p), Unlink(p)]);
            t == s.(clients := s.clients - {p}, names := s.names - {p})
  {
    hide ServerStep;
    ExecThree(s, ReceiveTimeout(p), SendAckTimeout(p), Unlink(p));
    var c := Closing(s.clients[p].q);
    assert s.clients[p := c] - {p} == s.clients - {p} && s.clients[p := c][p := c] == s.clients[p := c];
  }

  lemma ServerGivesUp(s: State)
    ensures var t := Exec(s, [SendOfferTimeout, ReplyTimeout]);
            t == s.(server := Free, attempts := t.attempts,
                    timedOut := s.timedOut + if s.server.Awaiting? then {s.server.offer} else {})
  {
    hide ClientStep;
    assert [SendOfferTimeout, ReplyTimeout][1..] == [ReplyTimeout];
    ExecOne(Do(s, SendOfferTimeout), ReplyTimeout);
  }

  /** Nobody is kept in a handshake: by their timeouts alone both sides get out of any state, and nobody is admitted. */
  lemma TimeoutsLeadOut(s: State, p: Pid)
    requires p in s.clients
    ensures var t := Exec(s, [ReceiveTimeout(p), SendAckTimeout(p), Unlink(p)] + [SendOfferTimeout, ReplyTimeout]);
            && p !in t.clients && p !in t.names && t.server.Free?
            && t.accepted == s.accepted && t.confirmed == s.confirmed && t.queues == s.queues
            && t.timedOut == s.timedOut + if s.server.Awaiting? then {s.server.offer} else {}
  {
    hide Exec, Do;
    ExecConcat(s, [ReceiveTimeout(p), SendAckTimeout(p), Unlink(p)], [SendOfferTimeout, ReplyTimeout]);
    ClientGivesUp(s, p);
    ServerGivesUp(Exec(s, [ReceiveTimeout(p), SendAckTimeout(p), Unlink(p)]));
  }

  // ----- When an acceptance stays unconfirmed -----

  ghost predicate Awaits(server: Server, o: Offer) {
    server.Awaiting? && server.offer == o
  }

  /** The acknowledgement of o is in the queue on which the server still waits for it. */
  ghost predicate AnswerWaits(s: State, p: Pid, o: Offer) {
    && Awaits(s.server, o) && s.server.pid == p
    && s.server.q < |s.queues| && s.queues[s.server.q].content == Some(Answer(o))
  }

  /** An offer that could still be accepted is one that the server awaits, or has stopped waiting for. */
  ghost predicate Pursued(s: State, o: Offer) {
    o.allowed ==> Awaits(s.server, o) || o in s.timedOut
  }

  ghost predicate Answerable(s: State, c: Client) {
    c.Answering? ==>
      c.offer.allowed && Pursued(s, c.offer) && c.q < |s.queues|
      && !(s.queues[c.q].content.Some? && s.queues[c.q].content.value.Answer?)
  }

  /** Offers are awaited once, and those given up are not confirmed. */
  ghost predicate Settled(s: State) {
    && (forall o <- s.timedOut :: o.number < s.next)
    && (forall c <- s.confirmed :: c.1.number < s.next && c.1 !in s.timedOut)
    && (s.server.Awaiting? ==>
         && s.server.offer.number < s.next && s.server.offer !in s.timedOut
         && forall c <- s.confirmed :: c.1 != s.server.offer)
  }

  /** An offer in a queue has not been received yet, and is pursued. */
  ghost predicate OfferTracked(s: State, u: Queue) {
    u.content.Some? && u.content.value.Proposal? ==>
      u.received != u.content && Pursued(s, u.content.value.offer)
  }

  ghost predicate AcceptanceTracked(s: State, p: Pid, o: Offer) {
    (p, o) in s.confirmed || o in s.timedOut || AnswerWaits(s, p, o)
  }

  ghost predicate Tracked(s: State) {
    && Settled(s)
    && (forall i :: 0 <= i < |s.queues| ==> OfferTracked(s, s.queues[i]))
    && (forall p <- s.clients :: Answerable(s, s.clients[p]))
    && (forall a <- s.accepted :: AcceptanceTracked(s, a.0, a.1))
  }

  /** The queue that carries the awaited offer is the one the server has open. */
  lemma AwaitedQueue(s: State, i: nat)
    requires Sound(s) && Distinct(s) && s.server.Awaiting? && i < |s.queues|
    requires Carries(s.queues[i], s.server.offer.number)
    ensures i == s.server.q
  {
    assert Carries(s.queues[s.server.q], s.server.offer.number);
  }

  lemma ClientStepKeepsAcceptances(s: State, a: Step, p: Pid, o: Offer)
    requires Sound(s) && Distinct(s) && Tracked(s) && (p, o) in ClientStep(s, a).accepted
    ensures AcceptanceTracked(ClientStep(s, a), p, o)
  {
    if (p, o) in s.accepted {
      assert AcceptanceTracked(s, p, o);
      if AnswerWaits(s, p, o) {
        assert s.queues[s.server.q] in s.queues;
        if a.ReceiveOffer? && a.p in s.clients {
          assert ClientSound(s.queues, a.p, s.clients[a.p]);
        }
      }
    } else {
      var c := s.clients[p];
      assert ClientSound(s.queues, p, c) && Answerable(s, c);
      if Awaits(s.server, o) {
        AwaitedQueue(s, c.q);
      }
    }
  }

  lemma ClientStepKeepsTracked(s: State, a: Step)
    requires Sound(s) && Distinct(s) && Tracked(s)
    ensures Tracked(ClientStep(s, a))
  {
    var t := ClientStep(s, a);
    forall p, o | (p, o) in t.accepted
      ensures AcceptanceTracked(t, p, o)
    {
      ClientStepKeepsAcceptances(s, a, p, o);
    }
    forall i | 0 <= i < |t.queues|
      ensures OfferTracked(t, t.queues[i])
    {
      assert i < |s.queues| ==> OfferTracked(s, s.queues[i]);
    }
    forall p | p in t.clients
      ensures Answerable(t, t.clients[p])
    {
      ClientStepKeepsAnswerable(s, a, p);
    }
  }

  lemma ClientStepKeepsAnswerable(s: State, a: Step, p: Pid)
    requires Sound(s) && Tracked(s) && p in ClientStep(s, a).clients
    ensures Answerable(ClientStep(s, a), ClientStep(s, a).clients[p])
  {
    var t := ClientStep(s, a);
    if p in s.clients {
      var c := s.clients[p];
      assert ClientSound(s.queues, p, c) && Answerable(s, c);
      if a.ReceiveOffer? && a.p == p && c.Expecting? {
        assert OfferTracked(s, s.queues[c.q]);
      }
      if a.SendAck? && a.p in s.clients {
        assert ClientSound(s.queues, a.p, s.clients[a.p]);
      }
    }
  }

  lemma ServerStepKeepsOffers(s: State, a: Step, i: nat)
    requires Sound(s) && Distinct(s) && Tracked(s) && i < |s.queues|
    ensures OfferTracked(ServerStep(s, a), ServerStep(s, a).queues[i])
  {
    assert OfferTracked(s, s.queues[i]);
    var u := s.queues[i];
    assert u.received.Some? && u.received.value.Proposal? ==> Carries(u, u.received.value.offer.number);
    if u.content.Some? && u.content.value.Proposal? && Awaits(s.server, u.content.value.offer) {
      AwaitedQueue(s, i);
    }
  }

  lemma ServerStepKeepsAnswerable(s: State, a: Step, p: Pid)
    requires Sound(s) && Distinct(s) && Tracked(s) && p in s.clients
    ensures Answerable(ServerStep(s, a), s.clients[p])
  {
    var c := s.clients[p];
    assert ClientSound(s.queues, p, c) && Answerable(s, c);
    if c.Answering? && Awaits(s.server, c.offer) {
      AwaitedQueue(s, c.q);
      assert OfferTracked(s, s.queues[c.q]);
    }
  }

  lemma ServerStepKeepsTracked(s: State, a: Step)
    requires Sound(s) && Distinct(s) && Tracked(s)
    ensures Tracked(ServerStep(s, a))
  {
    var t := ServerStep(s, a);
    forall i | 0 <= i < |t.queues|
      ensures OfferTracked(t, t.queues[i])
    {
      ServerStepKeepsOffers(s, a, i);
    }
    forall p | p in t.clients
      ensures Answerable(t, t.clients[p])
    {
      ServerStepKeepsAnswerable(s, a, p);
    }
    forall p, o | (p, o) in t.accepted
      ensures AcceptanceTracked(t, p, o)
    {
      assert AcceptanceTracked(s, p, o);
    }
  }

  lemma {:induction false} ExecKeepsTracked(s: State, steps: seq<Step>)
    requires Sound(s) && Distinct(s) && Tracked(s)
    ensures Tracked(Exec(s, steps))
    decreases |steps|
  {
    if steps != [] {
      ClientStepKeepsDistinct(s, steps[0]);
      ServerStepKeepsDistinct(s, steps[0]);
      ClientStepKeeps(s, steps[0]);
      ServerStepKeeps(s, steps[0]);
      ClientStepKeepsTracked(s, steps[0]);
      ServerStepKeepsTracked(s, steps[0]);
      ExecKeepsTracked(Do(s, steps[0]), steps[1..]);
    }
  }

  /**
    * An accepted offer is not confirmed exactly when the server has stopped waiting for its reply, or still waits
    * with that very reply in the queue.
    */
  lemma UnconfirmedExactly(steps: seq<Step>, p: Pid, o: Offer)
    ensures var s := Exec(INIT, steps);
            (p, o) in s.accepted ==>
              ((p, o) !in s.confirmed <==> o in s.timedOut || AnswerWaits(s, p, o))
  {
    ExecKeepsTracked(INIT, steps);
  }

  // ----- The server's handshakes -----

  ghost predicate AttemptSound(s: State, a: Attempt) {
    a.outcome.Posted? ==>
      && a.outcome.offer.number < s.next && a.outcome.offer.kind == a.kind
      && (a.outcome.reply.Ack? ==> (a.pid, a.outcome.offer) in s.confirmed)
  }

  /** Every handshake makes an offer of its own, later than those before it. */
  ghost predicate Recorded(s: State) {
    && (forall i :: 0 <= i < |s.attempts| ==> AttemptSound(s, s.attempts[i]))
    && (forall i, j :: 0 <= i < j < |s.attempts| && s.attempts[i].outcome.Posted? && s.attempts[j].outcome.Posted? ==>
          s.attempts[i].outcome.offer.number < s.attempts[j].outcome.offer.number)
    && (s.server.Awaiting? ==>
         && s.server.offer.number < s.next
         && forall i :: 0 <= i < |s.attempts| && s.attempts[i].outcome.Posted? ==>
              s.attempts[i].outcome.offer.number < s.server.offer.number)
  }

  lemma ClientStepKeepsRecorded(s: State, a: Step)
    requires Recorded(s)
    ensures Recorded(ClientStep(s, a))
  {
    var t := ClientStep(s, a);
    assert t.attempts == s.attempts && t.confirmed == s.confirmed && t.next == s.next && t.server == s.server;
    forall i | 0 <= i < |t.attempts|
      ensures AttemptSound(t, t.attempts[i])
    {
      assert AttemptSound(s, s.attempts[i]);
    }
  }

  /** All numbers on record are below n. */
  ghost predicate Before(attempts: seq<Attempt>, n: nat) {
    forall i :: 0 <= i < |attempts| && attempts[i].outcome.Posted? ==> attempts[i].outcome.offer.number < n
  }

  lemma DoneKeepsRecorded(s: State, p: Pid, kind: Kind, outcome: Outcome)
    requires Recorded(s.(server := Free)) && AttemptSound(s, Attempt(p, kind, outcome))
    requires outcome.Posted? ==> Before(s.attempts, outcome.offer.number)
    ensures Recorded(Done(s, p, kind, outcome))
  {
    var t := Done(s, p, kind, outcome);
    forall i | 0 <= i < |t.attempts|
      ensures AttemptSound(t, t.attempts[i])
    {
      assert i < |s.attempts| ==> AttemptSound(s.(server := Free), s.attempts[i]);
    }
  }

  lemma GrowingKeepsRecorded(s: State, t: State)
    requires Recorded(s) && t.attempts == s.attempts && t.server.Free? && t.next >= s.next && t.confirmed >= s.confirmed
    ensures Recorded(t)
  {
    forall i | 0 <= i < |t.attempts|
      ensures AttemptSound(t, t.attempts[i])
    {
      assert AttemptSound(s, s.attempts[i]);
    }
  }

  lemma SendOfferKeepsRecorded(s: State, allowed: bool)
    requires Recorded(s)
    ensures Recorded(ServerStep(s, SendOffer(allowed)))
  {
    if s.server.Opened? && s.server.q < |s.queues| && s.queues[s.server.q].content.None? {
      var u := s.server;
      var o := Offer(s.next, u.kind, allowed || u.kind == Bill);
      var s1 := Put(s, u.q, Some(Proposal(o))).(next := s.next + 1);
      GrowingKeepsRecorded(s, s1.(server := Free));
      assert Before(s.attempts, s.next) by {
        assert forall i :: 0 <= i < |s.attempts| ==> AttemptSound(s, s.attempts[i]);
      }
      if !o.allowed {
        DoneKeepsRecorded(s1, u.pid, u.kind, Posted(o, Silence));
      }
    }
  }

  lemma ServerStepKeepsRecorded(s: State, a: Step)
    requires Recorded(s)
    ensures Recorded(ServerStep(s, a))
  {
    GrowingKeepsRecorded(s, s.(server := Free));
    match a
    case SendOffer(allowed) => SendOfferKeepsRecorded(s, allowed);
    case Open(p, kind) => DoneKeepsRecorded(s, p, kind, NoQueue);
    case SendOfferTimeout =>
      if s.server.Opened? {
        DoneKeepsRecorded(s, s.server.pid, s.server.kind, Unposted);
      }
    case ReceiveReply =>
      if s.server.Awaiting? && s.server.q < |s.queues| {
        var u, s1 := s.server, Put(s, s.server.q, None);
        var s2 := s1.(confirmed := s.confirmed + {(u.pid, u.offer)});
        GrowingKeepsRecorded(s, s1.(server := Free));
        GrowingKeepsRecorded(s, s2.(server := Free));
        hide Recorded;
        DoneKeepsRecorded(s1, u.pid, u.offer.kind, Posted(u.offer, Other));
        DoneKeepsRecorded(s2, u.pid, u.offer.kind, Posted(u.offer, Ack));
      }
    case ReplyTimeout =>
      if s.server.Awaiting? {
        var u, s1 := s.server, s.(timedOut := s.timedOut + {s.server.offer});
        GrowingKeepsRecorded(s, s1.(server := Free));
        DoneKeepsRecorded(s1, u.pid, u.offer.kind, Posted(u.offer, Silence));
      }
    case _ =>
  }

  lemma {:induction false} ExecKeepsRecorded(s: State, steps: seq<Step>)
    requires Recorded(s)
    ensures Recorded(Exec(s, steps))
    decreases |steps|
  {
    if steps != [] {
      ClientStepKeepsRecorded(s, steps[0]);
      ServerStepKeepsRecorded(s, steps[0]);
      ExecKeepsRecorded(Do(s, steps[0]), steps[1..]);
    }
  }

  /** The handshake of a server's script is one that the protocol has gone through. */
  ghost predicate Enacts<E>(h: Handshake<E>, a: Attempt) {
    match h
    case Missing => a.outcome.NoQueue?
    case Unsent(_) => a.outcome.Unposted?
    case Sent(_, reply, _) => a.outcome.Posted? && a.outcome.reply == reply
  }

  /**
    * The permit handshakes of a script, one for each pid (None: a malformed request, which has no handshake), are
    * handshakes of a run of the protocol: that for pids[i] is the one at position at[i], in the same order.
    */
  ghost predicate Enacted<E>(pids: seq<Option<Pid>>, shakes: nat -> Handshake<E>, at: seq<nat>, t: State) {
    && |at| == |pids|
    && (forall i :: 0 <= i < |pids| && pids[i].Some? ==>
         && at[i] < |t.attempts|
         && t.attempts[at[i]].pid == pids[i].value && t.attempts[at[i]].kind.Permit?
         && Enacts(shakes(i), t.attempts[at[i]]))
    && (forall i, j :: 0 <= i < j < |pids| && pids[i].Some? && pids[j].Some? ==> at[i] < at[j])
  }

  /** The attempt ended in an acknowledgement of a permit that the client has asked for and accepted. */
  ghost predicate Accepted(t: State, k: nat, p: Pid) {
    && k < |t.attempts| && t.attempts[k].outcome.Posted?
    && t.attempts[k].outcome.offer.kind.Permit? && (p, t.attempts[k].outcome.offer) in t.accepted
    && AskedFor(t.queues, p, t.attempts[k].outcome.offer)
  }

  /** A server that runs on the protocol's handshakes: who acknowledges in one has accepted the permit made in it. */
  lemma AcknowledgedMeansAccepted<E>(steps: seq<Step>, pids: seq<Option<Pid>>, shakes: nat -> Handshake<E>,
                                     at: seq<nat>, i: nat)
    requires i < |pids| && pids[i].Some? && Acknowledged(shakes(i))
    ensures var t := Exec(INIT, steps);
            Enacted(pids, shakes, at, t) ==> Accepted(t, at[i], pids[i].value)
  {
    var t := Exec(INIT, steps);
    if Enacted(pids, shakes, at, t) {
      ExecKeepsRecorded(INIT, steps);
      var a := t.attempts[at[i]];
      assert Enacts(shakes(i), a) && AttemptSound(t, a);
      Agreement(steps, pids[i].value, a.outcome.offer);
      AcceptedAsWanted(steps, pids[i].value, a.outcome.offer);
    }
  }

  /** And no two of its handshakes have the same permit. */
  lemma PermitsAreDistinct(steps: seq<Step>, k: nat, l: nat)
    ensures var t := Exec(INIT, steps);
            k < l < |t.attempts| && t.attempts[k].outcome.Posted? && t.attempts[l].outcome.Posted? ==>
              t.attempts[k].outcome.offer != t.attempts[l].outcome.offer
  {
    ExecKeepsRecorded(INIT, steps);
  }

  // ----- What does not hold -----

  /** A client waiting on the offer that the server has just made it. */
  function Offered(p: Pid): State {
    var o := Offer(0, Permit, true);
    State([Queue(p, Permit, Some(Proposal(o)), None)], map[p := 0], map[p := Expecting(0, Permit)], Awaiting(0, p, o),
          1, {}, {}, {}, [])
  }

  lemma OfferedIsReachable(p: Pid)
    ensures Exec(INIT, [Create(p, Permit), Open(p, Permit), SendOffer(true)]) == Offered(p)
  {
    var s1 := Do(INIT, Create(p, Permit));
    var s2 := Do(s1, Open(p, Permit));
    var s3 := Do(s2, SendOffer(true));
    assert s1 == State([Queue(p, Permit, None, None)], map[p := 0], map[p := Expecting(0, Permit)], Free, 0,
                       {}, {}, {}, []);
    assert s3 == Offered(p);
    var steps := [Create(p, Permit), Open(p, Permit), SendOffer(true)];
    assert steps[1..] == [Open(p, Permit), SendOffer(true)] && steps[1..][1..] == [SendOffer(true)];
    ExecOne(s2, SendOffer(true));
  }

  /** Agreement is one-sided: the server may time out just before the acknowledgement is placed. */
  lemma ClientMayBeAdmittedUnregistered(p: Pid)
    ensures var s := Exec(Offered(p), [ReceiveOffer(p), ReplyTimeout, SendAck(p)]);
            s.accepted == {(p, Offer(0, Permit, true))} && s.confirmed == {} && s.server.Free?
  {
    var steps := [ReceiveOffer(p), ReplyTimeout, SendAck(p)];
    var s1 := Do(Offered(p), ReceiveOffer(p));
    var s2 := Do(s1, ReplyTimeout);
    assert steps[1..] == [ReplyTimeout, SendAck(p)] && steps[1..][1..] == [SendAck(p)];
    ExecOne(s2, SendAck(p));
  }

  /** The server may read its own permit back, which registers nobody and leaves the client with nothing to receive. */
  lemma ServerMayTakeItsPermitBack(p: Pid)
    ensures var s := Exec(Offered(p), [ReceiveReply]);
            s.server.Free? && s.confirmed == {} && s.queues[0].content.None? && s.clients[p].Expecting?
  {
    ExecOne(Offered(p), ReceiveReply);
  }
}
