/**
  * A server's bounded mailbox together with its event-counter semaphore. A client posts a letter
  * and only afterwards signals the semaphore; the server takes a token and then receives at most
  * one letter. Steps of the two sides interleave freely, for any number of clients.
  */
module Mailbox {
  import opened Common

  const CAPACITY := 10

  /** POSIX queues hand out urgent letters first; VIP clients of the cashier post with priority 1. */
  datatype Letter<+M> = Letter(from: Pid, urgent: bool, body: M)

  datatype Channel<M> = Channel(
    box: seq<Letter<M>>,
    tokens: nat,          // value of the event semaphore
    hand: bool,           // the server holds a token it has not yet followed by a receive
    pending: set<Pid>,    // clients between their post and their signal
    skipped: nat,         // history: tokens taken without a receive after them
    posted: seq<Letter<M>>, received: seq<Letter<M>>)   // history, in order

  /**
    * What clients (Post, Signal) and others do to the channel. Extra is a token without a letter: a wake-up by the
    * main process, or the signal of a leaving client whose post has failed.
    */
  datatype Traffic<M> = Post(letter: Letter<M>) | Signal(from: Pid) | Extra

  function Empty<M>(): Channel<M> {
    Channel([], 0, false, {}, 0, [], [])
  }

  // ----- The priority queue -----

  function Insert<M>(box: seq<Letter<M>>, l: Letter<M>): (r: seq<Letter<M>>)
    ensures |r| == |box| + 1
  {
    if box == [] || (l.urgent && !box[0].urgent) then [l] + box
    else [box[0]] + Insert(box[1..], l)
  }

  function OfUrgency<M>(box: seq<Letter<M>>, urgent: bool): seq<Letter<M>> {
    if box == [] then []
    else (if box[0].urgent == urgent then [box[0]] else []) + OfUrgency(box[1..], urgent)
  }

  ghost predicate UrgentFirst<M>(box: seq<Letter<M>>) {
    forall i, j :: 0 <= i < j < |box| && box[j].urgent ==> box[i].urgent
  }

  /** A post loses nothing and duplicates nothing. */
  lemma {:induction false} InsertKeepsLetters<M>(box: seq<Letter<M>>, l: Letter<M>)
    ensures multiset(Insert(box, l)) == multiset(box) + multiset{l}
    ensures forall i :: 0 <= i < |box| + 1 ==> Insert(box, l)[i] in box || Insert(box, l)[i] == l
  {
    if box == [] || (l.urgent && !box[0].urgent) {
    } else {
      InsertKeepsLetters(box[1..], l);
      assert box == [box[0]] + box[1..];
    }
  }

  /** It keeps urgent letters first ... */
  lemma {:induction false} InsertKeepsUrgentFirst<M>(box: seq<Letter<M>>, l: Letter<M>)
    requires UrgentFirst(box)
    ensures UrgentFirst(Insert(box, l))
  {
    if box == [] || (l.urgent && !box[0].urgent) {
    } else {
      var tail := box[1..];
      InsertKeepsUrgentFirst(tail, l);
      InsertKeepsLetters(tail, l);
    }
  }

  lemma {:induction false} NoneUrgent<M>(box: seq<Letter<M>>)
    requires forall i :: 0 <= i < |box| ==> !box[i].urgent
    ensures OfUrgency(box, true) == []
  {
    if box != [] {
      NoneUrgent(box[1..]);
    }
  }

  /** ... and puts the letter last among those of its own urgency, so each class stays in order of arrival. */
  lemma {:induction false} InsertIsFifoPerClass<M>(box: seq<Letter<M>>, l: Letter<M>)
    requires UrgentFirst(box)
    ensures OfUrgency(Insert(box, l), l.urgent) == OfUrgency(box, l.urgent) + [l]
    ensures OfUrgency(Insert(box, l), !l.urgent) == OfUrgency(box, !l.urgent)
  {
    var r := Insert(box, l);
    if box == [] || (l.urgent && !box[0].urgent) {
      assert r[1..] == box;
      if box != [] {
        NoneUrgent(box);
      }
    } else {
      InsertIsFifoPerClass(box[1..], l);
      assert r[1..] == Insert(box[1..], l);
    }
  }

  // ----- Steps -----

  /** A post into a full mailbox blocks its sender, and a client signals only after posting. */
  function Step<M>(ch: Channel<M>, t: Traffic<M>): Channel<M> {
    match t
    case Post(l) =>
      if |ch.box| < CAPACITY && l.from !in ch.pending
      then ch.(box := Insert(ch.box, l), pending := ch.pending + {l.from}, posted := ch.posted + [l]) else ch
    case Signal(p) =>
      if p in ch.pending then ch.(tokens := ch.tokens + 1, pending := ch.pending - {p}) else ch
    case Extra => ch.(tokens := ch.tokens + 1)
  }

  /**
    * The server's semaphore wait. A timeout below -1 is refused at once. A wait that a signal handler interrupts
    * returns without a token, even if that handler has added one. Otherwise a token is taken if there is one, and
    * the wait ends without one only by expiry of a timeout that is not -1. None means that the server is still blocked.
    */
  function Wait<M>(ch: Channel<M>, timeout: int, interrupted: bool, expired: bool): Option<Channel<M>> {
    if timeout < -1 then Some(ch)
    else if interrupted then Some(ch)
    else if ch.tokens > 0 then Some(ch.(tokens := ch.tokens - 1, hand := true))
    else if expired && timeout >= 0 then Some(ch)
    else None
  }

  /** The receive ends the iteration's claim on its token, whether or not a letter was there. */
  function Receive<M>(ch: Channel<M>): (Channel<M>, Option<Letter<M>>) {
    if ch.box == [] then (ch.(hand := false), None)
    else (ch.(box := ch.box[1..], hand := false, received := ch.received + [ch.box[0]]), Some(ch.box[0]))
  }

  /** An iteration that returns without looking into the mailbox. */
  function Skip<M>(ch: Channel<M>): Channel<M> {
    ch.(hand := false, skipped := ch.skipped + if ch.hand then 1 else 0)
  }

  // ----- No lost wake-up -----

  /** Letters of one urgency are read in the order in which they were posted, and none is lost or invented. */
  ghost predicate InOrder<M>(ch: Channel<M>, urgent: bool) {
    OfUrgency(ch.received, urgent) + OfUrgency(ch.box, urgent) == OfUrgency(ch.posted, urgent)
  }

  /** Every unread letter is covered by a token, or by a sender that will still produce one, or by a skipped one. */
  ghost predicate Balanced<M>(ch: Channel<M>) {
    && |ch.box| <= CAPACITY
    && UrgentFirst(ch.box)
    && InOrder(ch, true) && InOrder(ch, false)
    && |ch.box| <= ch.tokens + (if ch.hand then 1 else 0) + |ch.pending| + ch.skipped
  }

  lemma OfUrgencyCons<M>(l: Letter<M>, ls: seq<Letter<M>>, urgent: bool)
    ensures OfUrgency([l] + ls, urgent) == OfUrgency([l], urgent) + OfUrgency(ls, urgent)
  {
    assert ([l] + ls)[1..] == ls;
    OfUrgencyOne(l, urgent);
  }

  lemma {:induction false} OfUrgencyConcat<M>(a: seq<Letter<M>>, b: seq<Letter<M>>, urgent: bool)
    ensures OfUrgency(a + b, urgent) == OfUrgency(a, urgent) + OfUrgency(b, urgent)
  {
    if a == [] {
      assert a + b == b;
    } else {
      hide OfUrgency;
      var l, rest := a[0], a[1..];
      assert a == [l] + rest;
      assert a + b == [l] + (rest + b);
      OfUrgencyConcat(rest, b, urgent);
      OfUrgencyCons(l, rest + b, urgent);
      OfUrgencyCons(l, rest, urgent);
    }
  }

  lemma OfUrgencyOne<M>(l: Letter<M>, urgent: bool)
    ensures OfUrgency([l], urgent) == if l.urgent == urgent then [l] else []
  {}

  lemma PostKeepsOrder<M>(ch: Channel<M>, l: Letter<M>, urgent: bool)
    requires UrgentFirst(ch.box) && InOrder(ch, urgent)
    ensures InOrder(ch.(box := Insert(ch.box, l), posted := ch.posted + [l]), urgent)
  {
    InsertIsFifoPerClass(ch.box, l);
    OfUrgencyConcat(ch.posted, [l], urgent);
    OfUrgencyOne(l, urgent);
  }

  lemma StepKeepsBalance<M>(ch: Channel<M>, t: Traffic<M>)
    requires Balanced(ch)
    ensures Balanced(Step(ch, t)) && Step(ch, t).skipped == ch.skipped && Step(ch, t).hand == ch.hand
    ensures Step(ch, t).received == ch.received
  {
    if t.Post? {
      InsertKeepsUrgentFirst(ch.box, t.letter);
      PostKeepsOrder(ch, t.letter, true);
      PostKeepsOrder(ch, t.letter, false);
    }
  }

  /**
    * A server goes on sleeping exactly if its timeout is valid, nothing interrupts it, there is no token, and a timeout
    * that is one has not expired; it takes a token exactly if there is one, nothing interrupts it and the timeout is
    * valid. The wait does nothing else.
    */
  lemma WaitExactly<M>(ch: Channel<M>, timeout: int, interrupted: bool, expired: bool)
    ensures var w := Wait(ch, timeout, interrupted, expired);
            && (w.None? <==> timeout >= -1 && !interrupted && ch.tokens == 0 && (timeout == -1 || !expired))
            && (w.Some? ==>
                 w.value == if timeout >= -1 && !interrupted && ch.tokens > 0
                            then ch.(tokens := ch.tokens - 1, hand := true) else ch)
  {}

  lemma WaitKeepsBalance<M>(ch: Channel<M>, timeout: int, interrupted: bool, expired: bool)
    requires Balanced(ch) && !ch.hand
    ensures var w := Wait(ch, timeout, interrupted, expired);
            w.Some? ==> Balanced(w.value) && w.value.skipped == ch.skipped
  {}

  lemma ReceiveKeepsOrder<M>(ch: Channel<M>, urgent: bool)
    requires InOrder(ch, urgent)
    ensures InOrder(Receive(ch).0, urgent)
  {
    if ch.box != [] {
      OfUrgencyConcat(ch.received, [ch.box[0]], urgent);
      OfUrgencyOne(ch.box[0], urgent);
    }
  }

  lemma ReceiveKeepsBalance<M>(ch: Channel<M>)
    requires Balanced(ch)
    ensures Balanced(Receive(ch).0) && Receive(ch).0.skipped == ch.skipped && !Receive(ch).0.hand
  {
    ReceiveKeepsOrder(ch, true);
    ReceiveKeepsOrder(ch, false);
  }

  lemma SkipKeepsBalance<M>(ch: Channel<M>)
    requires Balanced(ch)
    ensures Balanced(Skip(ch)) && !Skip(ch).hand
  {}

  /**
    * A blocked server has at most as many unread letters as there are clients still to signal
    * and tokens it skipped: no wake-up is lost by a server that never skips.
    */
  lemma BlockedMeansSignalsToCome<M>(ch: Channel<M>, timeout: int, interrupted: bool, expired: bool)
    requires Balanced(ch) && !ch.hand
    requires Wait(ch, timeout, interrupted, expired).None?
    ensures |ch.box| <= |ch.pending| + ch.skipped
    ensures ch.pending == {} && ch.skipped == 0 ==> ch.box == []
  {}

  // ----- Letters of one priority -----

  ghost predicate Plain<M>(ls: seq<Letter<M>>) {
    forall l <- ls :: !l.urgent
  }

  lemma {:induction false} PlainByUrgency<M>(ls: seq<Letter<M>>)
    ensures Plain(ls) <==> OfUrgency(ls, true) == []
    ensures Plain(ls) ==> OfUrgency(ls, false) == ls
  {
    if ls != [] {
      assert ls == [ls[0]] + ls[1..];
      PlainByUrgency(ls[1..]);
    }
  }

  /** If nobody posts an urgent letter, all letters are read in the order in which they were posted. */
  lemma PlainInOrder<M>(ch: Channel<M>)
    requires Balanced(ch) && Plain(ch.posted)
    ensures ch.received + ch.box == ch.posted
  {
    PlainByUrgency(ch.posted);
    PlainByUrgency(ch.received);
    PlainByUrgency(ch.box);
    assert OfUrgency(ch.received, true) + OfUrgency(ch.box, true) == OfUrgency(ch.posted, true);
  }

  // ----- Whose letters are unread -----

  ghost function Senders<M>(box: seq<Letter<M>>): set<Pid> {
    set l | l in box :: l.from
  }

  ghost predicate OneEach<M>(box: seq<Letter<M>>) {
    forall i, j :: 0 <= i < j < |box| ==> box[i].from != box[j].from
  }

  lemma {:induction false} FewSenders<M>(box: seq<Letter<M>>)
    ensures |Senders(box)| <= |box|
    ensures OneEach(box) ==> |Senders(box)| == |box|
  {
    if box == [] {
      assert Senders(box) == {};
    } else {
      var n := |box| - 1;
      FewSenders(box[..n]);
      assert box == box[..n] + [box[n]];
      assert Senders(box) == Senders(box[..n]) + {box[n].from};
      if OneEach(box) {
        assert forall l <- box[..n] :: l.from != box[n].from;
      }
    }
  }

  lemma SameSize(a: set<Pid>, b: set<Pid>)
    requires a <= b && |a| >= |b|
    ensures a == b
  {
    assert a + (b - a) == b;
    assert |b - a| == 0;
  }

  /**
    * A blocked server that never skips: if the letter of every client still to signal is unread, then nobody else's
    * is. When there are as many letters as such clients, and no client has two, the converse holds as well.
    */
  lemma UnreadAreUnsignalled<M>(ch: Channel<M>, timeout: int, interrupted: bool, expired: bool)
    requires Balanced(ch) && !ch.hand && ch.skipped == 0
    requires Wait(ch, timeout, interrupted, expired).None?
    ensures ch.pending <= Senders(ch.box) ==> forall l <- ch.box :: l.from in ch.pending
    ensures |ch.box| == |ch.pending| && OneEach(ch.box) ==>
              (ch.pending <= Senders(ch.box) <==> forall l <- ch.box :: l.from in ch.pending)
  {
    FewSenders(ch.box);
    if ch.pending <= Senders(ch.box) {
      SameSize(ch.pending, Senders(ch.box));
    } else if |ch.box| == |ch.pending| && OneEach(ch.box) && Senders(ch.box) <= ch.pending {
      SameSize(Senders(ch.box), ch.pending);
    }
  }

  function Play<M>(ch: Channel<M>, ts: seq<Traffic<M>>): Channel<M>
    decreases |ts|
  {
    if ts == [] then ch else Play(Step(ch, ts[0]), ts[1..])
  }

  /**
    * Without the first condition it fails: client 2 signals before client 1 does, and its token is spent on
    * client 1's letter.
    */
  lemma UnreadLetterMayBeSignalled()
    ensures var ts := [Post(Letter(1, false, 0)), Post(Letter(2, false, 0)), Signal(2)];
            var woken := Wait(Play(Empty(), ts), -1, false, false);
            && woken.Some?
            && var ch := Receive(woken.value).0;
               Wait(ch, -1, false, false).None? && ch.box == [Letter(2, false, 0)] && ch.pending == {1}
  {
    var a, b := Letter(1, false, 0), Letter(2, false, 0);
    var c0 := Step(Empty(), Post(a));
    assert Insert([a], b) == [a] + Insert([], b) == [a, b];
    var c1 := Step(c0, Post(b));
    var c2 := Step(c1, Signal(2));
    assert c2.box == [a, b] && c2.tokens == 1 && c2.pending == {1};
    var ts := [Post(a), Post(b), Signal(2)];
    assert ts[1..] == [Post(b), Signal(2)] && ts[1..][1..] == [Signal(2)];
    assert Play(c2, []) == c2;
    assert Play(Empty(), ts) == Play(c0, ts[1..]) == Play(c1, ts[1..][1..]) == c2;
  }

  /**
    * And for the converse one letter each is needed: client 1 has signalled a first letter and posted a second,
    * and the token of the first has been spent on the urgent letter of client 2, who is still to signal.
    */
  lemma TwoLettersOfOneClient()
    ensures var ts := [Post(Letter(2, true, 0)), Post(Letter(1, false, 0)), Signal(1), Post(Letter(1, false, 1))];
            var woken := Wait(Play(Empty(), ts), -1, false, false);
            && woken.Some?
            && var ch := Receive(woken.value).0;
               && Wait(ch, -1, false, false).None? && |ch.box| == |ch.pending|
               && (forall l <- ch.box :: l.from in ch.pending) && !(ch.pending <= Senders(ch.box))
  {
    var v, a, b := Letter(2, true, 0), Letter(1, false, 0), Letter(1, false, 1);
    var c0 := Step(Empty(), Post(v));
    assert Insert([v], a) == [v] + Insert([], a) == [v, a];
    var c1 := Step(c0, Post(a));
    var c2 := Step(c1, Signal(1));
    assert c2.box == [v, a] && c2.tokens == 1 && c2.pending == {2};
    assert [v, a][1..] == [a] && Insert([a], b) == [a] + Insert([], b) == [a, b];
    assert Insert([v, a], b) == [v] + Insert([a], b) == [v, a, b];
    var c3 := Step(c2, Post(b));
    assert c3.box == [v, a, b] && c3.pending == {1, 2};
    var ts := [Post(v), Post(a), Signal(1), Post(b)];
    assert ts[1..] == [Post(a), Signal(1), Post(b)];
    assert ts[1..][1..] == [Signal(1), Post(b)] && ts[1..][1..][1..] == [Post(b)];
    assert Play(c3, []) == c3;
    assert Play(Empty(), ts) == Play(c0, ts[1..]) == Play(c1, ts[1..][1..]) == Play(c2, ts[1..][1..][1..]) == c3;
    var ch := Receive(Wait(c3, -1, false, false).value).0;
    assert ch.box == [a, b] && 2 !in Senders(ch.box);
  }

  // ----- Exits that wait -----

  /** Each of the pids has a letter of the given kind among the unread ones. */
  ghost predicate Announced<M>(pids: set<Pid>, box: seq<Letter<M>>, kind: M -> bool) {
    forall p <- pids :: exists i :: 0 <= i < |box| && box[i].from == p && kind(box[i].body)
  }

  lemma NobodyAnnounced<M>(pids: set<Pid>, box: seq<Letter<M>>, kind: M -> bool)
    requires Announced(pids, box, kind) && box == []
    ensures pids == {}
  {
    forall p
      ensures p !in pids
    {
      if p in pids {
        assert false;
      }
    }
  }

  /** Reading a letter keeps the others announced. */
  lemma AnnouncedRest<M>(pids: set<Pid>, box: seq<Letter<M>>, kind: M -> bool)
    requires Announced(pids, box, kind) && box != []
    ensures Announced(if kind(box[0].body) then pids - {box[0].from} else pids, box[1..], kind)
  {
    forall p | p in pids && !(kind(box[0].body) && p == box[0].from)
      ensures exists i :: 0 <= i < |box[1..]| && box[1..][i].from == p && kind(box[1..][i].body)
    {
      var i :| 0 <= i < |box| && box[i].from == p && kind(box[i].body);
      assert box[1..][i - 1] == box[i];
    }
  }
}
