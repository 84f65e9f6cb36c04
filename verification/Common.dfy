/** Vocabulary shared by the models of the park's servers. */
module Common {
  type Pid = int

  datatype Option<+T> = None | Some(value: T)

  /** A party registered with a server: one adult, perhaps with a child, and what the server keeps besides. */
  datatype Guest<K> = Guest(hasChild: bool, kind: K)

  function Weight(hasChild: bool): nat {
    if hasChild then 2 else 1
  }

  lemma HasMember(s: set<Pid>)
    requires s != {}
    ensures exists p :: p in s
  {
    if forall p :: p !in s {
      assert false;
    }
  }

  ghost function Families<K>(m: map<Pid, Guest<K>>): set<Pid> {
    set p | p in m && m[p].hasChild
  }

  /** The number of people in a client map: one for each party and one more for each child. */
  ghost function Load<K>(m: map<Pid, Guest<K>>): nat {
    |m| + |Families(m)|
  }

  lemma FamiliesInsert<K>(m: map<Pid, Guest<K>>, p: Pid, g: Guest<K>)
    requires p !in m
    ensures Families(m[p := g]) == if g.hasChild then Families(m) + {p} else Families(m)
  {}

  lemma LoadInsert<K>(m: map<Pid, Guest<K>>, p: Pid, g: Guest<K>)
    requires p !in m
    ensures Load(m[p := g]) == Load(m) + Weight(g.hasChild)
  {
    FamiliesInsert(m, p, g);
    assert m[p := g].Keys == m.Keys + {p};
  }

  lemma LoadRemove<K>(m: map<Pid, Guest<K>>, p: Pid)
    requires p in m
    ensures Load(m - {p}) == Load(m) - Weight(m[p].hasChild)
  {
    var rest := m - {p};
    assert m == rest[p := m[p]];
    LoadInsert(rest, p, m[p]);
  }

  /** Registering a pid that is already present replaces its entry, so its old weight is lost from the sum. */
  lemma LoadReplace<K>(m: map<Pid, Guest<K>>, p: Pid, g: Guest<K>)
    requires p in m
    ensures Load(m[p := g]) == Load(m) - Weight(m[p].hasChild) + Weight(g.hasChild)
  {
    LoadRemove(m, p);
    assert m[p := g] == (m - {p})[p := g];
    LoadInsert(m - {p}, p, g);
  }

  lemma LoadEmpty<K>(m: map<Pid, Guest<K>>)
    ensures Load(m) == 0 <==> m == map[]
    ensures Load(m) == 0 <==> |m| == 0
    ensures Load(m) >= |m|
  {
    if |m| == 0 {
      assert m.Keys == {};
      assert m == map[];
      assert Families(m) == {};
    }
  }

  /** What a server finds when it reads the reply queue after posting its permit or bill. */
  datatype Reply = Silence | Other | Ack

  /**
    * One handshake as the environment decides it: the client's queue is missing, or the
    * post does not get through, or it does and some reply follows. E is the kind of event that can
    * happen while the server is blocked in a send or in a receive.
    */
  datatype Handshake<E> =
    | Missing
    | Unsent(posting: seq<E>)
    | Sent(posting: seq<E>, reply: Reply, awaiting: seq<E>)

  /** Every list of events that the handshake could deliver satisfies ok. */
  ghost predicate Throughout<E>(h: Handshake<E>, ok: seq<E> -> bool) {
    match h
    case Missing => true
    case Unsent(posting) => ok(posting)
    case Sent(posting, _, awaiting) => ok(posting) && ok(awaiting)
  }

  /** The events a handshake does deliver: after a refusal the server does not wait for a reply. */
  function Delivered<E>(h: Handshake<E>, allowed: bool): seq<E> {
    match h
    case Missing => []
    case Unsent(posting) => posting
    case Sent(posting, _, awaiting) => if allowed then posting + awaiting else posting
  }

  predicate Acknowledged<E>(h: Handshake<E>) {
    h.Sent? && h.reply.Ack?
  }
}
