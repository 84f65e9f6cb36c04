/** One round of an attraction: its clients, its finish time and the semaphore on which they wait to leave. */
module Rounds {
  import opened Common

  datatype Origin = FromPark | FromOutside

  type Rider = Guest<Origin>

  /** The largest value of a System V semaphore. */
  const SEMVMX := 32767

  /** A System V semaphore. An operation by 0 is not a no-op: it waits until the value is 0. */
  class Semaphore {
    var value: nat

    constructor ()
      ensures value == 0
    {
      value := 0;
    }

    method SetValue(v: nat)
      modifies this
      ensures value == v
    {
      value := v;
    }

    /** A signal that returns at once: adding 0 must find the value 0, and the sum must stay in range. */
    method Signal(n: nat)
      requires n == 0 ==> value == 0
      requires value + n <= SEMVMX
      modifies this
      ensures value == old(value) + n
    {
      value := value + n;
    }
  }

  /** The serial number is history: it tells rounds apart that used the same slot. */
  datatype Round = Round(serial: nat, clients: map<Pid, Rider>, finish: int, started: bool, released: bool)

  function Fresh(serial: nat): Round {
    Round(serial, map[], 0, false, false)
  }

  /** A pid that is already riding is not registered again. */
  function Board(r: Round, p: Pid, g: Rider): Round {
    if p in r.clients then r else r.(clients := r.clients[p := g])
  }

  function Begin(r: Round, now: nat, duration: nat): Round {
    if r.started then r else r.(finish := now + duration, started := true)
  }

  predicate TimeUp(r: Round, at: int) {
    at >= r.finish
  }

  predicate Over(r: Round, now: nat) {
    TimeUp(r, now) || r.clients == map[]
  }

  class AttractionHandler {
    const leave: Semaphore
    const duration: nat
    ghost const serial: nat

    var clients: map<Pid, Rider>
    var finishTime: int
    var started: bool
    var released: bool

    ghost function View(): Round
      reads this
    {
      Round(serial, clients, finishTime, started, released)
    }

    constructor (leave: Semaphore, duration: nat, ghost serial: nat)
      modifies leave
      ensures View() == Fresh(serial) && this.leave == leave && this.duration == duration
      ensures leave.value == 0
    {
      this.leave := leave;
      this.duration := duration;
      this.serial := serial;
      clients := map[];
      finishTime := 0;
      started, released := false, false;
      new;
      leave.SetValue(0);
    }

    method RemoveClient(pid: Pid) returns (removed: bool)
      modifies this
      ensures removed == (pid in old(clients))
      ensures View() == old(View()).(clients := old(clients) - {pid})
      ensures !removed ==> View() == old(View())
    {
      removed := pid in clients;
      assert !removed ==> clients - {pid} == clients;
      clients := clients - {pid};
    }

    method Finished(now: nat) returns (r: bool)
      ensures r == Over(View(), now)
    {
      r := now >= finishTime || clients == map[];
    }

    method AddClient(pid: Pid, g: Rider) returns (added: bool)
      modifies this
      ensures added == (pid !in old(clients))
      ensures View() == Board(old(View()), pid, g)
    {
      if pid in clients {
        return false;
      }
      clients := clients[pid := g];
      return true;
    }

    /** The accumulated sum of 1 + hasChild is the load of the client map. */
    method GetClientCount() returns (sum: nat)
      ensures sum == Load(clients)
    {
      sum := 0;
      var rest := clients.Keys;
      LoadEmpty(Without(rest));
      while rest != {}
        invariant rest <= clients.Keys
        invariant sum == Load(Without(rest))
        decreases rest
      {
        HasMember(rest);
        var p :| p in rest;
        assert Without(rest - {p}) == Without(rest)[p := clients[p]];
        LoadInsert(Without(rest), p, clients[p]);
        sum := sum + 1 + if clients[p].hasChild then 1 else 0;
        rest := rest - {p};
      }
      assert Without(rest) == clients;
    }

    ghost function Without(rest: set<Pid>): map<Pid, Rider>
      reads this
    {
      map p | p in clients && p !in rest :: clients[p]
    }

    method StartAttraction(now: nat)
      modifies this, leave
      ensures View() == Begin(old(View()), now, duration)
      ensures leave.value == if old(started) then old(leave.value) else 0
    {
      if started {
        return;
      }
      finishTime := now + duration;
      leave.SetValue(0);
      started := true;
    }

    /** Gives every registered client one token, once; only an empty round must find the semaphore at zero. */
    method ReleaseClients()
      requires released || ((clients == map[] ==> leave.value == 0) && leave.value + |clients| <= SEMVMX)
      modifies this, leave
      ensures View() == old(View()).(released := true)
      ensures leave.value == old(leave.value) + if old(released) then 0 else |clients|
    {
      if released {
        return;
      }
      LoadEmpty(clients);
      leave.Signal(|clients|);
      released := true;
    }
  }
}
