/**
  The counters and queues of a process as the objects they are.  Every method call on one of them is
  the charge, release, put or take that the step system writes on its maps, and leaves the others alone.
*/
module Objects {
  import opened Common
  import opened Topology
  import opened Network
  import opened Runtime
  import opened Queues
  import opened MemUsages

  class ProcessObjects {
    const counters: map<Account, MemUsage>           // MUID_MemUsage
    const queues: map<Place, Queue<Packet>>          // single_mpi_outqueue and the console and proxy queues
    const ports: map<InPort, Queue<Arrival>>         // in_ports of the filter executors

    constructor (counters: map<Account, MemUsage>, queues: map<Place, Queue<Packet>>, ports: map<InPort, Queue<Arrival>>)
      ensures this.counters == counters && this.queues == queues && this.ports == ports
    {
      this.counters, this.queues, this.ports := counters, queues, ports;
    }

    /** No object serves two purposes. */
    ghost predicate Separate() {
      && (forall a, b :: a in counters && b in counters && a != b ==> counters[a] != counters[b])
      && (forall x, y :: x in queues && y in queues && x != y ==> queues[x] != queues[y])
      && (forall x, y :: x in ports && y in ports && x != y ==> ports[x] != ports[y])
    }

    ghost predicate CountersShow(u: map<Account, int>)
      reads counters.Values
    {
      forall a :: a in counters ==> counters[a].Valid() && counters[a].currentUsage == Usage(u, a)
    }

    ghost predicate QueuesShow(n: Net)
      reads queues.Values
    {
      forall pl :: pl in queues ==> queues[pl].q == Lookup(n.at, pl)
    }

    ghost predicate PortsShow(s: Store)
      reads ports.Values
    {
      forall ip :: ip in ports ==> ports[ip].q == Lookup(s.inbox, ip) && ports[ip].putters == Putters(s, ip)
    }

    /**
      A filter or console writer charges a buffer, waiting for room; one that never fits ends the program.
      Meanwhile the others bring the counter to the level at which there is room.
    */
    method Accumulate(a: Account, bytes: nat, wakes: seq<nat>, ghost u: map<Account, int>) returns (alive: bool, ghost seen: nat)
      requires Separate() && CountersShow(u) && a in counters
      requires forall i :: 0 <= i < |wakes| ==> wakes[i] <= counters[a].threshold
      requires Usage(u, a) + bytes > counters[a].threshold && bytes <= counters[a].threshold ==>
                 exists i :: 0 <= i < |wakes| && wakes[i] + bytes <= counters[a].threshold
      modifies counters[a]
      ensures alive <==> bytes <= counters[a].threshold
      ensures CountersShow(if alive then Charge(u[a := seen], a, bytes) else u)
      ensures alive ==> if Usage(u, a) + bytes <= counters[a].threshold then seen == Usage(u, a)
                        else FirstRoom(wakes, bytes, counters[a].threshold, seen)
    {
      alive, seen := counters[a].Accumulate(bytes, wakes);
    }

    /** The main loop charges a buffer only if there is room now. */
    method AccumulateIfRoom(a: Account, bytes: nat, ghost u: map<Account, int>) returns (ok: bool)
      requires Separate() && CountersShow(u) && a in counters
      modifies counters[a]
      ensures ok <==> Usage(u, a) + bytes <= counters[a].threshold
      ensures CountersShow(if ok then Charge(u, a, bytes) else u)
    {
      ok := counters[a].AccumulateIfNotExceedingLimit(bytes);
    }

    /** Releasing needs what `LedgerConservation` gives: the account holds at least these bytes. */
    method Reduce(a: Account, bytes: nat, ghost u: map<Account, int>)
      requires Separate() && CountersShow(u) && a in counters && bytes <= Usage(u, a)
      modifies counters[a]
      ensures CountersShow(Charge(u, a, 0 - bytes))
    {
      counters[a].Reduce(bytes);
    }

    method PutPacket(pl: Place, p: Packet, ghost n: Net)
      requires Separate() && QueuesShow(n) && pl in queues
      modifies queues[pl]
      ensures QueuesShow(Put(n, pl, p))
    {
      queues[pl].Put(p);
    }

    method TakePacket(pl: Place, ghost n: Net) returns (p: Packet)
      requires Separate() && QueuesShow(n) && pl in queues && Lookup(n.at, pl) != []
      modifies queues[pl]
      ensures p == Lookup(n.at, pl)[0] && QueuesShow(Rest(n, pl))
    {
      p := queues[pl].Get();
    }

    method PutArrivalAt(ip: InPort, x: Arrival, ghost s: Store)
      requires Separate() && PortsShow(s) && ip in ports
      modifies ports[ip]
      ensures PortsShow(PutArrival(s, ip, x))
    {
      ports[ip].Put(x);
    }

    method RemovePutterAt(ip: InPort, g: int, ghost s: Store)
      requires Separate() && PortsShow(s) && ip in ports
      modifies ports[ip]
      ensures PortsShow(DropPutter(s, ip, g))
    {
      ports[ip].RemovePutter(g);
    }

    /** A filter reads: the buffer leaves the queue of the in-port and its bytes leave its account. */
    method ReadArrival(ip: InPort, ghost c: Config, ghost st: State) returns (x: Arrival)
      requires Separate() && PortsShow(st.store) && CountersShow(st.usage) && ip in ports && CanRead(c, st, ip)
      requires var y := Lookup(st.store.inbox, ip)[0];
               y.account != Unmetered ==> y.account in counters && |y.body| <= Usage(st.usage, y.account)
      modifies ports[ip], counters.Values
      ensures x == Lookup(st.store.inbox, ip)[0]
      ensures PortsShow(Read(c, st, ip).store) && CountersShow(Read(c, st, ip).usage)
    {
      x := ports[ip].Get();
      if x.account != Unmetered {
        Reduce(x.account, |x.body|, st.usage);
      }
    }
  }
}
