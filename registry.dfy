/**
  The client registry built in main and the routing decision of pingServer:
  every validated target gets the id one above its position in the list, and
  an inbound echo goes to the client registered under its identifier or is
  dropped.
*/
module Registry {

  /** pingPacket: the identifier and sequence number of an echo. */
  datatype PingPacket = PingPacket(id: int, seqNo: int)

  /**
    pClient without its control channel: the id, the target address and the
    outage flag.
  */
  datatype ClientRecord = ClientRecord(id: int, ip: string, outage: bool)

  /**
    The registry main builds for the validated targets `pingIPs`: the
    registry of all but the last target, with the last one added under the
    next id.
  */
  function RegistryOf(pingIPs: seq<string>): map<int, ClientRecord>
    decreases |pingIPs|
  {
    if |pingIPs| == 0 then map[]
    else
      var n := |pingIPs|;
      RegistryOf(pingIPs[..n - 1])[n := ClientRecord(n, pingIPs[n - 1], false)]
  }

  /**
    The keys of the registry are exactly 1..n and entry k is target k with
    id k and no outage.
  */
  lemma {:induction false} RegistryEntries(pingIPs: seq<string>)
    ensures forall k :: k in RegistryOf(pingIPs) <==> 1 <= k <= |pingIPs|
    ensures forall k :: k in RegistryOf(pingIPs) ==>
                          RegistryOf(pingIPs)[k] == ClientRecord(k, pingIPs[k - 1], false)
    decreases |pingIPs|
  {
    if |pingIPs| > 0 {
      var init := pingIPs[..|pingIPs| - 1];
      RegistryEntries(init);
      assert forall i :: 0 <= i < |init| ==> init[i] == pingIPs[i];
    }
  }

  /**
    The loop of main that fills pingClientList: target number `id` (from 0)
    is stored under key id+1 as a record with that id, its address and no
    outage.
  */
  method BuildRegistry(pingIPs: seq<string>) returns (clients: map<int, ClientRecord>)
    ensures forall k :: k in clients <==> 1 <= k <= |pingIPs|
    ensures forall k :: k in clients ==> clients[k] == ClientRecord(k, pingIPs[k - 1], false)
    ensures clients == RegistryOf(pingIPs)
  {
    clients := map[];
    var id := 0;
    while id < |pingIPs|
      invariant 0 <= id <= |pingIPs|
      invariant forall k :: k in clients <==> 1 <= k <= id
      invariant forall k :: k in clients ==> clients[k] == ClientRecord(k, pingIPs[k - 1], false)
    {
      clients := clients[id + 1 := ClientRecord(id + 1, pingIPs[id], false)];
      id := id + 1;
    }
    RegistryEntries(pingIPs);
    assert clients.Keys == RegistryOf(pingIPs).Keys;
  }

  /** A registry of `n` targets holds exactly `n` clients. */
  lemma {:induction false} RegistrySize(pingIPs: seq<string>)
    ensures |RegistryOf(pingIPs)| == |pingIPs|
    decreases |pingIPs|
  {
    if |pingIPs| > 0 {
      var init := pingIPs[..|pingIPs| - 1];
      RegistrySize(init);
      RegistryEntries(init);
    }
  }

  /**
    Ids are unique even when addresses repeat: two different keys hold
    records with different ids, and reading the addresses back by id gives
    the target list in its original order.
  */
  lemma RegistryIdsUnique(pingIPs: seq<string>)
    ensures var clients := RegistryOf(pingIPs);
            forall k1, k2 :: k1 in clients && k2 in clients && k1 != k2 ==> clients[k1].id != clients[k2].id
    ensures var clients := RegistryOf(pingIPs);
            forall i :: 0 <= i < |pingIPs| ==> i + 1 in clients && clients[i + 1].ip == pingIPs[i]
  {
    RegistryEntries(pingIPs);
  }

  /** What pingServer makes of one inbound packet. */
  datatype Inbound =
    | ReadFailed(err: string)         // ReadFrom returned an error
    | ParseFailed(err: string)        // icmp.ParseMessage returned an error
    | OtherBody                       // a parsed message whose body is not an echo
    | EchoBody(id: int, seqNo: int)     // a parsed echo (request or reply) body

  /** One action of the pingServer loop. */
  datatype ServerAction =
    | Record(msg: string)             // an event for the log, then the next read
    | Deliver(to: int, packet: PingPacket)
    | Discard

  /**
    The lookup of pingServer: an echo with identifier `id` goes to the client
    registered under `id`, carrying the same identifier and sequence;
    otherwise it is dropped.
  */
  function Route(clients: map<int, ClientRecord>, id: int, seqNo: int): ServerAction
  {
    if id in clients then Deliver(id, PingPacket(id, seqNo)) else Discard
  }

  /** One pass of the pingServer loop after ReadFrom has returned. */
  function Receive(clients: map<int, ClientRecord>, m: Inbound): (r: ServerAction)
  {
    match m
    case ReadFailed(err) => Record("pingServer failed to read icmp packet: " + err)
    case ParseFailed(err) => Record("pingServer failed to parse icmp packet: " + err)
    case OtherBody => Discard
    case EchoBody(id, seqNo) => Route(clients, id, seqNo)
  }

  /**
    Routing over the registry main builds: an echo with identifier X is
    delivered exactly when X is one of the ids 1..n, to the client with id X
    whose address is target X, with the echo's own identifier and sequence.
  */
  lemma RouteToOwner(pingIPs: seq<string>, id: int, seqNo: int)
    ensures var r := Route(RegistryOf(pingIPs), id, seqNo);
            r.Deliver? <==> 1 <= id <= |pingIPs|
    ensures var clients := RegistryOf(pingIPs);
            var r := Route(clients, id, seqNo);
            r.Deliver? ==> r.to in clients && clients[r.to].id == id && clients[r.to].ip == pingIPs[id - 1]
                           && r.packet == PingPacket(id, seqNo)
  {
    RegistryEntries(pingIPs);
  }

  /**
    A delivered packet carries the id of the client it is delivered to;
    only a read or parse failure produces a log event.
  */
  lemma ReceiveDelivers(clients: map<int, ClientRecord>, m: Inbound)
    requires forall k :: k in clients ==> clients[k].id == k
    ensures var r := Receive(clients, m);
            r.Deliver? ==> m.EchoBody? && r.to in clients && clients[r.to].id == m.id
                           && r.packet == PingPacket(m.id, m.seqNo)
    ensures Receive(clients, m).Record? <==> m.ReadFailed? || m.ParseFailed?
    ensures m.EchoBody? && m.id !in clients ==> Receive(clients, m) == Discard
  {
  }
}
