/**
  The registry and the probes together: main starts one pingClient per
  registry key, with that key as its id, and pingServer hands each routed
  echo to the probe under that key, whose pending select returns it.
*/
module Monitor {
  import opened Registry
  import opened Probe

  /** The probe states on entry to every pingClient started by main. */
  function InitialStates(clients: map<int, ClientRecord>): map<int, ProbeState>
  {
    map id | id in clients :: ProbeState(clients[id].outage, 1)
  }

  /** The probe states after one inbound packet, and the events it caused. */
  datatype Dispatched = Dispatched(probes: map<int, ProbeState>, events: seq<string>)

  /**
    One packet through pingServer and, when it is routed, through the select
    of the probe it is routed to.
  */
  function Dispatch(clients: map<int, ClientRecord>, probes: map<int, ProbeState>, m: Inbound): Dispatched
    requires clients.Keys == probes.Keys
  {
    match Receive(clients, m)
    case Record(msg) => Dispatched(probes, [msg])
    case Discard => Dispatched(probes, [])
    case Deliver(to, p) =>
      var r := Next(to, clients[to].ip, probes[to], Reply(p));
      Dispatched(probes[to := r.state], r.events)
  }

  /** Every probe main starts for the validated targets is healthy with processSeq 1. */
  lemma StartHealthy(pingIPs: seq<string>)
    ensures var probes := InitialStates(RegistryOf(pingIPs));
            forall k :: k in probes <==> 1 <= k <= |pingIPs|
    ensures var probes := InitialStates(RegistryOf(pingIPs));
            forall k :: k in probes ==> probes[k] == ProbeState(false, 1)
  {
    RegistryEntries(pingIPs);
  }

  /** An echo whose id is not registered is dropped: no probe changes and nothing is recorded. */
  lemma UnknownIdDropped(clients: map<int, ClientRecord>, probes: map<int, ProbeState>, id: int, seqNo: int)
    requires clients.Keys == probes.Keys
    requires id !in clients
    ensures Dispatch(clients, probes, EchoBody(id, seqNo)) == Dispatched(probes, [])
  {
  }

  /**
    A packet changes at most the probe registered under its own id and
    keeps the set of probes.
  */
  lemma OnlyOwnerChanges(clients: map<int, ClientRecord>, probes: map<int, ProbeState>, m: Inbound)
    requires clients.Keys == probes.Keys
    ensures var d := Dispatch(clients, probes, m);
            d.probes.Keys == probes.Keys
            && forall k :: k in probes && !(m.EchoBody? && m.id == k) ==> d.probes[k] == probes[k]
  {
  }

  /**
    A routed echo always passes the probe's identifier test, whatever its
    sequence number: the probe becomes healthy, advances processSeq, and
    records "outage cleared" exactly when it was in outage.
  */
  lemma RoutedReplyClears(clients: map<int, ClientRecord>, probes: map<int, ProbeState>, id: int, seqNo: int)
    requires clients.Keys == probes.Keys
    requires id in clients
    ensures var d := Dispatch(clients, probes, EchoBody(id, seqNo));
            && d.probes[id] == ProbeState(false, probes[id].processSeq + 1)
            && d.events == (if probes[id].outage then [Cleared(clients[id].ip)] else [])
  {
  }

  /** Read and parse failures are recorded and change no probe. */
  lemma FailuresRecorded(clients: map<int, ClientRecord>, probes: map<int, ProbeState>, err: string)
    requires clients.Keys == probes.Keys
    ensures Dispatch(clients, probes, ReadFailed(err)) ==
              Dispatched(probes, ["pingServer failed to read icmp packet: " + err])
    ensures Dispatch(clients, probes, ParseFailed(err)) ==
              Dispatched(probes, ["pingServer failed to parse icmp packet: " + err])
  {
  }
}
