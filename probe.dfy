/**
  One probe of pingClient: it owns a sequence counter (processSeq, from 1)
  and its copy of the client's outage flag.  Each pass of its loop sends an
  echo, waits for the control channel or the 1900 ms timer, updates the flag,
  records an event on an edge only, and increments processSeq after either
  outcome.  The select's outcome is an input here.
*/
module Probe {
  import opened Wrappers
  import opened Registry

  /** The data every echo request carries. */
  const PAYLOAD: string := "12345677890"

  /** The echo body pingClient builds: its id, the current processSeq and the payload. */
  datatype EchoRequest = EchoRequest(id: int, seqNo: int, data: string)

  /** What the select of pingClient returned: a packet from the control channel, or the timer. */
  datatype WaitOutcome = Reply(p: PingPacket) | Timeout

  datatype ProbeState = ProbeState(outage: bool, processSeq: int)

  /** The state after some passes and the events they recorded, oldest first. */
  datatype StepResult = StepResult(state: ProbeState, events: seq<string>)

  function Detected(ip: string): string { "pingClient: Connectivity outage detected for: " + ip }

  function Cleared(ip: string): string { "pingClient: Connectivity outage cleared for: " + ip }

  /** The events recorded when marshalling or writing the request fails. */
  function SendFailures(ip: string, marshalErr: Option<string>, writeErr: Option<string>): seq<string>
  {
    (if marshalErr.Some? then ["pingClient: failed to marshal icmp packet to: " + ip + " with: " + marshalErr.value] else [])
    + (if writeErr.Some? then ["pingClient: failed to send a packet to: " + ip + " " + writeErr.value] else [])
  }

  /**
    The select of pingClient and the processSeq++ after it.  A reply matches
    on its identifier alone; its sequence number is not compared.
  */
  function Next(clientID: int, ip: string, s: ProbeState, o: WaitOutcome): StepResult
  {
    match o
    case Reply(p) =>
      if p.id == clientID then
        StepResult(ProbeState(false, s.processSeq + 1), if s.outage then [Cleared(ip)] else [])
      else
        StepResult(ProbeState(s.outage, s.processSeq + 1), [])
    case Timeout =>
      StepResult(ProbeState(true, s.processSeq + 1), if s.outage then [] else [Detected(ip)])
  }

  /** Consecutive passes over a trace of select outcomes. */
  function Run(clientID: int, ip: string, s: ProbeState, trace: seq<WaitOutcome>): StepResult
    decreases |trace|
  {
    if |trace| == 0 then StepResult(s, [])
    else
      var first := Next(clientID, ip, s, trace[0]);
      var rest := Run(clientID, ip, first.state, trace[1..]);
      StepResult(rest.state, first.events + rest.events)
  }

  /** How many passes of a trace change the outage flag. */
  function FlagChanges(clientID: int, ip: string, s: ProbeState, trace: seq<WaitOutcome>): nat
    decreases |trace|
  {
    if |trace| == 0 then 0
    else
      var next := Next(clientID, ip, s, trace[0]).state;
      (if next.outage != s.outage then 1 else 0) + FlagChanges(clientID, ip, next, trace[1..])
  }

  lemma DetectedIsNotCleared(ip: string)
    ensures Detected(ip) != Cleared(ip)
  {
    assert Detected(ip)[32] != Cleared(ip)[32];
  }

  /**
    A timeout leaves the probe in outage and records "outage detected"
    exactly when it was healthy before.
  */
  lemma TimeoutStep(clientID: int, ip: string, s: ProbeState)
    ensures var r := Next(clientID, ip, s, Timeout);
            && r.state.outage
            && r.state.processSeq == s.processSeq + 1
            && (!s.outage ==> r.events == [Detected(ip)])
            && (s.outage ==> r.events == [])
  {
  }

  /**
    A reply with the probe's own id leaves it healthy and records "outage
    cleared" exactly when it was in outage before; a reply with another id
    changes nothing but the counter.
  */
  lemma ReplyStep(clientID: int, ip: string, s: ProbeState, p: PingPacket)
    ensures var r := Next(clientID, ip, s, Reply(p));
            && r.state.processSeq == s.processSeq + 1
            && (p.id == clientID ==> !r.state.outage && r.events == (if s.outage then [Cleared(ip)] else []))
            && (p.id != clientID ==> r.state.outage == s.outage && r.events == [])
  {
  }

  /** Every pass records at most one event, and one exactly when it flips the flag. */
  lemma EdgeOnly(clientID: int, ip: string, s: ProbeState, o: WaitOutcome)
    ensures var r := Next(clientID, ip, s, o);
            |r.events| <= 1 && (|r.events| == 1 <==> r.state.outage != s.outage)
  {
  }

  /** processSeq grows by exactly one per pass, whatever the outcomes. */
  lemma {:induction false} RunCounts(clientID: int, ip: string, s: ProbeState, trace: seq<WaitOutcome>)
    ensures Run(clientID, ip, s, trace).state.processSeq == s.processSeq + |trace|
    decreases |trace|
  {
    if |trace| > 0 {
      RunCounts(clientID, ip, Next(clientID, ip, s, trace[0]).state, trace[1..]);
    }
  }

  /** Over any trace the number of events equals the number of flag changes. */
  lemma {:induction false} EventsAreFlagChanges(clientID: int, ip: string, s: ProbeState, trace: seq<WaitOutcome>)
    ensures |Run(clientID, ip, s, trace).events| == FlagChanges(clientID, ip, s, trace)
    decreases |trace|
  {
    if |trace| > 0 {
      EdgeOnly(clientID, ip, s, trace[0]);
      EventsAreFlagChanges(clientID, ip, Next(clientID, ip, s, trace[0]).state, trace[1..]);
    }
  }

  /**
    `events` alternate between "detected" and "cleared", starting with
    "detected" when the probe starts healthy and with "cleared" when it starts
    in outage.
  */
  ghost predicate Alternates(events: seq<string>, ip: string, startOutage: bool)
  {
    forall i :: 0 <= i < |events| ==> events[i] == EventAt(i, ip, startOutage)
  }

  /** The event number `i` of an alternating run from `startOutage`. */
  ghost function EventAt(i: nat, ip: string, startOutage: bool): string
  {
    if (i % 2 == 0) != startOutage then Detected(ip) else Cleared(ip)
  }

  lemma EventAtShift(i: nat, ip: string, startOutage: bool)
    ensures EventAt(i + 1, ip, startOutage) == EventAt(i, ip, !startOutage)
  {
    assert ((i + 1) % 2 == 0) == (i % 2 != 0);
  }

  /** An event opposite to the start state, followed by events alternating from the flipped state. */
  lemma AlternatesCons(e: string, rest: seq<string>, ip: string, startOutage: bool)
    requires e == EventAt(0, ip, startOutage)
    requires Alternates(rest, ip, !startOutage)
    ensures Alternates([e] + rest, ip, startOutage)
  {
    var events := [e] + rest;
    forall i | 0 < i < |events|
      ensures events[i] == EventAt(i, ip, startOutage)
    {
      assert events[i] == rest[i - 1];
      EventAtShift(i - 1, ip, startOutage);
    }
  }

  /**
    The recorded events always alternate, so two "outage detected" events
    are separated by an "outage cleared"; the final flag differs from the
    initial one exactly when an odd number of events was recorded.
  */
  lemma {:induction false} RunAlternates(clientID: int, ip: string, s: ProbeState, trace: seq<WaitOutcome>)
    ensures var r := Run(clientID, ip, s, trace);
            Alternates(r.events, ip, s.outage) && (r.state.outage == (s.outage != (|r.events| % 2 == 1)))
    decreases |trace|
  {
    if |trace| > 0 {
      var first := Next(clientID, ip, s, trace[0]);
      var rest := Run(clientID, ip, first.state, trace[1..]);
      RunAlternates(clientID, ip, first.state, trace[1..]);
      EdgeOnly(clientID, ip, s, trace[0]);
      if |first.events| == 1 {
        assert first.events == [EventAt(0, ip, s.outage)];
        AlternatesCons(first.events[0], rest.events, ip, s.outage);
        assert |first.events + rest.events| == 1 + |rest.events|;
      } else {
        assert first.events + rest.events == rest.events;
      }
    }
  }

  /** A probe that never hears back records exactly one "outage detected", or none if already in outage. */
  lemma {:induction false} AllTimeouts(clientID: int, ip: string, s: ProbeState, trace: seq<WaitOutcome>)
    requires |trace| > 0
    requires forall i :: 0 <= i < |trace| ==> trace[i] == Timeout
    ensures var r := Run(clientID, ip, s, trace);
            r.state.outage && r.events == (if s.outage then [] else [Detected(ip)])
    decreases |trace|
  {
    if |trace| > 1 {
      var next := Next(clientID, ip, s, Timeout).state;
      AllTimeouts(clientID, ip, next, trace[1..]);
      assert trace[0] == Timeout;
    } else {
      assert trace[0] == Timeout;
    }
  }

  /** A healthy probe that always gets a reply with its own id records no event. */
  lemma {:induction false} AlwaysAnswered(clientID: int, ip: string, s: ProbeState, trace: seq<WaitOutcome>)
    requires !s.outage
    requires forall i :: 0 <= i < |trace| ==> trace[i].Reply? && trace[i].p.id == clientID
    ensures var r := Run(clientID, ip, s, trace);
            !r.state.outage && r.events == []
    decreases |trace|
  {
    if |trace| > 0 {
      AlwaysAnswered(clientID, ip, Next(clientID, ip, s, trace[0]).state, trace[1..]);
    }
  }

  /** Replies that carry another id never change the flag nor record anything. */
  lemma {:induction false} ForeignRepliesIgnored(clientID: int, ip: string, s: ProbeState, trace: seq<WaitOutcome>)
    requires forall i :: 0 <= i < |trace| ==> trace[i].Reply? && trace[i].p.id != clientID
    ensures var r := Run(clientID, ip, s, trace);
            r.state.outage == s.outage && r.events == []
    decreases |trace|
  {
    if |trace| > 0 {
      ForeignRepliesIgnored(clientID, ip, Next(clientID, ip, s, trace[0]).state, trace[1..]);
    }
  }

  /** Running a trace and then one more outcome is the same as running the longer trace. */
  lemma {:induction false} RunSnoc(clientID: int, ip: string, s: ProbeState, trace: seq<WaitOutcome>, o: WaitOutcome)
    ensures var r := Run(clientID, ip, s, trace);
            var n := Next(clientID, ip, r.state, o);
            Run(clientID, ip, s, trace + [o]) == StepResult(n.state, r.events + n.events)
    decreases |trace|
  {
    if |trace| == 0 {
      assert [] + [o] == [o];
    } else {
      var first := Next(clientID, ip, s, trace[0]);
      RunSnoc(clientID, ip, first.state, trace[1..], o);
      assert (trace + [o])[0] == trace[0];
      assert (trace + [o])[1..] == trace[1..] + [o];
    }
  }

  /**
    Probe 7 starting healthy with processSeq 1: a reply records nothing; a
    timeout records "outage detected"; a timeout and then the reply record
    "outage detected" and then "outage cleared".  processSeq advances on the
    timeout as well.
  */
  lemma Scenarios(ip: string)
    ensures Run(7, ip, ProbeState(false, 1), [Reply(PingPacket(7, 1))]) == StepResult(ProbeState(false, 2), [])
    ensures Run(7, ip, ProbeState(false, 1), [Timeout]) == StepResult(ProbeState(true, 2), [Detected(ip)])
    ensures Run(7, ip, ProbeState(false, 1), [Timeout, Reply(PingPacket(7, 1))])
            == StepResult(ProbeState(false, 3), [Detected(ip), Cleared(ip)])
  {
    assert [Timeout, Reply(PingPacket(7, 1))][1..] == [Reply(PingPacket(7, 1))];
  }

  /**
    The goroutine pingClient for one client: its id, its copy of the client
    record's address and outage flag, processSeq, and the events it records.
  */
  class PingClient {
    const clientID: int
    const ip: string
    var outage: bool
    var processSeq: int
    var log: seq<string>

    function State(): ProbeState
      reads this
    {
      ProbeState(outage, processSeq)
    }

    /** pingClient(c, clientID, client, logFile) on entry: processSeq := 1. */
    constructor (clientID: int, client: ClientRecord)
      ensures this.clientID == clientID && ip == client.ip
      ensures outage == client.outage && processSeq == 1 && log == []
    {
      this.clientID := clientID;
      ip := client.ip;
      outage := client.outage;
      processSeq := 1;
      log := [];
    }

    /**
      Build the echo for the current processSeq and send it; a marshalling
      or write failure is recorded and the pass goes on.
    */
    method Send(marshalErr: Option<string>, writeErr: Option<string>) returns (req: EchoRequest)
      modifies this`log
      ensures req == EchoRequest(clientID, processSeq, PAYLOAD)
      ensures log == old(log) + SendFailures(ip, marshalErr, writeErr)
    {
      req := EchoRequest(clientID, processSeq, PAYLOAD);
      if marshalErr.Some? {
        log := log + ["pingClient: failed to marshal icmp packet to: " + ip + " with: " + marshalErr.value];
      }
      if writeErr.Some? {
        log := log + ["pingClient: failed to send a packet to: " + ip + " " + writeErr.value];
      }
    }

    /** The select on the control channel and the timer, then processSeq++. */
    method Await(outcome: WaitOutcome)
      modifies this`outage, this`processSeq, this`log
      ensures processSeq == old(processSeq) + 1
      ensures outcome.Timeout? ==>
                outage && log == old(log) + (if old(outage) then [] else [Detected(ip)])
      ensures outcome.Reply? && outcome.p.id == clientID ==>
                !outage && log == old(log) + (if old(outage) then [Cleared(ip)] else [])
      ensures outcome.Reply? && outcome.p.id != clientID ==>
                outage == old(outage) && log == old(log)
      ensures var r := Next(clientID, ip, old(State()), outcome);
              State() == r.state && log == old(log) + r.events
    {
      match outcome {
        case Reply(p) =>
          if p.id == clientID {
            if outage {
              log := log + [Cleared(ip)];
            }
            outage := false;
          }
        case Timeout =>
          if !outage {
            log := log + [Detected(ip)];
          }
          outage := true;
      }
      processSeq := processSeq + 1;
    }

    /** One pass of the pingClient loop; the request carries the processSeq of that pass. */
    method Iterate(marshalErr: Option<string>, writeErr: Option<string>, outcome: WaitOutcome)
      returns (req: EchoRequest)
      modifies this`outage, this`processSeq, this`log
      ensures req == EchoRequest(clientID, old(processSeq), PAYLOAD)
      ensures var r := Next(clientID, ip, old(State()), outcome);
              State() == r.state && log == old(log) + SendFailures(ip, marshalErr, writeErr) + r.events
    {
      req := Send(marshalErr, writeErr);
      Await(outcome);
    }

    /**
      The pingClient loop for as many passes as `outcomes` has, every send
      succeeding: the state and the recorded events are those of Run.
    */
    method Loop(outcomes: seq<WaitOutcome>)
      modifies this`outage, this`processSeq, this`log
      ensures var r := Run(clientID, ip, old(State()), outcomes);
              State() == r.state && log == old(log) + r.events
    {
      var k := 0;
      while k < |outcomes|
        invariant 0 <= k <= |outcomes|
        invariant var r := Run(clientID, ip, old(State()), outcomes[..k]);
                  State() == r.state && log == old(log) + r.events
      {
        RunSnoc(clientID, ip, old(State()), outcomes[..k], outcomes[k]);
        assert outcomes[..k + 1] == outcomes[..k] + [outcomes[k]];
        var _ := Iterate(None, None, outcomes[k]);
        k := k + 1;
      }
      assert outcomes[..k] == outcomes;
    }
  }
}
