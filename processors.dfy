/** The processor contract (api/services/Processor.java): the processor state
    enum with its weights, the derivation of a processor's state from its
    ports, the lookup of port keys by data type, and disconnecting every port
    of a processor. The state queries are stated as functions over snapshots
    of the ports (`PortView`); the methods follow the Java loops and are
    proved equal to those functions. */
module Processors {

  import opened Wrappers
  import Ports

  /** Processor states, in declaration order. */
  datatype State = Error | Unavailable | Unconnected | Waiting | Processing | Ready

  /** The order of `State.values()`. */
  const AllStates: seq<State> := [Error, Unavailable, Unconnected, Waiting, Processing, Ready]

  function Weight(s: State): int {
    match s
    case Error => 32
    case Unavailable => 16
    case Unconnected => 8
    case Waiting => 4
    case Processing => 2
    case Ready => 1
  }

  lemma AllStatesListed(s: State)
    ensures s in AllStates
  {
  }

  /** `State.getState(weight)`: the first state in declaration order with the
      given weight, or UNAVAILABLE if there is none. Since the weights are
      distinct, a state's own weight gives back that state. */
  method GetState(weight: int) returns (r: State)
    ensures forall s :: Weight(s) == weight ==> r == s
    ensures (forall s :: Weight(s) != weight) ==> r == Unavailable
  {
    var i := 0;
    while i < |AllStates|
      invariant 0 <= i <= |AllStates|
      invariant forall k :: 0 <= k < i ==> Weight(AllStates[k]) != weight
    {
      if Weight(AllStates[i]) == weight {
        forall s | Weight(s) == weight ensures s == AllStates[i] {
          AllStatesListed(s);
        }
        return AllStates[i];
      }
      i := i + 1;
    }
    forall s ensures Weight(s) != weight {
      AllStatesListed(s);
    }
    return Unavailable;
  }

  /** The implied state of a processing stage: the state of greatest weight
      among the states of its processors (none for an empty stage). */
  function StageState(states: seq<State>): (r: Option<State>)
    ensures r.None? <==> states == []
    ensures r.Some? ==> r.value in states && forall s :: s in states ==> Weight(s) <= Weight(r.value)
  {
    if states == [] then None
    else
      var rest := StageState(states[1..]);
      if rest.None? || Weight(rest.value) < Weight(states[0]) then Some(states[0]) else rest
  }

  /** A stage with one processor in ERROR is in ERROR. */
  lemma StageWithErrorIsError(states: seq<State>)
    requires Error in states
    ensures StageState(states) == Some(Error)
  {
  }

  /** A snapshot of one port as the state queries see it. For an input port,
      `upstream` is the state of the output port it is connected to (only
      meaningful while `connected`). */
  datatype PortView = PortView(key: string, dataType: string, required: bool,
                               connected: bool, state: Ports.PortState, upstream: Ports.PortState)

  /** A snapshot of a processor: its input and output ports and the three
      hooks a processor may override (`isError`, `isWaitingOnInputParams`,
      `isReadyOutputParams`, which by default answer false, false, true). */
  datatype ProcessorView = ProcessorView(inputs: seq<PortView>, outputs: seq<PortView>,
                                         error: bool, waitingOnInputParams: bool,
                                         readyOutputParams: bool)

  /** The defaults of the three hooks. */
  function DefaultView(inputs: seq<PortView>, outputs: seq<PortView>): (p: ProcessorView)
    ensures !p.error && !p.waitingOnInputParams && p.readyOutputParams
  {
    ProcessorView(inputs, outputs, false, false, true)
  }

  /** Every required input is connected; optional inputs do not matter. */
  predicate AllRequiredConnected(p: ProcessorView) {
    forall i :: 0 <= i < |p.inputs| && p.inputs[i].required ==> p.inputs[i].connected
  }

  predicate SomeOutputConnected(p: ProcessorView) {
    exists i :: 0 <= i < |p.outputs| && p.outputs[i].connected
  }

  /** The processor is done: its output parameters are ready and every
      connected output is READY, or, when no output is connected, every
      output is READY. */
  predicate OutputsServed(p: ProcessorView) {
    && p.readyOutputParams
    && (if SomeOutputConnected(p)
        then forall i :: 0 <= i < |p.outputs| && p.outputs[i].connected ==> p.outputs[i].state == Ports.Ready
        else forall i :: 0 <= i < |p.outputs| ==> p.outputs[i].state == Ports.Ready)
  }

  /** Some input cannot be consumed yet: input parameters are unsatisfied, or
      a connected input's upstream output is not READY. */
  predicate InputsPending(p: ProcessorView) {
    || p.waitingOnInputParams
    || exists i :: 0 <= i < |p.inputs| && p.inputs[i].connected && p.inputs[i].upstream != Ports.Ready
  }

  /** `isWaiting()`: a processor that is done is never waiting. */
  predicate Waits(p: ProcessorView) {
    !OutputsServed(p) && InputsPending(p)
  }

  /** `state()`: ERROR, then UNCONNECTED, then WAITING, then READY are tried in
      this order, and the first that applies wins; otherwise PROCESSING. */
  function StateOf(p: ProcessorView): State {
    if p.error then Error
    else if !AllRequiredConnected(p) then Unconnected
    else if Waits(p) then Waiting
    else if OutputsServed(p) then Ready
    else Processing
  }

  /** The derived state is never UNAVAILABLE, and each state has exactly the
      meaning its documentation gives it. */
  lemma StateOfCharacterized(p: ProcessorView)
    ensures StateOf(p) != Unavailable
    ensures StateOf(p) == Error <==> p.error
    ensures StateOf(p) == Unconnected <==> !p.error && !AllRequiredConnected(p)
    ensures StateOf(p) == Waiting <==>
      !p.error && AllRequiredConnected(p) && !OutputsServed(p) && InputsPending(p)
    ensures StateOf(p) == Ready <==> !p.error && AllRequiredConnected(p) && OutputsServed(p)
    ensures StateOf(p) == Processing <==>
      !p.error && AllRequiredConnected(p) && !OutputsServed(p) && !InputsPending(p)
  {
  }

  /** With the default hooks a processor is never in ERROR, and one without
      outputs is READY as soon as its required inputs are connected. */
  lemma DefaultProcessorStates(inputs: seq<PortView>, outputs: seq<PortView>)
    ensures StateOf(DefaultView(inputs, outputs)) != Error
    ensures OutputsServed(DefaultView(inputs, []))
    ensures StateOf(DefaultView(inputs, [])) == if AllRequiredConnected(DefaultView(inputs, [])) then Ready else Unconnected
  {
  }

  /** A processor without outputs is done as soon as its output parameters
      are ready. */
  lemma NoOutputsServed(p: ProcessorView)
    requires p.outputs == []
    ensures OutputsServed(p) <==> p.readyOutputParams
  {
  }

  /** Number of connected ports in a list. */
  function CountConnected(ports: seq<PortView>): nat {
    if ports == [] then 0
    else CountConnected(ports[..|ports| - 1]) + (if ports[|ports| - 1].connected then 1 else 0)
  }

  /** Number of READY ports in a list. */
  function CountReady(ports: seq<PortView>): nat {
    if ports == [] then 0
    else CountReady(ports[..|ports| - 1]) + (if ports[|ports| - 1].state == Ports.Ready then 1 else 0)
  }

  /** The connected ports are counted: none exactly when no port is
      connected, and never more than there are ports. */
  lemma {:induction false} CountConnectedBounds(ports: seq<PortView>)
    ensures CountConnected(ports) <= |ports|
    ensures CountConnected(ports) == 0 <==> forall i :: 0 <= i < |ports| ==> !ports[i].connected
  {
    if ports != [] {
      var init := ports[..|ports| - 1];
      CountConnectedBounds(init);
      assert forall i :: 0 <= i < |init| ==> init[i] == ports[i];
    }
  }

  /** The READY ports are counted: all of them exactly when every port is
      READY. */
  lemma {:induction false} CountReadyBounds(ports: seq<PortView>)
    ensures CountReady(ports) <= |ports|
    ensures CountReady(ports) == |ports| <==> forall i :: 0 <= i < |ports| ==> ports[i].state == Ports.Ready
  {
    if ports != [] {
      var init := ports[..|ports| - 1];
      CountReadyBounds(init);
      assert forall i :: 0 <= i < |init| ==> init[i] == ports[i];
    }
  }

  /** `isConnected()`: stops at the first required input that is not connected. */
  method IsConnected(p: ProcessorView) returns (r: bool)
    ensures r == AllRequiredConnected(p)
  {
    var i := 0;
    while i < |p.inputs|
      invariant 0 <= i <= |p.inputs|
      invariant forall k :: 0 <= k < i && p.inputs[k].required ==> p.inputs[k].connected
    {
      if p.inputs[i].required && !p.inputs[i].connected {
        return false;
      }
      i := i + 1;
    }
    return true;
  }

  /** One more port adds at most one to either counter. */
  lemma CountsStep(ports: seq<PortView>, i: nat)
    requires i < |ports|
    ensures CountConnected(ports[..i + 1]) == CountConnected(ports[..i]) + (if ports[i].connected then 1 else 0)
    ensures CountReady(ports[..i + 1]) == CountReady(ports[..i]) + (if ports[i].state == Ports.Ready then 1 else 0)
  {
    assert ports[..i + 1][..i] == ports[..i];
  }

  /** A connected output that is not READY keeps the processor from being
      done. */
  lemma PendingOutput(p: ProcessorView, i: nat)
    requires i < |p.outputs| && p.outputs[i].connected && p.outputs[i].state != Ports.Ready
    ensures !OutputsServed(p)
  {
    assert SomeOutputConnected(p);
  }

  /** Once every connected output is READY, the two counters decide whether
      the processor is done: some output is connected, or all are READY. */
  lemma ServedByCounts(p: ProcessorView)
    requires p.readyOutputParams
    requires forall k :: 0 <= k < |p.outputs| && p.outputs[k].connected ==> p.outputs[k].state == Ports.Ready
    ensures CountReady(p.outputs) <= |p.outputs|
    ensures OutputsServed(p) <==> CountConnected(p.outputs) != 0 || CountReady(p.outputs) == |p.outputs|
  {
    CountConnectedBounds(p.outputs);
    CountReadyBounds(p.outputs);
  }

  /** `isReady()`: counts connected and READY outputs, stopping at the first
      connected output that is not READY. */
  method IsReady(p: ProcessorView) returns (r: bool)
    ensures r == OutputsServed(p)
  {
    if !p.readyOutputParams {
      return false;
    }
    var numConnected := 0;
    var numReady := 0;
    var i := 0;
    while i < |p.outputs|
      invariant 0 <= i <= |p.outputs|
      invariant forall k :: 0 <= k < i && p.outputs[k].connected ==> p.outputs[k].state == Ports.Ready
      invariant numConnected == CountConnected(p.outputs[..i])
      invariant numReady == CountReady(p.outputs[..i])
    {
      var output := p.outputs[i];
      CountsStep(p.outputs, i);
      if output.connected {
        if output.state != Ports.Ready {
          PendingOutput(p, i);
          return false;
        }
        numReady := numReady + 1;
        numConnected := numConnected + 1;
      } else if output.state == Ports.Ready {
        numReady := numReady + 1;
      }
      i := i + 1;
    }
    assert p.outputs[..i] == p.outputs;
    ServedByCounts(p);
    if numConnected == 0 && numReady < |p.outputs| {
      return false;
    }
    return true;
  }

  /** `isWaiting()`: false as soon as the processor is ready; otherwise true
      if input parameters are pending or some connected input's upstream
      output is not READY. */
  method IsWaiting(p: ProcessorView) returns (r: bool)
    ensures r == Waits(p)
  {
    var ready := IsReady(p);
    if ready {
      return false;
    }
    if p.waitingOnInputParams {
      return true;
    }
    var i := 0;
    while i < |p.inputs|
      invariant 0 <= i <= |p.inputs|
      invariant forall k :: 0 <= k < i && p.inputs[k].connected ==> p.inputs[k].upstream == Ports.Ready
    {
      if p.inputs[i].connected && p.inputs[i].upstream != Ports.Ready {
        return true;
      }
      i := i + 1;
    }
    return false;
  }

  /** `state()`, evaluated through the three queries in their fixed order. */
  method ComputeState(p: ProcessorView) returns (s: State)
    ensures s == StateOf(p)
    ensures s != Unavailable
  {
    if p.error {
      return Error;
    }
    var connected := IsConnected(p);
    if !connected {
      return Unconnected;
    }
    var waiting := IsWaiting(p);
    if waiting {
      return Waiting;
    }
    var ready := IsReady(p);
    if ready {
      return Ready;
    }
    return Processing;
  }

  /** The keys of the ports of the given data type, in order. */
  function KeysOfType(ports: seq<PortView>, dataType: string): (keys: seq<string>)
    ensures |keys| <= |ports|
    ensures forall k :: k in keys <==> exists i :: 0 <= i < |ports| && ports[i].key == k && ports[i].dataType == dataType
  {
    if ports == [] then []
    else
      var init := KeysOfType(ports[..|ports| - 1], dataType);
      var last := ports[|ports| - 1];
      assert forall i :: 0 <= i < |ports| - 1 ==> ports[..|ports| - 1][i] == ports[i];
      if last.dataType == dataType then init + [last.key] else init
  }

  /** `inputs(String)` and `outputs(String)`: collects the keys of the ports
      whose data type is the given one. */
  method PortsOfType(ports: seq<PortView>, dataType: string) returns (keys: seq<string>)
    ensures keys == KeysOfType(ports, dataType)
  {
    keys := [];
    var i := 0;
    while i < |ports|
      invariant 0 <= i <= |ports|
      invariant keys == KeysOfType(ports[..i], dataType)
    {
      assert ports[..i + 1][..i] == ports[..i];
      if ports[i].dataType == dataType {
        keys := keys + [ports[i].key];
      }
      i := i + 1;
    }
    assert ports[..i] == ports;
  }

  /** A set of ports closed under connections, every one of them valid, in
      which connections are symmetric: the ports of a pipeline. */
  ghost predicate Closed(world: set<Ports.Port>)
    reads world
  {
    && (forall q :: q in world ==> q.Valid() && q.connections <= world)
    && (forall q, r :: q in world && r in q.connections ==> q in r.connections)
  }

  /** One step of `disconnect()`: disconnects one port of a closed world. */
  method DisconnectInWorld(port: Ports.Port, ghost world: set<Ports.Port>)
    requires Closed(world) && port in world
    modifies world
    ensures Closed(world)
    ensures port.connections == {}
    ensures forall q :: q in world ==>
      && q.connections <= old(q.connections)
      && q.payload == old(q.payload)
      && (q.connections == {} ==> q.state == if old(q.connections) == {} then old(q.state) else Ports.Unconnected)
  {
    if port.IsConnected() {
      ghost var peers := port.connections;
      port.Disconnect();
      forall q | q in world
        ensures q.Valid() && q.connections <= world
        ensures q.connections <= old(q.connections) && q.payload == old(q.payload)
        ensures q.connections == {} ==> q.state == if old(q.connections) == {} then old(q.state) else Ports.Unconnected
      {
        if q != port && q !in peers {
          assert q.connections == old(q.connections) && q.state == old(q.state);
        }
      }
      forall q, r | q in world && r in q.connections
        ensures q in r.connections
      {
        assert q != port && r != port;
      }
    }
  }

  /** Disconnects each connected port of the list. Connections only ever
      shrink, payloads never change, and a port that loses its last
      connection is UNCONNECTED. */
  method DisconnectAll(ports: seq<Ports.Port>, ghost world: set<Ports.Port>)
    requires Closed(world)
    requires forall i :: 0 <= i < |ports| ==> ports[i] in world
    modifies world
    ensures Closed(world)
    ensures forall i :: 0 <= i < |ports| ==> ports[i].connections == {}
    ensures forall q :: q in world ==>
      && q.connections <= old(q.connections)
      && q.payload == old(q.payload)
      && (q.connections == {} ==> q.state == if old(q.connections) == {} then old(q.state) else Ports.Unconnected)
  {
    var i := 0;
    while i < |ports|
      invariant 0 <= i <= |ports|
      invariant Closed(world)
      invariant forall k :: 0 <= k < i ==> ports[k].connections == {}
      invariant forall q :: q in world ==>
        && q.connections <= old(q.connections)
        && q.payload == old(q.payload)
        && (q.connections == {} ==> q.state == if old(q.connections) == {} then old(q.state) else Ports.Unconnected)
    {
      label Step:
      DisconnectNext(ports, i, world);
      forall q | q in world
        ensures q.connections <= old(q.connections) && q.payload == old(q.payload)
        ensures q.connections == {} ==> q.state == if old(q.connections) == {} then old(q.state) else Ports.Unconnected
      {
        assert q.connections <= old@Step(q.connections) <= old(q.connections);
      }
      i := i + 1;
    }
  }

  /** One turn of the loop of `DisconnectAll`: the ports before `i` stay
      disconnected and port `i` is disconnected. */
  method DisconnectNext(ports: seq<Ports.Port>, i: nat, ghost world: set<Ports.Port>)
    requires Closed(world) && i < |ports|
    requires forall k :: 0 <= k < |ports| ==> ports[k] in world
    requires forall k :: 0 <= k < i ==> ports[k].connections == {}
    modifies world
    ensures Closed(world)
    ensures forall k :: 0 <= k < i + 1 ==> ports[k].connections == {}
    ensures forall q :: q in world ==>
      && q.connections <= old(q.connections)
      && q.payload == old(q.payload)
      && (q.connections == {} ==> q.state == if old(q.connections) == {} then old(q.state) else Ports.Unconnected)
  {
    DisconnectInWorld(ports[i], world);
    forall k | 0 <= k < i ensures ports[k].connections == {} {
      assert ports[k] in world;
      assert old(ports[k].connections) == {};
      assert ports[k].connections <= old(ports[k].connections);
    }
    assert ports[i].connections == {};
  }

  /** `disconnect()`: disconnects every connected input, then every connected
      output. Afterwards no port of the processor has a connection, each port
      that had one is UNCONNECTED, and no payload changes. */
  method Disconnect(inputs: seq<Ports.Port>, outputs: seq<Ports.Port>, ghost world: set<Ports.Port>)
    requires Closed(world)
    requires forall i :: 0 <= i < |inputs| ==> inputs[i] in world
    requires forall i :: 0 <= i < |outputs| ==> outputs[i] in world
    modifies world
    ensures Closed(world)
    ensures forall i :: 0 <= i < |inputs| ==> inputs[i].connections == {}
    ensures forall i :: 0 <= i < |outputs| ==> outputs[i].connections == {}
    ensures forall q :: q in world ==>
      && q.connections <= old(q.connections)
      && q.payload == old(q.payload)
      && (q.connections == {} ==> q.state == if old(q.connections) == {} then old(q.state) else Ports.Unconnected)
  {
    DisconnectAll(inputs, world);
    DisconnectAll(outputs, world);
  }

  /** A processor whose ports are all disconnected is connected exactly when
      it has no required input. */
  lemma DisconnectedProcessor(p: ProcessorView)
    requires forall i :: 0 <= i < |p.inputs| ==> !p.inputs[i].connected
    ensures AllRequiredConnected(p) <==> forall i :: 0 <= i < |p.inputs| ==> !p.inputs[i].required
    ensures !p.error && (exists i :: 0 <= i < |p.inputs| && p.inputs[i].required) ==> StateOf(p) == Unconnected
  {
  }

  /** The durable key/value store of a runnable processor
      (`ProcessorContext`), reduced to the stored matrices. */
  class ProcessorContext {
    var entries: map<string, Ports.Payload>

    constructor (entries: map<string, Ports.Payload>)
      ensures this.entries == entries
    {
      this.entries := entries;
    }

    /** Reads an entry; a missing entry reads as `null`. */
    function Read(key: string): (r: Option<Ports.Payload>)
      reads this
      ensures r.Some? <==> key in entries
      ensures r.Some? ==> r.value == entries[key]
    {
      if key in entries then Some(entries[key]) else None
    }

    method Write(key: string, value: Ports.Payload)
      modifies this
      ensures entries == old(entries)[key := value]
    {
      entries := entries[key := value];
    }

    method Delete(key: string)
      modifies this
      ensures entries == old(entries) - {key}
    {
      entries := entries - {key};
    }
  }
}
