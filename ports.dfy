/** The port contract (api/components/Port.java): a typed connection point of
    a processor. A port is an input or an output, carries a data type tag, is
    in exactly one of three states, and knows the ports it is connected to.
    Output ports hold the payload they computed. */
module Ports {

  import opened Wrappers
  import opened Matrices

  datatype Direction = Input | Output

  /** The three port states; a datatype value is always exactly one of them. */
  datatype PortState = Unconnected | Waiting | Ready

  datatype PortError = TypeMismatch | CapacityExceeded

  /** What an output port serves; every payload in this model is a matrix. */
  type Payload = Matrix

  /** The state a port takes when it gains a connection to a peer in state
      `peer`: an input connected to a READY output is READY itself, anything
      else that was UNCONNECTED starts WAITING. */
  function StateAfterConnect(d: Direction, own: PortState, peer: PortState): (s: PortState)
    ensures s != Unconnected
    ensures d == Input ==> (s == Ready <==> peer == Ready)
    ensures d == Output && own != Unconnected ==> s == own
  {
    if d == Input then (if peer == Ready then Ready else Waiting)
    else if own == Unconnected then Waiting
    else own
  }

  class Port {
    const direction: Direction
    const dataType: string
    const required: bool
    var state: PortState
    var connections: set<Port>
    var payload: Option<Payload>

    /** Only ports of the same data type and of opposite direction are ever
        connected, and an input port has at most one connection. */
    ghost predicate Valid()
      reads this
    {
      && (forall q :: q in connections ==> q.dataType == dataType && q.direction != direction)
      && (direction == Input ==> |connections| <= 1)
    }

    constructor (direction: Direction, dataType: string, required: bool)
      ensures Valid()
      ensures this.direction == direction && this.dataType == dataType && this.required == required
      ensures state == Unconnected && connections == {} && payload == None
    {
      this.direction := direction;
      this.dataType := dataType;
      this.required := required;
      state := Unconnected;
      connections := {};
      payload := None;
    }

    predicate IsConnected()
      reads this
    {
      connections != {}
    }

    /** The current value of the port-state property. */
    function GetPortState(): PortState
      reads this
    {
      state
    }

    /** Connects `other` to this port, in both directions. Fails, leaving both
        ports as they were, when the data types differ, or when an input port
        that already has its one connection is involved. */
    method ConnectTo(other: Port) returns (r: Outcome<PortError>)
      requires Valid() && other.Valid()
      requires direction != other.direction
      modifies this, other
      ensures Valid() && other.Valid()
      ensures r == Fail(TypeMismatch) <==> dataType != other.dataType
      ensures r == Pass <==>
        && dataType == other.dataType
        && (direction == Input ==> old(connections) == {})
        && (other.direction == Input ==> old(other.connections) == {})
      ensures r.Fail? ==> unchanged(this, other)
      ensures r.Pass? ==>
        && connections == old(connections) + {other}
        && other.connections == old(other.connections) + {this}
        && state == StateAfterConnect(direction, old(state), old(other.state))
        && other.state == StateAfterConnect(other.direction, old(other.state), old(state))
        && payload == old(payload) && other.payload == old(other.payload)
    {
      if dataType != other.dataType {
        return Fail(TypeMismatch);
      }
      if (direction == Input && connections != {}) || (other.direction == Input && other.connections != {}) {
        return Fail(CapacityExceeded);
      }
      var mine, theirs := state, other.state;
      connections := connections + {other};
      other.connections := other.connections + {this};
      state := StateAfterConnect(direction, mine, theirs);
      other.state := StateAfterConnect(other.direction, theirs, mine);
      r := Pass;
    }

    /** Removes the connection to `other`, on both sides; a port left without
        connections is UNCONNECTED again. Nothing happens if the two ports are
        not connected. */
    method DisconnectFrom(other: Port)
      requires Valid() && other.Valid()
      requires direction != other.direction
      modifies this, other
      ensures Valid() && other.Valid()
      ensures other !in old(connections) ==> unchanged(this, other)
      ensures other in old(connections) ==>
        && connections == old(connections) - {other}
        && other.connections == old(other.connections) - {this}
        && state == (if connections == {} then Unconnected else old(state))
        && other.state == (if other.connections == {} then Unconnected else old(other.state))
        && payload == old(payload) && other.payload == old(other.payload)
    {
      if other in connections {
        connections := connections - {other};
        other.connections := other.connections - {this};
        if connections == {} {
          state := Unconnected;
        }
        if other.connections == {} {
          other.state := Unconnected;
        }
      }
    }

    /** Disconnects every connection of this port: afterwards it has none and
        is UNCONNECTED; each former peer loses its connection to this port. */
    method Disconnect()
      requires Valid()
      requires forall q :: q in connections ==> q.Valid()
      modifies this, connections
      ensures Valid()
      ensures connections == {} && state == Unconnected && payload == old(payload)
      ensures forall q :: q in old(connections) ==>
        && q.Valid()
        && q.connections == old(q.connections) - {this}
        && q.state == (if q.connections == {} then Unconnected else old(q.state))
        && q.payload == old(q.payload)
    {
      var peers := connections;
      forall q | q in peers {
        q.connections := q.connections - {this};
      }
      forall q | q in peers && q.connections == {} {
        q.state := Unconnected;
      }
      connections := {};
      state := Unconnected;
    }

    /** Stores a computed payload on an output port: the port is READY, and so
        is every input port connected to it. */
    method SetOutput(v: Payload)
      requires Valid() && direction == Output
      modifies this, connections
      ensures Valid()
      ensures payload == Some(v) && state == Ready && connections == old(connections)
      ensures forall q :: q in connections ==>
        q.state == Ready && q.connections == old(q.connections) && q.payload == old(q.payload)
    {
      payload := Some(v);
      state := Ready;
      forall q | q in connections {
        q.state := Ready;
      }
    }

    /** Clears the payload of an output port: it is WAITING again if it is
        connected (and so are the inputs connected to it), UNCONNECTED if not. */
    method ResetOutput()
      requires Valid() && direction == Output
      modifies this, connections
      ensures Valid()
      ensures payload == None && connections == old(connections)
      ensures state == (if connections == {} then Unconnected else Waiting)
      ensures forall q :: q in connections ==>
        q.state == Waiting && q.connections == old(q.connections) && q.payload == old(q.payload)
    {
      payload := None;
      state := if connections == {} then Unconnected else Waiting;
      forall q | q in connections {
        q.state := Waiting;
      }
    }
  }
}
