/**
 * The broker's external collaborators, reduced to what the broker observes of them:
 * a pseudo-terminal process handle and a server-side socket.io connection.
 */
module Transport {

  /** An operation the relay invokes on a pty handle. */
  datatype PtyOp = Write(input: string) | Resize(cols: int, rows: int) | Pause | Resume

  /**
   * A node-pty process handle: the argument vector it was spawned with, the listeners
   * registered on its `data` event, and the operations invoked on it, in order.
   */
  class Pty {
    const command: seq<string>
    var dataListeners: set<object>
    var ops: seq<PtyOp>

    constructor (command: seq<string>)
      ensures this.command == command && dataListeners == {} && ops == []
    {
      this.command := command;
      dataListeners := {};
      ops := [];
    }

    method AddDataListener(listener: object)
      modifies this`dataListeners
      ensures dataListeners == old(dataListeners) + {listener}
    {
      dataListeners := dataListeners + {listener};
    }

    method RemoveDataListener(listener: object)
      modifies this`dataListeners
      ensures dataListeners == old(dataListeners) - {listener}
    {
      dataListeners := dataListeners - {listener};
    }

    method Perform(op: PtyOp)
      modifies this`ops
      ensures ops == old(ops) + [op]
    {
      ops := ops + [op];
    }
  }

  /** The socket events the relay subscribes to. */
  datatype SocketEvent = ResizeEvent | InputEvent | DisconnectEvent | CommitEvent

  /** A subscription: the event name and the attachment whose closure handles it. */
  datatype Listener = Listener(event: SocketEvent, owner: object)

  /** The control messages the broker sends to a client. */
  datatype Emission = Login | SessionIdMsg(id: string) | ClearSessionId

  /** A server-side socket.io connection: what was emitted on it, and who listens to it. */
  class Socket {
    var emitted: seq<Emission>
    var listeners: set<Listener>

    constructor ()
      ensures emitted == [] && listeners == {}
    {
      emitted := [];
      listeners := {};
    }

    method Emit(e: Emission)
      modifies this`emitted
      ensures emitted == old(emitted) + [e]
    {
      emitted := emitted + [e];
    }

    method On(l: Listener)
      modifies this`listeners
      ensures listeners == old(listeners) + {l}
    {
      listeners := listeners + {l};
    }

    method Off(l: Listener)
      modifies this`listeners
      ensures listeners == old(listeners) - {l}
    {
      listeners := listeners - {l};
    }
  }
}
