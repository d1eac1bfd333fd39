/**
 * One request's worker thread (`Communicate.run`): connect, send the whole
 * request, read one reply, and report the result by emitting a signal.
 * The socket is an input: whether each step succeeds, and the reply read.
 */
module Transport {
  import opened Results
  import opened Protocol

  /** The two signals a worker thread can emit. */
  datatype Signal = Received(data: Payload) | ConnectionInterrupt

  /**
   * How the socket layer behaves for one connection: whether `socket.socket`
   * creates a socket, whether `connect` and `sendall` succeed, and what
   * `recv` returns (None when it raises).
   */
  datatype Peer = Peer(created: bool, accepts: bool, takesRequest: bool, reply: Option<Payload>)

  /**
   * `Communicate.run`: every socket error in the `try` block is turned into
   * `connection_interrupt`; the `with` block closes the socket on every path.
   * Once the socket exists exactly one signal is emitted per request.  The
   * socket is created outside the `try`: when that fails, the exception
   * ends the thread and no signal is emitted (`raised`).
   */
  method Run(peer: Peer) returns (emitted: seq<Signal>, closed: bool, raised: bool)
    ensures raised <==> !peer.created
    ensures raised ==> emitted == [] && !closed
    ensures !raised ==> |emitted| == 1 && closed
    ensures !raised ==> (emitted[0].Received? <==> peer.accepts && peer.takesRequest && peer.reply.Some?)
    ensures !raised && emitted[0].Received? ==> emitted[0].data == peer.reply.value
  {
    emitted := [];
    closed := false;
    raised := !peer.created;
    if raised {
      return;
    }
    var failed := !peer.accepts;
    if !failed {
      failed := !peer.takesRequest;
    }
    if !failed {
      match peer.reply
      case Some(data) => emitted := emitted + [Received(data)];
      case None => failed := true;
    }
    if failed {
      emitted := emitted + [ConnectionInterrupt];
    }
    closed := true;
  }
}
