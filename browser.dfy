/**
  The browser side of a push connection, as far as the panels can observe it.

  Each `useEffect` run of a panel is numbered (its generation). A socket is created
  by one run and carries that run's handlers, so `owner[s]` is the generation
  whose `mounted` flag the handlers of socket `s` consult. `closeRequested` holds
  the sockets the component has called `close()` on. Sockets are numbered in
  creation order.
 */
module Browser {

  import opened Json

  datatype Sockets = Sockets(owner: seq<nat>, closeRequested: set<nat>) {

    /** `new WebSocket(url)` from effect run `gen`: the next socket number. */
    function Create(gen: nat): (Sockets, nat) {
      (Sockets(owner + [gen], closeRequested), |owner|)
    }

    /** `wsRef.current && wsRef.current.close()`: closes the socket held, if any. */
    function Close(held: Option<nat>): Sockets {
      if held.Some? then Sockets(owner, closeRequested + {held.value}) else this
    }
  }

  const NoSockets: Sockets := Sockets([], {})
}
