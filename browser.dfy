/** The part of the browser's `EventSource` the core relies on: its URL,
    its state, its listeners, and `close()`. The transport itself (opening,
    receiving, automatic reconnection) is not modelled. */
module Browser {

  datatype ReadyState = Connecting | Open | Closed

  /** A listener registered with `addEventListener`: the event name and the
      subscription whose closure it is. */
  datatype Listener = Listener(event: string, owner: nat)

  /** `ls` with every registration of `l` taken out. */
  function Without(ls: seq<Listener>, l: Listener): seq<Listener>
  {
    if |ls| == 0 then []
    else if ls[0] == l then Without(ls[1..], l)
    else [ls[0]] + Without(ls[1..], l)
  }

  /** Removal takes out exactly the listener named. */
  lemma {:induction false} WithoutMembers(ls: seq<Listener>, l: Listener, x: Listener)
    ensures x in Without(ls, l) <==> x in ls && x != l
  {
    if |ls| > 0 {
      WithoutMembers(ls[1..], l, x);
      assert x in ls <==> x == ls[0] || x in ls[1..];
    }
  }

  class EventSource {
    const url: string
    const withCredentials: bool
    var readyState: ReadyState
    var listeners: seq<Listener>

    constructor (url: string, withCredentials: bool)
      ensures this.url == url && this.withCredentials == withCredentials
      ensures readyState == Connecting && listeners == []
    {
      this.url := url;
      this.withCredentials := withCredentials;
      readyState := Connecting;
      listeners := [];
    }

    method Close()
      modifies this
      ensures readyState == Closed && listeners == old(listeners)
    {
      readyState := Closed;
    }

    /** A listener already registered is not added a second time. */
    method AddEventListener(l: Listener)
      modifies this
      ensures listeners == if l in old(listeners) then old(listeners) else old(listeners) + [l]
      ensures readyState == old(readyState)
    {
      if l !in listeners {
        listeners := listeners + [l];
      }
    }

    method RemoveEventListener(l: Listener)
      modifies this
      ensures listeners == Without(old(listeners), l)
      ensures readyState == old(readyState)
    {
      listeners := Without(listeners, l);
    }
  }
}
