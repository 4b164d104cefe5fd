/** The live-tracking connection registry: an ordered list of open dashboard sockets,
    appended to on connect, removed from with `list.remove` semantics on disconnect, and
    sent every location message in list order by broadcast. */
module Connections {
  import opened Models

  /** An open websocket, compared as `list.remove` compares them. */
  type Handle = int

  /** The location message, as the JSON object `update_location` serialises. */
  datatype Payload = Payload(van_id: Id, lat: Coord, lng: Coord, status: string)

  /** One send attempt of a broadcast and whether the socket accepted it. */
  datatype Attempt = Attempt(target: Handle, message: Payload, delivered: bool)

  /** The position of the first occurrence of `h`. */
  function IndexOf(s: seq<Handle>, h: Handle): (i: nat)
    requires h in s
    ensures i < |s| && s[i] == h && h !in s[..i]
  {
    if s[0] == h then 0
    else
      var i := 1 + IndexOf(s[1..], h);
      assert s[..i] == [s[0]] + s[1..][..i - 1];
      i
  }

  /** Python's `list.remove`: drops the first occurrence of `h`. */
  function RemoveFirst(s: seq<Handle>, h: Handle): (r: seq<Handle>)
    requires h in s
    ensures |r| == |s| - 1
  {
    if s[0] == h then s[1..] else [s[0]] + RemoveFirst(s[1..], h)
  }

  /** The send attempts a broadcast of `msg` makes, one per entry of `cs`, in list order,
      with the outcome the socket gives. */
  function Attempts(cs: seq<Handle>, msg: Payload, sendOk: Handle -> bool): (r: seq<Attempt>)
    ensures |r| == |cs|
    ensures forall i :: 0 <= i < |cs| ==> r[i] == Attempt(cs[i], msg, sendOk(cs[i]))
  {
    if cs == [] then [] else [Attempt(cs[0], msg, sendOk(cs[0]))] + Attempts(cs[1..], msg, sendOk)
  }

  /** RemoveFirst cuts out exactly the entry at the first occurrence and keeps the
      others in their order. */
  lemma {:induction false} RemoveFirstSplice(s: seq<Handle>, h: Handle)
    requires h in s
    ensures RemoveFirst(s, h) == s[..IndexOf(s, h)] + s[IndexOf(s, h) + 1..]
  {
    if s[0] != h {
      RemoveFirstSplice(s[1..], h);
      var i := IndexOf(s[1..], h);
      assert s[..i + 1] == [s[0]] + s[1..][..i];
      assert s[i + 2..] == s[1..][i + 1..];
    }
  }

  /** RemoveFirst takes away one copy of `h` and nothing else. */
  lemma {:induction false} RemoveFirstMultiset(s: seq<Handle>, h: Handle)
    requires h in s
    ensures multiset(RemoveFirst(s, h)) == multiset(s) - multiset{h}
  {
    if s[0] == h {
      assert s == [h] + s[1..];
    } else {
      RemoveFirstMultiset(s[1..], h);
      assert s == [s[0]] + s[1..];
    }
  }

  /** Connecting a new socket and then disconnecting it restores the registry. */
  lemma {:induction false} ConnectThenDisconnect(s: seq<Handle>, h: Handle)
    requires h !in s
    ensures RemoveFirst(s + [h], h) == s
  {
    if s != [] {
      assert (s + [h])[1..] == s[1..] + [h];
      ConnectThenDisconnect(s[1..], h);
    }
  }

  /** Disconnect is not idempotent: once a socket registered once is removed, it is absent,
      so a second disconnect of it raises. */
  lemma SecondDisconnectFails(s: seq<Handle>, h: Handle)
    requires multiset(s)[h] == 1
    ensures h !in RemoveFirst(s, h)
  {
    RemoveFirstMultiset(s, h);
  }

  /** Fan-out: after a socket registered once disconnects, a broadcast makes one attempt fewer
      and none to that socket. */
  lemma FanOutAfterDisconnect(s: seq<Handle>, h: Handle, msg: Payload, sendOk: Handle -> bool)
    requires multiset(s)[h] == 1
    ensures |Attempts(RemoveFirst(s, h), msg, sendOk)| == |Attempts(s, msg, sendOk)| - 1
    ensures forall a :: a in Attempts(RemoveFirst(s, h), msg, sendOk) ==> a.target != h
  {
    SecondDisconnectFails(s, h);
  }

  class ConnectionManager {
    var active_connections: seq<Handle>
    /** Every send attempt any broadcast has made, oldest first. */
    ghost var sent: seq<Attempt>

    constructor ()
      ensures active_connections == [] && sent == []
    {
      active_connections := [];
      sent := [];
    }

    /** Registers an accepted socket at the end of the list. */
    method Connect(websocket: Handle)
      modifies this`active_connections
      ensures active_connections == old(active_connections) + [websocket]
    {
      active_connections := active_connections + [websocket];
    }

    /** `list.remove`: `removed` is false exactly when the socket is absent, where Python
        raises ValueError and nothing changes. */
    method Disconnect(websocket: Handle) returns (removed: bool)
      modifies this`active_connections
      ensures removed == (websocket in old(active_connections))
      ensures removed ==> active_connections == RemoveFirst(old(active_connections), websocket)
      ensures !removed ==> active_connections == old(active_connections)
    {
      var i := 0;
      while i < |active_connections| && active_connections[i] != websocket
        invariant 0 <= i <= |active_connections|
        invariant websocket !in active_connections[..i]
      {
        i := i + 1;
      }
      if i == |active_connections| {
        assert active_connections[..i] == active_connections;
        removed := false;
      } else {
        RemoveFirstSplice(active_connections, websocket);
        var k := IndexOf(active_connections, websocket);
        assert k == i;
        active_connections := active_connections[..i] + active_connections[i + 1..];
        removed := true;
      }
    }

    /** Tries every registered socket once, in order; a failed send is swallowed and the
        list is left as it is. */
    method Broadcast(message: Payload, sendOk: Handle -> bool)
      modifies this`sent
      ensures sent == old(sent) + Attempts(active_connections, message, sendOk)
      ensures active_connections == old(active_connections)
    {
      for i := 0 to |active_connections|
        invariant sent == old(sent) + Attempts(active_connections[..i], message, sendOk)
      {
        var connection := active_connections[i];
        assert active_connections[..i + 1] == active_connections[..i] + [connection];
        AttemptsAppend(active_connections[..i], [connection], message, sendOk);
        sent := sent + [Attempt(connection, message, sendOk(connection))];
      }
      assert active_connections[..|active_connections|] == active_connections;
    }
  }

  lemma AttemptsAppend(a: seq<Handle>, b: seq<Handle>, msg: Payload, sendOk: Handle -> bool)
    ensures Attempts(a + b, msg, sendOk) == Attempts(a, msg, sendOk) + Attempts(b, msg, sendOk)
  {
    var l, r := Attempts(a + b, msg, sendOk), Attempts(a, msg, sendOk) + Attempts(b, msg, sendOk);
    assert |l| == |r|;
    forall i | 0 <= i < |l| ensures l[i] == r[i] {
      if i < |a| { assert (a + b)[i] == a[i]; } else { assert (a + b)[i] == b[i - |a|]; }
    }
  }
}
