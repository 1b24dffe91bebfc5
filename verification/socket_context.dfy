/** The socket provider: the order-event handler registry (a JavaScript `Set`,
    iterated in insertion order), the failure-isolating fan-out of each `order`
    message, and the token-driven effect that opens, joins and tears down the
    socket together with the `connected` flag. The socket.io transport itself is
    not modelled: a socket is the record of how it was opened and what was done to it. */
module SocketContext {
  import opened Wrappers

  // --------------------------------------------------------------- registry

  /** A registered handler, identified as JavaScript identifies functions: by reference. */
  type HandlerId = nat

  predicate NoDup(hs: seq<HandlerId>) {
    forall i, j | 0 <= i < j < |hs| :: hs[i] != hs[j]
  }

  /** `handlers.add(h)`: a new handler goes last; one already present keeps its place. */
  function Register(hs: seq<HandlerId>, h: HandlerId): (r: seq<HandlerId>)
    requires NoDup(hs)
    ensures NoDup(r)
    ensures forall x :: x in r <==> x in hs || x == h
    ensures h in hs ==> r == hs
    ensures h !in hs ==> r == hs + [h]
  {
    if h in hs then hs else hs + [h]
  }

  /** `handlers.delete(h)`: drops `h`, keeping the others in order. */
  function Unregister(hs: seq<HandlerId>, h: HandlerId): (r: seq<HandlerId>)
    requires NoDup(hs)
    ensures NoDup(r)
    ensures forall x :: x in r <==> x in hs && x != h
    ensures |r| == if h in hs then |hs| - 1 else |hs|
  {
    if hs == [] then []
    else
      var rest := Unregister(hs[1..], h);
      assert forall x :: x in hs <==> x == hs[0] || x in hs[1..];
      assert hs[0] !in hs[1..] by {
        forall k | 0 <= k < |hs[1..]| ensures hs[1..][k] != hs[0] {
          assert hs[1..][k] == hs[k + 1];
        }
      }
      if hs[0] == h then rest
      else
        var r := [hs[0]] + rest;
        assert forall k | 1 <= k < |r| :: r[k] == rest[k - 1] && r[k] in rest;
        r
  }

  /** Registering the same handler twice is registering it once. */
  lemma RegisterIdempotent(hs: seq<HandlerId>, h: HandlerId)
    requires NoDup(hs)
    ensures Register(Register(hs, h), h) == Register(hs, h)
  {
  }

  /** Unregistering undoes registering a handler that was not there. */
  lemma UnregisterUndoesRegister(hs: seq<HandlerId>, h: HandlerId)
    requires NoDup(hs) && h !in hs
    ensures Unregister(Register(hs, h), h) == hs
  {
    UnregisterAbsent(hs, h);
    UnregisterLast(hs, h);
  }

  /** Unregistering a handler that is not there changes nothing. */
  lemma {:induction false} UnregisterAbsent(hs: seq<HandlerId>, h: HandlerId)
    requires NoDup(hs) && h !in hs
    ensures Unregister(hs, h) == hs
  {
    if hs != [] {
      assert h !in hs[1..];
      assert NoDup(hs[1..]) by {
        forall i, j | 0 <= i < j < |hs[1..]| ensures hs[1..][i] != hs[1..][j] {
          assert hs[1..][i] == hs[i + 1] && hs[1..][j] == hs[j + 1];
        }
      }
      UnregisterAbsent(hs[1..], h);
      assert [hs[0]] + hs[1..] == hs;
    }
  }

  /** Unregistering the last-registered handler drops exactly the last entry. */
  lemma {:induction false} UnregisterLast(hs: seq<HandlerId>, h: HandlerId)
    requires NoDup(hs) && h !in hs
    ensures NoDup(hs + [h]) && Unregister(hs + [h], h) == Unregister(hs, h)
  {
    var full := hs + [h];
    assert NoDup(full) by {
      forall i, j | 0 <= i < j < |full| ensures full[i] != full[j] {
        if j == |hs| { assert full[i] == hs[i] && hs[i] in hs; } else { assert full[i] == hs[i] && full[j] == hs[j]; }
      }
    }
    if hs == [] {
      assert full[1..] == [];
    } else {
      assert full[1..] == hs[1..] + [h];
      assert h !in hs[1..];
      assert NoDup(hs[1..]) by {
        forall i, j | 0 <= i < j < |hs[1..]| ensures hs[1..][i] != hs[1..][j] {
          assert hs[1..][i] == hs[i + 1] && hs[1..][j] == hs[j + 1];
        }
      }
      UnregisterLast(hs[1..], h);
    }
  }

  /** `forward(message)`: calls every registered handler in order; a handler that
      throws is skipped over, so the rest still run. `throwing` names the handlers
      that throw on this message. Returns the handlers called and those that
      completed. */
  method Forward(handlers: seq<HandlerId>, throwing: set<HandlerId>) returns (called: seq<HandlerId>, completed: seq<HandlerId>)
    ensures called == handlers
    ensures forall h :: h in completed <==> h in handlers && h !in throwing
    ensures |completed| <= |called|
  {
    called := [];
    completed := [];
    var i := 0;
    while i < |handlers|
      invariant 0 <= i <= |handlers|
      invariant called == handlers[..i]
      invariant forall h :: h in completed <==> h in handlers[..i] && h !in throwing
      invariant |completed| <= i
    {
      var h := handlers[i];
      called := called + [h];
      if h !in throwing {
        completed := completed + [h];
      }
      assert handlers[..i + 1] == handlers[..i] + [h];
      i := i + 1;
    }
    assert handlers[..i] == handlers;
  }

  // ------------------------------------------------------------- connection

  /** The socket events the provider listens to. */
  datatype Channel = ConnectChannel | DisconnectChannel | OrderChannel

  /** The options a socket is opened with. */
  datatype Options = Options(
    path: string,
    transports: seq<string>,
    authToken: string,
    reconnection: bool,
    reconnectionAttempts: nat,
    reconnectionDelayMs: nat)

  /** An event the provider emitted on a socket: its name and the token sent with it. */
  datatype Emission = Emission(event: string, token: string)

  /** A socket: where and how it was opened, which events it is listened to on,
      what was emitted on it, and whether it has been told to disconnect. */
  datatype Socket = Socket(url: string, options: Options, listening: set<Channel>, emitted: seq<Emission>, closed: bool)

  /** The provider's refs: the live socket, the connected flag and the handlers. */
  datatype Provider = Provider(socket: Option<Socket>, connected: bool, handlers: seq<HandlerId>)

  const BaseUrl := "https://dev.feasto.co.uk"

  /** `s.replace(/^http/, 'ws')`. */
  function ReplaceHttpPrefix(s: string): (r: string)
    ensures |s| >= 4 && s[..4] == "http" ==> r == "ws" + s[4..]
    ensures !(|s| >= 4 && s[..4] == "http") ==> r == s
  {
    if |s| >= 4 && s[..4] == "http" then "ws" + s[4..] else s
  }

  /** The socket URL is the secure WebSocket form of the base URL. */
  lemma SocketUrlIsSecure()
    ensures ReplaceHttpPrefix(BaseUrl) == "wss://dev.feasto.co.uk"
  {
  }

  /** The options for a token: five reconnection attempts one second apart. */
  function OptionsFor(token: string): (o: Options)
    ensures o.authToken == token && o.path == "/api/socket"
    ensures o.reconnection && o.reconnectionAttempts == 5 && o.reconnectionDelayMs == 1000
    ensures o.transports == ["websocket", "polling"]
  {
    Options("/api/socket", ["websocket", "polling"], token, true, 5, 1000)
  }

  /** The socket as the no-token branch leaves it: told to disconnect when there was one. */
  function Dropped(p: Provider): (r: Option<Socket>)
    ensures r.Some? <==> p.socket.Some?
    ensures r.Some? ==> r.value.closed && r.value.(closed := p.socket.value.closed) == p.socket.value
  {
    match p.socket
    case Some(s) => Some(s.(closed := true))
    case None => None
  }

  /** What a run of the token effect leaves: the provider, the socket it told to
      disconnect (if any), and the socket the cleanup it returns will tear down
      (none when it returns no cleanup). */
  datatype EffectRun = EffectRun(provider: Provider, dropped: Option<Socket>, cleanupOf: Option<Socket>)

  /** The effect keyed on `token`. Without a truthy token any socket is disconnected
      and dropped and the flag cleared. With one, a socket is opened with the token,
      listened to on the three channels, and asked to join the restaurant room. */
  function TokenEffect(p: Provider, token: Option<string>): (r: EffectRun)
    ensures r.provider.handlers == p.handlers
    ensures !Truthy(token) ==> r.provider.socket == None && !r.provider.connected && r.cleanupOf == None
    ensures !Truthy(token) ==> r.dropped == Dropped(p)
    ensures Truthy(token) ==> r.dropped == None
    ensures Truthy(token) ==>
      && r.provider.socket.Some?
      && r.cleanupOf == r.provider.socket
      && r.provider.connected == p.connected
      && var s := r.provider.socket.value;
         && s.url == "wss://dev.feasto.co.uk"
         && s.options == OptionsFor(token.value)
         && s.listening == {ConnectChannel, DisconnectChannel, OrderChannel}
         && s.emitted == [Emission("join_restaurant", token.value)]
         && !s.closed
  {
    if !Truthy(token) then
      EffectRun(Provider(None, false, p.handlers), Dropped(p), None)
    else
      SocketUrlIsSecure();
      var s := Socket(
        ReplaceHttpPrefix(BaseUrl),
        OptionsFor(token.value),
        {ConnectChannel, DisconnectChannel, OrderChannel},
        [Emission("join_restaurant", token.value)],
        false);
      EffectRun(Provider(Some(s), p.connected, p.handlers), None, Some(s))
  }

  /** What the cleanup leaves: the provider, and the socket it tore down. */
  datatype Teardown = Teardown(provider: Provider, socket: Socket)

  /** The cleanup: stops listening on the three channels, disconnects the socket,
      drops the ref and clears the flag. */
  function Cleanup(p: Provider, s: Socket): (r: Teardown)
    ensures r.provider.socket == None && !r.provider.connected && r.provider.handlers == p.handlers
    ensures r.socket.listening == {} && r.socket.closed
    ensures r.socket.url == s.url && r.socket.options == s.options && r.socket.emitted == s.emitted
  {
    Teardown(Provider(None, false, p.handlers), s.(listening := {}, closed := true))
  }

  /** What a token change leaves: the effect's new run, and the socket the previous
      run's cleanup tore down (none when the previous run returned no cleanup). */
  datatype ChangeRun = ChangeRun(run: EffectRun, tornDown: Option<Socket>)

  /** A token change: React runs the previous run's cleanup, then the effect again. */
  function TokenChange(p: Provider, previous: Option<Socket>, token: Option<string>): (r: ChangeRun)
    ensures r.run.provider.handlers == p.handlers
    ensures r.tornDown.Some? <==> previous.Some?
    ensures previous.Some? ==> r.tornDown.value.closed && r.tornDown.value.listening == {}
    ensures previous.Some? ==> r.tornDown.value.options == previous.value.options
    ensures !Truthy(token) ==> r.run.provider.socket == None && !r.run.provider.connected
    ensures Truthy(token) && previous.Some? ==> !r.run.provider.connected
    ensures Truthy(token) ==> r.run.provider.socket.Some? && r.run.provider.socket.value.options.authToken == token.value
  {
    if previous.Some? then
      var t := Cleanup(p, previous.value);
      ChangeRun(TokenEffect(t.provider, token), Some(t.socket))
    else
      ChangeRun(TokenEffect(p, token), None)
  }

  /** A new token after an old one leaves exactly one open socket: the old one is
      closed and no longer listened to, and the new one carries the new token on all
      three channels. Nothing is told to disconnect twice. */
  lemma TokenChangeLeavesOneOpenSocket(p: Provider, t1: string, t2: string)
    requires t1 != "" && t2 != ""
    ensures var run1 := TokenEffect(p, Some(t1));
            var c := TokenChange(run1.provider, run1.cleanupOf, Some(t2));
            && c.tornDown.Some? && c.tornDown.value.closed && c.tornDown.value.listening == {}
            && c.tornDown.value.options.authToken == t1
            && c.run.provider.socket.Some? && !c.run.provider.socket.value.closed
            && c.run.provider.socket.value.options.authToken == t2
            && c.run.provider.socket.value.listening == {ConnectChannel, DisconnectChannel, OrderChannel}
            && c.run.dropped == None && !c.run.provider.connected
  {
  }

  /** Losing the token after it opened a socket tears that socket down through the
      cleanup, leaves no socket, and the no-token branch finds nothing left to disconnect. */
  lemma LogoutClosesSocketOnce(p: Provider, t1: string)
    requires t1 != ""
    ensures var run1 := TokenEffect(p, Some(t1));
            var c := TokenChange(run1.provider, run1.cleanupOf, None);
            && c.tornDown.Some? && c.tornDown.value.closed && c.tornDown.value.listening == {}
            && c.run.provider.socket == None && !c.run.provider.connected
            && c.run.dropped == None && c.run.cleanupOf == None
  {
  }

  /** A socket event, delivered only while the provider listens on its channel. */
  function OnSocketEvent(p: Provider, ch: Channel): (r: Provider)
    requires ch != OrderChannel
    ensures r.socket == p.socket && r.handlers == p.handlers
    ensures p.socket.Some? && ch in p.socket.value.listening ==> r.connected == (ch == ConnectChannel)
    ensures !(p.socket.Some? && ch in p.socket.value.listening) ==> r.connected == p.connected
  {
    if p.socket.Some? && ch in p.socket.value.listening then p.(connected := ch == ConnectChannel) else p
  }

  /** After a token arrives, a connect event sets the flag and a disconnect clears it. */
  lemma ConnectedFollowsEvents(p: Provider, token: string)
    requires token != ""
    ensures OnSocketEvent(TokenEffect(p, Some(token)).provider, ConnectChannel).connected
    ensures !OnSocketEvent(TokenEffect(p, Some(token)).provider, DisconnectChannel).connected
  {
  }

  /** `onOrderEvent(h)` and `offOrderEvent(h)`. */
  function OnOrderEvent(p: Provider, h: HandlerId): (r: Provider)
    requires NoDup(p.handlers)
    ensures r.socket == p.socket && r.connected == p.connected
    ensures NoDup(r.handlers) && forall x :: x in r.handlers <==> x in p.handlers || x == h
  {
    p.(handlers := Register(p.handlers, h))
  }

  function OffOrderEvent(p: Provider, h: HandlerId): (r: Provider)
    requires NoDup(p.handlers)
    ensures r.socket == p.socket && r.connected == p.connected
    ensures NoDup(r.handlers) && forall x :: x in r.handlers <==> x in p.handlers && x != h
  {
    p.(handlers := Unregister(p.handlers, h))
  }

  /** An `order` message: forwarded to the handlers while the socket listens on the
      channel, otherwise nobody is called. */
  method DeliverOrder(p: Provider, throwing: set<HandlerId>) returns (called: seq<HandlerId>)
    ensures p.socket.Some? && OrderChannel in p.socket.value.listening ==> called == p.handlers
    ensures !(p.socket.Some? && OrderChannel in p.socket.value.listening) ==> called == []
  {
    if p.socket.Some? && OrderChannel in p.socket.value.listening {
      var completed;
      called, completed := Forward(p.handlers, throwing);
    } else {
      called := [];
    }
  }
}
