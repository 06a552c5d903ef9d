/**
 * The dispatcher (`Repartiteur/Repartiteur.py`): it splits the dataset into
 * a one-third head share and a two-thirds tail share, classifies up to two
 * connecting peers as active and passive by address, and runs one handler
 * per peer. A handler waits for a message: `"panne"` makes it fail over,
 * a receive timeout makes it push a share.
 */
module Repartiteur {
  import opened Py
  import opened Framing
  import Receiver

  /** The address that marks the active unit. */
  const ActiveAddress := "192.168.43.215"

  /** The failure signal a peer sends instead of waiting for data. */
  const Panne := "panne"

  /** `diviser_fichier`: the head `n // 3` rows and the remaining tail rows. */
  function Diviser<R>(rows: seq<R>): (shares: (seq<R>, seq<R>))
    ensures |shares.0| == |rows| / 3 && |shares.1| == |rows| - |rows| / 3
    ensures |shares.0| <= |shares.1|
    ensures shares.0 + shares.1 == rows
  {
    var k := |rows| / 3;
    assert rows[..k] + rows[k..] == rows;
    (rows[..k], rows[k..])
  }

  /** An accepted connection: the peer's address and its position in accept order. */
  datatype Conn = Conn(address: string, index: nat)

  /**
   * What one `recv(1024)` on a handler's socket gives: decoded text, a
   * timeout, any other error, or `b''` once the peer has closed its end.
   * After `Eof` every further `recv` returns `b''` at once, so no timeout
   * can follow it.
   */
  datatype Event = Msg(text: string) | Timeout | RecvError | Eof

  /** What a handler does to the sockets, in order. */
  datatype Action<R> =
    | Sent(to: Conn, rows: seq<R>, wire: seq<byte>)
    | SendFailed(to: Conn, rows: seq<R>)
    | Closed(conn: Conn)
  {
    /** A call of `envoyer_dataframe`, whether or not its bytes went out. */
    predicate IsPush() { Sent? || SendFailed? }
  }

  /**
   * `envoyer_dataframe`: the CSV text of the rows, framed. A payload too
   * long for the header raises inside the `try`, which reports it and
   * sends nothing.
   */
  function Envoyer<R>(to: Conn, rows: seq<R>, csv: seq<R> -> seq<byte>): (a: Action<R>)
    ensures a.IsPush() && a.to == to && a.rows == rows
    ensures a.Sent? <==> |csv(rows)| < LengthLimit
    ensures a.Sent? ==> |a.wire| == 4 + |csv(rows)|
    ensures a.Sent? ==> BigEndian(a.wire[..4]) == |csv(rows)| && a.wire[4..] == csv(rows)
  {
    match Frame(csv(rows))
    case Some(w) => Sent(to, rows, w)
    case None => SendFailed(to, rows)
  }

  /**
   * The events that settle a handler's receive loop: the first three end
   * it, `Eof` traps it; any other text is ignored.
   */
  predicate Decisive(e: Event)
  {
    e.Timeout? || e.RecvError? || e == Msg(Panne) || e.Eof?
  }

  /** The position of the event that ends the receive loop, if one arrives. */
  function FirstDecisive(events: seq<Event>): (k: Option<nat>)
    ensures k.Some? ==> k.value < |events| && Decisive(events[k.value])
    ensures k.Some? ==> forall j :: 0 <= j < k.value ==> !Decisive(events[j])
    ensures k.None? ==> forall j :: 0 <= j < |events| ==> !Decisive(events[j])
  {
    if events == [] then None
    else if Decisive(events[0]) then Some(0)
    else match FirstDecisive(events[1..])
      case None => None
      case Some(k) => Some(k + 1)
  }

  /**
   * What `gerer_client(sock1, sock2, d30, d70)` does once its loop ends on
   * event `e`, the `finally` close of `sock1` included.
   */
  function Reaction<R>(sock1: Conn, sock2: Option<Conn>, d30: seq<R>, d70: seq<R>, e: Event,
                       csv: seq<R> -> seq<byte>): seq<Action<R>>
  {
    var body :=
      match e
      case Timeout => [Envoyer(sock1, if sock2.None? then d30 + d70 else d70, csv)]
      case RecvError | Eof => []
      case Msg(_) => if sock2.None? then [] else [Envoyer(sock2.value, d30 + d70, csv), Closed(sock2.value)];
    body + [Closed(sock1)]
  }

  /**
   * The handler's whole behaviour on an event sequence: the actions, and
   * whether it returns. Without a decisive event it is still waiting and has
   * done nothing; after `Eof` its loop spins on empty reads for ever, so it
   * does nothing and never returns.
   */
  function HandlerRun<R>(sock1: Conn, sock2: Option<Conn>, d30: seq<R>, d70: seq<R>, events: seq<Event>,
                         csv: seq<R> -> seq<byte>): (seq<Action<R>>, bool)
  {
    match FirstDecisive(events)
    case None => ([], false)
    case Some(k) =>
      if events[k].Eof? then ([], false)
      else (Reaction(sock1, sock2, d30, d70, events[k], csv), true)
  }

  /**
   * `gerer_client`: receive until `"panne"`, a timeout or an error, keeping
   * the source's `panne` and `sent` flags.
   */
  method GererClient<R>(sock1: Conn, sock2: Option<Conn>, d30: seq<R>, d70: seq<R>, events: seq<Event>,
                        csv: seq<R> -> seq<byte>)
    returns (trace: seq<Action<R>>, finished: bool)
    ensures (trace, finished) == HandlerRun(sock1, sock2, d30, d70, events, csv)
  {
    var panne, sent := false, false;
    trace := [];
    finished := false;
    var k := 0;
    while k < |events|
      invariant 0 <= k <= |events|
      invariant !panne && !sent && trace == [] && !finished
      invariant forall j :: 0 <= j < k ==> !Decisive(events[j])
    {
      var e := events[k];
      if e.Msg? && e.text == Panne {
        panne := true;
        if sock2.Some? {
          trace := [Envoyer(sock2.value, d30 + d70, csv), Closed(sock2.value)];
        }
        finished := true;
        break;
      } else if e.Timeout? {
        if !panne && !sent {
          trace := [Envoyer(sock1, if sock2.None? then d30 + d70 else d70, csv)];
          sent := true;
        }
        finished := true;
        break;
      } else if e.RecvError? {
        finished := true;
        break;
      } else if e.Eof? {
        // `if data:` fails on every later read too: the loop never ends
        break;
      }
      k := k + 1;
    }
    if finished {
      trace := trace + [Closed(sock1)];
    }
  }

  /** A handler pushes at most once, and a returning handler's last act is closing its own socket. */
  lemma HandlerPushesAtMostOnce<R>(sock1: Conn, sock2: Option<Conn>, d30: seq<R>, d70: seq<R>, events: seq<Event>,
                                   csv: seq<R> -> seq<byte>)
    ensures var (trace, finished) := HandlerRun(sock1, sock2, d30, d70, events, csv);
      (forall i, j :: 0 <= i < j < |trace| && trace[i].IsPush() ==> !trace[j].IsPush())
      && (finished <==> trace != [])
      && (finished ==> trace[|trace| - 1] == Closed(sock1))
  {
  }

  /**
   * Only a message exactly equal to `"panne"` makes the handler push to the
   * other socket, and then it sends both shares and closes that socket; the
   * handler's own peer then receives nothing.
   */
  lemma FailoverOnPanneOnly<R>(sock1: Conn, sock2: Conn, d30: seq<R>, d70: seq<R>, events: seq<Event>,
                               csv: seq<R> -> seq<byte>)
    requires sock1 != sock2
    ensures var (trace, finished) := HandlerRun(sock1, Some(sock2), d30, d70, events, csv);
      (exists i :: 0 <= i < |trace| && trace[i].IsPush() && trace[i].to == sock2)
        <==> (FirstDecisive(events).Some? && events[FirstDecisive(events).value] == Msg(Panne))
  {
    var (trace, finished) := HandlerRun(sock1, Some(sock2), d30, d70, events, csv);
    match FirstDecisive(events)
    case None =>
    case Some(k) =>
      if events[k] == Msg(Panne) {
        assert trace[0].IsPush() && trace[0].to == sock2;
      }
  }

  /** One accept call of the server socket. */
  datatype Accept = Accepted(address: string) | AcceptTimeout

  /**
   * The classification in `main` after a first connection from `first`:
   * (`client_socket1`, `client_socket2`), the active and the passive slot.
   */
  function Classify(first: string, second: Accept): (slots: (Option<Conn>, Option<Conn>))
    ensures slots.0.Some? || slots.1.Some?
    ensures first == ActiveAddress ==> slots.0 == Some(Conn(first, 0))
    ensures first != ActiveAddress ==> slots.1 == Some(Conn(first, 0))
    ensures (slots.0.Some? && slots.1.Some?) <==> second.Accepted?
    ensures second.Accepted? ==> (if first == ActiveAddress then slots.1 else slots.0) == Some(Conn(second.address, 1))
  {
    var next := if second.Accepted? then Some(Conn(second.address, 1)) else None;
    if first != ActiveAddress then (next, Some(Conn(first, 0)))
    else (Some(Conn(first, 0)), next)
  }

  /** One spawned handler thread: the arguments of `gerer_client`. */
  datatype Call<R> = Call(sock1: Conn, sock2: Option<Conn>, d30: seq<R>, d70: seq<R>)

  /** The handler threads `main` starts for the two slots, in start order. */
  function HandlerCalls<R>(slots: (Option<Conn>, Option<Conn>), d30: seq<R>, d70: seq<R>): (calls: seq<Call<R>>)
    requires slots.0.Some? || slots.1.Some?
    ensures 1 <= |calls| <= 2
    ensures |calls| == 2 <==> slots.0.Some? && slots.1.Some?
    ensures slots.0.Some? ==> calls[0] == Call(slots.0.value, slots.1, d30, d70)
    ensures slots.1.Some? ==> calls[|calls| - 1] == Call(slots.1.value, slots.0, d70, d30)
  {
    if slots.0.None? then [Call(slots.1.value, None, d70, d30)]
    else if slots.1.None? then [Call(slots.0.value, None, d30, d70)]
    else [Call(slots.0.value, slots.1, d30, d70), Call(slots.1.value, slots.0, d70, d30)]
  }

  /**
   * The actions of the started handlers, each reading its own socket's
   * events, and whether all of them return (so that `join` does).
   */
  function RunCalls<R>(calls: seq<Call<R>>, incoming: Conn -> seq<Event>, csv: seq<R> -> seq<byte>)
    : (seq<Action<R>>, bool)
  {
    if calls == [] then ([], true)
    else
      var c := calls[0];
      var (t, done) := HandlerRun(c.sock1, c.sock2, c.d30, c.d70, incoming(c.sock1), csv);
      var (rest, allDone) := RunCalls(calls[1..], incoming, csv);
      (t + rest, done && allDone)
  }

  /**
   * `main` as a function of its inputs: the dataset rows, the outcomes of
   * the two accept calls and what each connection sends. A timeout on the
   * first accept ends the server with no handler.
   */
  function Serve<R>(rows: seq<R>, first: Accept, second: Accept, incoming: Conn -> seq<Event>,
                    csv: seq<R> -> seq<byte>): (seq<Action<R>>, bool)
  {
    if first.AcceptTimeout? then ([], true)
    else
      var (d30, d70) := Diviser(rows);
      RunCalls(HandlerCalls(Classify(first.address, second), d30, d70), incoming, csv)
  }

  /** One started handler: the actions are its own. */
  lemma RunOneCall<R>(c: Call<R>, incoming: Conn -> seq<Event>, csv: seq<R> -> seq<byte>)
    ensures RunCalls([c], incoming, csv) == HandlerRun(c.sock1, c.sock2, c.d30, c.d70, incoming(c.sock1), csv)
  {
    var h := HandlerRun(c.sock1, c.sock2, c.d30, c.d70, incoming(c.sock1), csv);
    assert [c][1..] == [];
    assert h.0 + [] == h.0;
  }

  /** Two started handlers: the first one's actions, then the second one's. */
  lemma RunTwoCalls<R>(c1: Call<R>, c2: Call<R>, incoming: Conn -> seq<Event>, csv: seq<R> -> seq<byte>)
    ensures var h1 := HandlerRun(c1.sock1, c1.sock2, c1.d30, c1.d70, incoming(c1.sock1), csv);
      var h2 := HandlerRun(c2.sock1, c2.sock2, c2.d30, c2.d70, incoming(c2.sock1), csv);
      RunCalls([c1, c2], incoming, csv) == (h1.0 + h2.0, h1.1 && h2.1)
  {
    assert [c1, c2][1..] == [c2];
    RunOneCall(c2, incoming, csv);
  }

  /** A handler whose loop ends on `e` does what `Reaction` says for `e`. */
  lemma HandlerEndsOn<R>(sock1: Conn, sock2: Option<Conn>, d30: seq<R>, d70: seq<R>, events: seq<Event>,
                         e: Event, csv: seq<R> -> seq<byte>)
    requires FirstDecisive(events).Some? && events[FirstDecisive(events).value] == e && !e.Eof?
    ensures HandlerRun(sock1, sock2, d30, d70, events, csv) == (Reaction(sock1, sock2, d30, d70, e, csv), true)
  {
  }

  /**
   * A peer that closes its end before any decisive event leaves the handler
   * spinning: it pushes nothing, closes nothing and never returns, so the
   * server's `join` never returns either.
   */
  lemma PeerClosedSpins<R>(sock1: Conn, sock2: Option<Conn>, d30: seq<R>, d70: seq<R>, events: seq<Event>,
                           k: nat, csv: seq<R> -> seq<byte>)
    requires k < |events| && events[k] == Eof
    requires forall j :: 0 <= j < k ==> !Decisive(events[j])
    ensures HandlerRun(sock1, sock2, d30, d70, events, csv) == ([], false)
  {
    assert Decisive(events[k]);
  }

  /**
   * `main`: split, accept up to two peers, classify them, start the
   * handlers and wait for them. The handlers are run one after the other.
   */
  method RunServer<R>(rows: seq<R>, first: Accept, second: Accept, incoming: Conn -> seq<Event>,
                      csv: seq<R> -> seq<byte>)
    returns (trace: seq<Action<R>>, done: bool)
    ensures (trace, done) == Serve(rows, first, second, incoming, csv)
  {
    if first.AcceptTimeout? {
      return [], true;
    }
    var d30, d70 := Diviser(rows).0, Diviser(rows).1;
    var client1, client2: Option<Conn>;
    if ActiveAddress != first.address {
      client2 := Some(Conn(first.address, 0));
      client1 := if second.Accepted? then Some(Conn(second.address, 1)) else None;
    } else {
      client1 := Some(Conn(first.address, 0));
      client2 := if second.Accepted? then Some(Conn(second.address, 1)) else None;
    }
    assert (client1, client2) == Classify(first.address, second);
    if client1.None? {
      trace, done := GererClient(client2.value, client1, d70, d30, incoming(client2.value), csv);
      RunOneCall(Call(client2.value, client1, d70, d30), incoming, csv);
    } else if client2.None? {
      trace, done := GererClient(client1.value, client2, d30, d70, incoming(client1.value), csv);
      RunOneCall(Call(client1.value, client2, d30, d70), incoming, csv);
    } else {
      var t1, done1 := GererClient(client1.value, client2, d30, d70, incoming(client1.value), csv);
      var t2, done2 := GererClient(client2.value, client1, d70, d30, incoming(client2.value), csv);
      RunTwoCalls(Call(client1.value, client2, d30, d70), Call(client2.value, client1, d70, d30), incoming, csv);
      trace, done := t1 + t2, done1 && done2;
    }
  }

  /** A first peer from another address is passive; the next one is active whatever its address. */
  lemma SecondPeerUncheckedAfterPassive(first: string, second: string)
    requires first != ActiveAddress
    ensures Classify(first, Accepted(second)) == (Some(Conn(second, 1)), Some(Conn(first, 0)))
  {
  }

  /**
   * Only the passive peer connected: its handler gets the shares swapped, so
   * on timeout it receives the tail rows followed by the head rows.
   */
  lemma PassiveAloneGetsTailFirst<R>(rows: seq<R>, first: string, incoming: Conn -> seq<Event>,
                                     csv: seq<R> -> seq<byte>)
    requires first != ActiveAddress
    requires var ev := incoming(Conn(first, 0)); FirstDecisive(ev).Some? && ev[FirstDecisive(ev).value] == Timeout
    ensures Serve(rows, Accepted(first), AcceptTimeout, incoming, csv)
      == ([Envoyer(Conn(first, 0), rows[|rows| / 3..] + rows[..|rows| / 3], csv), Closed(Conn(first, 0))], true)
  {
    var (d30, d70) := Diviser(rows);
    var c := Conn(first, 0);
    assert HandlerCalls(Classify(first, AcceptTimeout), d30, d70) == [Call(c, None, d70, d30)];
    RunOneCall(Call(c, None, d70, d30), incoming, csv);
    HandlerEndsOn(c, None, d70, d30, incoming(c), Timeout, csv);
    assert Reaction(c, None, d70, d30, Timeout, csv) == [Envoyer(c, d70 + d30, csv), Closed(c)];
    assert d70 == rows[|rows| / 3..] && d30 == rows[..|rows| / 3];
  }

  /**
   * Both peers connected and both handlers time out: the active peer
   * receives the tail share and the passive peer the head share, so between
   * them they receive every row exactly once.
   */
  lemma BothTimeOut<R>(rows: seq<R>, second: string, incoming: Conn -> seq<Event>,
                       csv: seq<R> -> seq<byte>)
    requires var ev := incoming(Conn(ActiveAddress, 0)); FirstDecisive(ev).Some? && ev[FirstDecisive(ev).value] == Timeout
    requires var ev := incoming(Conn(second, 1)); FirstDecisive(ev).Some? && ev[FirstDecisive(ev).value] == Timeout
    ensures var active, passive := Conn(ActiveAddress, 0), Conn(second, 1);
      Serve(rows, Accepted(ActiveAddress), Accepted(second), incoming, csv)
      == ([Envoyer(active, rows[|rows| / 3..], csv), Closed(active),
           Envoyer(passive, rows[..|rows| / 3], csv), Closed(passive)], true)
    ensures rows[..|rows| / 3] + rows[|rows| / 3..] == rows
  {
    var active, passive := Conn(ActiveAddress, 0), Conn(second, 1);
    var (d30, d70) := Diviser(rows);
    assert HandlerCalls(Classify(ActiveAddress, Accepted(second)), d30, d70)
      == [Call(active, Some(passive), d30, d70), Call(passive, Some(active), d70, d30)];
    RunTwoCalls(Call(active, Some(passive), d30, d70), Call(passive, Some(active), d70, d30), incoming, csv);
    HandlerEndsOn(active, Some(passive), d30, d70, incoming(active), Timeout, csv);
    HandlerEndsOn(passive, Some(active), d70, d30, incoming(passive), Timeout, csv);
    assert Reaction(active, Some(passive), d30, d70, Timeout, csv) == [Envoyer(active, d70, csv), Closed(active)];
    assert Reaction(passive, Some(active), d70, d30, Timeout, csv) == [Envoyer(passive, d30, csv), Closed(passive)];
    assert d70 == rows[|rows| / 3..] && d30 == rows[..|rows| / 3];
    assert [Envoyer(active, d70, csv), Closed(active)] + [Envoyer(passive, d30, csv), Closed(passive)]
      == [Envoyer(active, d70, csv), Closed(active), Envoyer(passive, d30, csv), Closed(passive)];
  }

  /**
   * Both peers connected and the active peer signals `"panne"` first: the
   * passive peer receives all rows in order and its socket is closed, and
   * the active peer receives nothing from its own handler.
   */
  lemma ActivePanneFailsOver<R>(rows: seq<R>, second: string, incoming: Conn -> seq<Event>,
                                csv: seq<R> -> seq<byte>)
    requires var ev := incoming(Conn(ActiveAddress, 0)); FirstDecisive(ev).Some? && ev[FirstDecisive(ev).value] == Msg(Panne)
    ensures var active, passive := Conn(ActiveAddress, 0), Conn(second, 1);
      var served := Serve(rows, Accepted(ActiveAddress), Accepted(second), incoming, csv).0;
      |served| >= 3 && served[..3] == [Envoyer(passive, rows, csv), Closed(passive), Closed(active)]
  {
    var active, passive := Conn(ActiveAddress, 0), Conn(second, 1);
    var (d30, d70) := Diviser(rows);
    RunTwoCalls(Call(active, Some(passive), d30, d70), Call(passive, Some(active), d70, d30), incoming, csv);
    HandlerEndsOn(active, Some(passive), d30, d70, incoming(active), Msg(Panne), csv);
    var served := Serve(rows, Accepted(ActiveAddress), Accepted(second), incoming, csv).0;
    var handler := [Envoyer(passive, rows, csv), Closed(passive), Closed(active)];
    assert served == handler + HandlerRun(passive, Some(active), d70, d30, incoming(passive), csv).0;
    assert served[..3] == handler;
  }

  /** A single peer that signals `"panne"` gets nothing; its socket is only closed. */
  lemma SinglePeerPanneSendsNothing<R>(rows: seq<R>, incoming: Conn -> seq<Event>, csv: seq<R> -> seq<byte>)
    requires var ev := incoming(Conn(ActiveAddress, 0)); FirstDecisive(ev).Some? && ev[FirstDecisive(ev).value] == Msg(Panne)
    ensures Serve(rows, Accepted(ActiveAddress), AcceptTimeout, incoming, csv) == ([Closed(Conn(ActiveAddress, 0))], true)
  {
    var (d30, d70) := Diviser(rows);
    var c := Conn(ActiveAddress, 0);
    assert HandlerCalls(Classify(ActiveAddress, AcceptTimeout), d30, d70) == [Call(c, None, d30, d70)];
    RunOneCall(Call(c, None, d30, d70), incoming, csv);
    HandlerEndsOn(c, None, d30, d70, incoming(c), Msg(Panne), csv);
    assert Reaction(c, None, d30, d70, Msg(Panne), csv) == [Closed(c)];
  }

  /**
   * A single active peer that stays silent until the timeout receives every
   * row in order, and a receiver reading the socket stores exactly their CSV
   * text when its first read takes in the whole header.
   */
  lemma SinglePeerTimeoutSendsAll<R>(rows: seq<R>, incoming: Conn -> seq<Event>, csv: seq<R> -> seq<byte>,
                                     rest: seq<byte>, segment: nat -> nat)
    requires var ev := incoming(Conn(ActiveAddress, 0)); FirstDecisive(ev).Some? && ev[FirstDecisive(ev).value] == Timeout
    requires |csv(rows)| < LengthLimit && segment(0) >= 3
    ensures var trace := Serve(rows, Accepted(ActiveAddress), AcceptTimeout, incoming, csv).0;
      |trace| == 2 && trace[0].Sent? && trace[0].to == Conn(ActiveAddress, 0) && trace[0].rows == rows
      && Receiver.Received(trace[0].wire + rest, segment) == csv(rows)
  {
    var (d30, d70) := Diviser(rows);
    var c := Conn(ActiveAddress, 0);
    RunOneCall(Call(c, None, d30, d70), incoming, csv);
    HandlerEndsOn(c, None, d30, d70, incoming(c), Timeout, csv);
    Receiver.ReceiveFrame(csv(rows), rest, segment);
  }
}
