/**
 * The chat server: a registry of live connections with their display names,
 * and the router that answers rate commands to the sender and broadcasts
 * everything else. Transport is abstracted: a connection is an id, the peers
 * whose transport is closed are a map given to each operation, and every
 * successful send is appended to the server's `outbox`.
 */
module ChatServer {
  import opened Wrappers
  import opened Rates
  import QuoteLookup
  import Router

  type ConnId = nat

  /** How a peer's transport was closed. */
  datatype Close = Clean | Abnormal

  /** The exceptions a send or a receive can raise in the handler. */
  datatype Error =
    | ConnectionClosedOK      // send to, or receive from, a cleanly closed peer
    | ConnectionClosedError   // the same for an abnormally closed peer
    | TypeError               // `send(None)`: the lookup found no record

  datatype Delivery = Delivery(to: ConnId, text: string)

  function CloseError(c: Close): Error {
    match c
    case Clean => ConnectionClosedOK
    case Abnormal => ConnectionClosedError
  }

  /**
   * What `ws.send(message)` raises, if anything: a closed peer first (the
   * transport checks it is open before it looks at the payload), then a
   * payload that is not a string.
   */
  function SendFailure(to: ConnId, message: Option<string>, closed: map<ConnId, Close>): (e: Option<Error>)
    ensures e.None? <==> to !in closed && message.Some?
    ensures to in closed ==> e == Some(CloseError(closed[to]))
    ensures to !in closed && message.None? ==> e == Some(TypeError)
  {
    if to in closed then Some(CloseError(closed[to]))
    else if message.None? then Some(TypeError)
    else None
  }

  /** The deliveries of one text to `recipients`, in order. */
  function Broadcast(recipients: seq<ConnId>, text: string): (ds: seq<Delivery>)
    ensures |ds| == |recipients|
    ensures forall i :: 0 <= i < |ds| ==> ds[i].to == recipients[i] && ds[i].text == text
  {
    if recipients == [] then [] else [Delivery(recipients[0], text)] + Broadcast(recipients[1..], text)
  }

  /** How many of `ds` go to `c`. */
  function CountTo(ds: seq<Delivery>, c: ConnId): nat {
    if ds == [] then 0 else (if ds[0].to == c then 1 else 0) + CountTo(ds[1..], c)
  }

  predicate NoDup(s: seq<ConnId>) {
    forall i, j :: 0 <= i < j < |s| ==> s[i] != s[j]
  }

  /** Broadcasting to distinct recipients reaches each of them exactly once and no one else. */
  lemma {:induction false} BroadcastReachesEachOnce(recipients: seq<ConnId>, text: string, c: ConnId)
    requires NoDup(recipients)
    ensures CountTo(Broadcast(recipients, text), c) == if c in recipients then 1 else 0
  {
    if recipients != [] {
      var ds := Broadcast(recipients, text);
      assert ds[1..] == Broadcast(recipients[1..], text);
      assert recipients[0] !in recipients[1..];
      BroadcastReachesEachOnce(recipients[1..], text, c);
      assert c in recipients <==> c == recipients[0] || c in recipients[1..];
    }
  }

  /**
   * `order` is an iteration order of the set `members`: every member exactly
   * once. Python fixes one such order for a set that does not change.
   */
  predicate IsOrder(order: seq<ConnId>, members: set<ConnId>) {
    && NoDup(order)
    && (forall i :: 0 <= i < |order| ==> order[i] in members)
    && (forall c :: c in members ==> c in order)
  }

  /** The position of the first closed peer in `order`, or `|order|` when none is closed. */
  function FirstClosed(order: seq<ConnId>, closed: map<ConnId, Close>): (k: nat)
    ensures k <= |order|
    ensures forall i :: 0 <= i < k ==> order[i] !in closed
    ensures k < |order| ==> order[k] in closed
  {
    if order == [] || order[0] in closed then 0 else 1 + FirstClosed(order[1..], closed)
  }

  /**
   * The run of `send_to_clients` along `order`: the sends go out in order
   * until the first closed peer, whose exception ends the broadcast; the
   * peers after it get nothing.
   */
  predicate SentAlong(order: seq<ConnId>, closed: map<ConnId, Close>, err: Option<Error>, sent: seq<ConnId>) {
    var k := FirstClosed(order, closed);
    && sent == order[..k]
    && err == if k < |order| then Some(CloseError(closed[order[k]])) else None
  }

  /**
   * The outcome of `send_to_clients` over `members`: the clients reached,
   * `sent`, are distinct open members in visiting order; the loop stops at
   * the first closed member, so it completes exactly when no member is
   * closed, and then it has reached every member.
   */
  ghost predicate Broadcasted(members: set<ConnId>, closed: map<ConnId, Close>, err: Option<Error>, sent: seq<ConnId>) {
    && NoDup(sent)
    && (forall i :: 0 <= i < |sent| ==> sent[i] in members && sent[i] !in closed)
    && (err.None? <==> forall c :: c in members ==> c !in closed)
    && (err.None? ==> forall c :: c in members ==> c in sent)
    && (err.Some? ==> exists c :: c in members && c in closed && c !in sent && err.value == CloseError(closed[c]))
  }

  /** Sending along an iteration order of `members` has the outcome `Broadcasted` describes. */
  lemma SentAlongIsBroadcasted(order: seq<ConnId>, members: set<ConnId>, closed: map<ConnId, Close>,
                               err: Option<Error>, sent: seq<ConnId>)
    requires IsOrder(order, members) && SentAlong(order, closed, err, sent)
    ensures Broadcasted(members, closed, err, sent)
  {
    var k := FirstClosed(order, closed);
    assert forall i :: 0 <= i < |sent| ==> sent[i] == order[i];
    if k < |order| {
      assert order[k] in members;
    } else {
      assert sent == order;
    }
  }

  /** Once a send raises, the members later in the order receive nothing. */
  lemma {:induction false} NothingAfterFirstClosed(order: seq<ConnId>, closed: map<ConnId, Close>,
                                                   err: Option<Error>, sent: seq<ConnId>, i: nat)
    requires NoDup(order) && SentAlong(order, closed, err, sent)
    requires FirstClosed(order, closed) <= i < |order|
    ensures err.Some?
    ensures order[i] !in sent
  {
  }

  /** A message whose handling cannot make `send` raise a `TypeError`: chat, or a command whose currency is found. */
  predicate Answerable(message: string, resp: Response, date: string) {
    match Router.Classify(message)
    case Command(code) => QuoteLookup.Quote(resp, code, date).Some?
    case Chat(_) => true
  }

  /** The handling of one received message: what it raised, whom it reached, what it sent. */
  datatype Step = Step(err: Option<Error>, sent: seq<ConnId>, out: seq<Delivery>)

  /**
   * `step` is a possible handling of `message` from `ws`: a command sends the
   * quote for its code to `ws` alone; chat sends `<name>: <message>` to the
   * clients along `order` as `send_to_clients` does.
   */
  ghost predicate Dispatched(ws: ConnId, message: string, order: seq<ConnId>, names: map<ConnId, string>,
                             resp: Response, date: string, closed: map<ConnId, Close>, step: Step)
    requires ws in names
  {
    match Router.Classify(message)
    case Command(code) =>
      var reply := QuoteLookup.Quote(resp, code, date);
      && step.err == SendFailure(ws, reply, closed)
      && step.sent == (if step.err.None? then [ws] else [])
      && step.out == (if step.err.None? then [Delivery(ws, reply.value)] else [])
    case Chat(text) =>
      && step.out == Broadcast(step.sent, names[ws] + ": " + text)
      && SentAlong(order, closed, step.err, step.sent)
  }

  /** What the end of the inbox raises: nothing on a clean close. */
  function EndError(ending: Close): (e: Option<Error>)
    ensures e.None? <==> ending == Clean
    ensures e != Some(ConnectionClosedOK) && e != Some(TypeError)
  {
    if ending == Clean then None else Some(ConnectionClosedError)
  }

  /** Everything the logged steps sent, in order. */
  function Outs(log: seq<Step>): seq<Delivery> {
    if log == [] then [] else Outs(log[..|log| - 1]) + log[|log| - 1].out
  }

  /**
   * The receive loop's run over `inbox`: messages `0 .. handled-1` were
   * handled without raising, in order; if the inbox was not used up,
   * message `handled` raised the error that ends the loop, otherwise the
   * end of the inbox decides it.
   */
  ghost predicate Received(ws: ConnId, inbox: seq<string>, ending: Close, order: seq<ConnId>,
                           names: map<ConnId, string>, resp: Response, date: string,
                           closed: map<ConnId, Close>, err: Option<Error>, handled: nat, log: seq<Step>)
    requires ws in names
  {
    && handled <= |inbox|
    && (if handled < |inbox| then |log| == handled + 1 && log[handled].err.Some? && err == log[handled].err
        else |log| == handled && err == EndError(ending))
    && (forall k :: 0 <= k < handled ==> log[k].err.None?)
    && (forall k :: 0 <= k < |log| ==> Dispatched(ws, inbox[k], order, names, resp, date, closed, log[k]))
  }

  /** The first `|log|` messages of `inbox` were dispatched, in order, and none raised. */
  ghost predicate HandledWithoutError(ws: ConnId, inbox: seq<string>, order: seq<ConnId>,
                                      names: map<ConnId, string>, resp: Response, date: string,
                                      closed: map<ConnId, Close>, log: seq<Step>)
    requires ws in names
  {
    && |log| <= |inbox|
    && (forall k :: 0 <= k < |log| ==> log[k].err.None?)
    && (forall k :: 0 <= k < |log| ==> Dispatched(ws, inbox[k], order, names, resp, date, closed, log[k]))
  }

  /** Dispatching the next message either extends the run or ends it with that message's error. */
  lemma RunExtends(ws: ConnId, inbox: seq<string>, ending: Close, order: seq<ConnId>,
                   names: map<ConnId, string>, resp: Response, date: string,
                   closed: map<ConnId, Close>, log: seq<Step>, step: Step)
    requires ws in names && HandledWithoutError(ws, inbox, order, names, resp, date, closed, log)
    requires |log| < |inbox| && Dispatched(ws, inbox[|log|], order, names, resp, date, closed, step)
    ensures step.err.None? ==> HandledWithoutError(ws, inbox, order, names, resp, date, closed, log + [step])
    ensures step.err.Some? ==> Received(ws, inbox, ending, order, names, resp, date, closed,
                                        step.err, |log|, log + [step])
  {
    var log' := log + [step];
    assert forall k :: 0 <= k < |log| ==> log'[k] == log[k];
  }

  /** A run that used up the inbox ends as the inbox's end decides. */
  lemma RunEnds(ws: ConnId, inbox: seq<string>, ending: Close, order: seq<ConnId>,
                names: map<ConnId, string>, resp: Response, date: string,
                closed: map<ConnId, Close>, log: seq<Step>)
    requires ws in names && HandledWithoutError(ws, inbox, order, names, resp, date, closed, log)
    requires |log| == |inbox|
    ensures Received(ws, inbox, ending, order, names, resp, date, closed, EndError(ending), |inbox|, log)
  {
  }

  lemma ConcatAssoc(a: seq<Delivery>, b: seq<Delivery>, c: seq<Delivery>)
    ensures (a + b) + c == a + (b + c)
  {
  }

  lemma OutsSnoc(log: seq<Step>, step: Step)
    ensures Outs(log + [step]) == Outs(log) + step.out
  {
    assert (log + [step])[..|log|] == log;
  }

  /** With every peer open, an answerable message is handled without raising. */
  lemma DispatchedAnswerable(ws: ConnId, message: string, order: seq<ConnId>, names: map<ConnId, string>,
                             resp: Response, date: string, step: Step)
    requires ws in names && Answerable(message, resp, date)
    requires Dispatched(ws, message, order, names, resp, date, map[], step)
    ensures step.err.None?
  {
  }

  /** With every peer open and every message answerable, the receive loop handles the whole inbox. */
  lemma ReceivedAnswerable(ws: ConnId, inbox: seq<string>, ending: Close, order: seq<ConnId>,
                           names: map<ConnId, string>, resp: Response, date: string,
                           closed: map<ConnId, Close>, err: Option<Error>, handled: nat, log: seq<Step>)
    requires ws in names && closed == map[]
    requires forall k :: 0 <= k < |inbox| ==> Answerable(inbox[k], resp, date)
    requires Received(ws, inbox, ending, order, names, resp, date, closed, err, handled, log)
    ensures handled == |inbox| && err == EndError(ending)
  {
    if handled < |inbox| {
      DispatchedAnswerable(ws, inbox[handled], order, names, resp, date, log[handled]);
    }
  }

  class Server {
    /** The live connections (`Server.clients`). */
    var clients: set<ConnId>
    /** The display name given to each connection at registration (`ws.name`). */
    var names: map<ConnId, string>
    /** Every message the server has sent, in order. */
    var outbox: seq<Delivery>

    ghost predicate Valid()
      reads this
    {
      clients <= names.Keys
    }

    constructor ()
      ensures Valid()
      ensures clients == {} && names == map[] && outbox == []
    {
      clients := {};
      names := map[];
      outbox := [];
    }

    /** `register`: name the connection and add it to the set; `name` stands for the generated name. */
    method Register(ws: ConnId, name: string)
      requires Valid()
      modifies this`clients, this`names
      ensures Valid()
      ensures clients == old(clients) + {ws}
      ensures names == old(names)[ws := name]
    {
      names := names[ws := name];
      clients := clients + {ws};
    }

    /** `unregister`: `set.remove`, which raises unless `ws` is a member. */
    method Unregister(ws: ConnId)
      requires Valid() && ws in clients
      modifies this`clients
      ensures Valid()
      ensures clients == old(clients) - {ws}
    {
      clients := clients - {ws};
    }

    /** `send_to_client`: one send to `ws`, which fails on a closed peer or a `None` payload. */
    method SendToClient(message: Option<string>, ws: ConnId, closed: map<ConnId, Close>) returns (err: Option<Error>)
      modifies this`outbox
      ensures err == SendFailure(ws, message, closed)
      ensures outbox == old(outbox) + (if err.None? then [Delivery(ws, message.value)] else [])
    {
      err := SendFailure(ws, message, closed);
      if err.None? {
        outbox := outbox + [Delivery(ws, message.value)];
      }
    }

    /**
     * `send_to_clients`: one send per member, in the set's iteration order
     * `order`; the first failing send raises and the remaining members get
     * nothing.
     */
    method SendToClients(message: string, order: seq<ConnId>, closed: map<ConnId, Close>)
      returns (err: Option<Error>, sent: seq<ConnId>)
      requires IsOrder(order, clients)
      modifies this`outbox
      ensures outbox == old(outbox) + Broadcast(sent, message)
      ensures SentAlong(order, closed, err, sent)
      ensures Broadcasted(clients, closed, err, sent)
      ensures clients == {} ==> outbox == old(outbox)
    {
      err, sent := None, [];
      var k := 0;
      while k < |order| && order[k] !in closed
        invariant k <= |order|
        invariant sent == order[..k]
        invariant forall i :: 0 <= i < k ==> order[i] !in closed
        invariant outbox == old(outbox) + Broadcast(sent, message)
      {
        BroadcastSnoc(sent, order[k], message);
        outbox := outbox + [Delivery(order[k], message)];
        sent := sent + [order[k]];
        k := k + 1;
      }
      if k < |order| {
        err := Some(CloseError(closed[order[k]]));
      }
      SentAlongIsBroadcasted(order, clients, closed, err, sent);
    }

    /**
     * One received message: a command is answered to the sender alone with
     * the quote for its code; anything else goes to every client, sender
     * included, as `<name>: <message>`. `out` is what was sent.
     */
    method Dispatch(ws: ConnId, message: string, order: seq<ConnId>, resp: Response, date: string,
                    closed: map<ConnId, Close>)
      returns (err: Option<Error>, sent: seq<ConnId>, ghost out: seq<Delivery>)
      requires Valid() && ws in clients && IsOrder(order, clients)
      modifies this`outbox
      ensures outbox == old(outbox) + out
      ensures Dispatched(ws, message, order, names, resp, date, closed, Step(err, sent, out))
    {
      match Router.Classify(message)
      case Command(code) =>
        var r := QuoteLookup.GetExchange(resp, code, date);
        err := SendToClient(r, ws, closed);
        sent := if err.None? then [ws] else [];
        out := if err.None? then [Delivery(ws, r.value)] else [];
      case Chat(text) =>
        err, sent := SendToClients(names[ws] + ": " + text, order, closed);
        out := Broadcast(sent, names[ws] + ": " + text);
    }

    /**
     * `distrubute`: the receive loop. The messages are dispatched in arrival
     * order until one raises; when the inbox runs out, a clean close ends the
     * loop normally and an abnormal one raises. `log` holds one step per
     * dispatched message.
     */
    method Distribute(ws: ConnId, inbox: seq<string>, ending: Close, order: seq<ConnId>, resp: Response,
                      date: string, closed: map<ConnId, Close>)
      returns (err: Option<Error>, handled: nat, ghost log: seq<Step>)
      requires Valid() && ws in clients && IsOrder(order, clients)
      modifies this`outbox
      ensures Received(ws, inbox, ending, order, names, resp, date, closed, err, handled, log)
      ensures outbox == old(outbox) + Outs(log)
    {
      ghost var cs, ns, start := clients, names, outbox;
      var i := 0;
      log := [];
      while i < |inbox|
        invariant i == |log|
        invariant clients == cs && names == ns
        invariant outbox == start + Outs(log)
        invariant HandledWithoutError(ws, inbox, order, ns, resp, date, closed, log)
      {
        var e, sent, out := Dispatch(ws, inbox[i], order, resp, date, closed);
        ghost var step := Step(e, sent, out);
        OutsSnoc(log, step);
        ConcatAssoc(start, Outs(log), out);
        RunExtends(ws, inbox, ending, order, ns, resp, date, closed, log, step);
        log := log + [step];
        if e.Some? {
          return e, i, log;
        }
        i := i + 1;
      }
      RunEnds(ws, inbox, ending, order, ns, resp, date, closed, log);
      err := EndError(ending);
      handled := |inbox|;
    }

    /**
     * `ws_handler`: register, run the receive loop, swallow a clean close,
     * and unregister in the `finally` block whatever happened. `raised` is
     * what escapes the handler; `err`, `handled` and `log` describe the
     * receive loop's run.
     */
    method WsHandler(ws: ConnId, name: string, inbox: seq<string>, ending: Close, order: seq<ConnId>,
                     resp: Response, date: string, closed: map<ConnId, Close>)
      returns (raised: Option<Error>, ghost err: Option<Error>, ghost handled: nat, ghost log: seq<Step>)
      requires Valid() && IsOrder(order, clients + {ws})
      modifies this
      ensures Valid()
      ensures clients == old(clients) - {ws}
      ensures names == old(names)[ws := name]
      ensures Received(ws, inbox, ending, order, old(names)[ws := name], resp, date, closed, err, handled, log)
      ensures outbox == old(outbox) + Outs(log)
      ensures raised == if err == Some(ConnectionClosedOK) then None else err
      ensures inbox == [] && ending == Abnormal ==> raised == Some(ConnectionClosedError)
      ensures closed == map[] && ending == Clean && (forall k :: 0 <= k < |inbox| ==> Answerable(inbox[k], resp, date))
              ==> raised.None?
    {
      Register(ws, name);
      var e;
      e, handled, log := Distribute(ws, inbox, ending, order, resp, date, closed);
      err := e;
      if e == Some(ConnectionClosedOK) {
        e := None;
      }
      Unregister(ws);
      raised := e;
      if closed == map[] && (forall k :: 0 <= k < |inbox| ==> Answerable(inbox[k], resp, date)) {
        ReceivedAnswerable(ws, inbox, ending, order, old(names)[ws := name], resp, date, closed,
                           err, handled, log);
      }
    }
  }

  /** One more recipient adds one delivery, to it, at the end. */
  lemma BroadcastSnoc(sent: seq<ConnId>, c: ConnId, text: string)
    ensures Broadcast(sent + [c], text) == Broadcast(sent, text) + [Delivery(c, text)]
  {
  }
}
