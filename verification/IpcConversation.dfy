/** source/common/ipc/lib/IpcConversation.js: requests and responses are matched by a conversation id. */
module IpcConversations {
  import opened IpcProtocol

  function Without(ids: seq<nat>, id: nat): seq<nat> {
    if ids == [] then []
    else if ids[0] == id then Without(ids[1..], id)
    else [ids[0]] + Without(ids[1..], id)
  }

  /** The listener of conversation `own` is called with a message for conversation `messageId`. */
  function OnMessage(n: Net, own: nat, messageId: nat, o: Outcome): Net {
    if messageId != own then n
    else n.(listeners := Without(n.listeners, own), settlements := n.settlements + [Settlement(own, messageId, o)])
  }

  /** The receiver calls every listener that was registered when the message came in. */
  function Emit(n: Net, registered: seq<nat>, messageId: nat, o: Outcome): Net
    decreases |registered|
  {
    if registered == [] then n
    else Emit(OnMessage(n, registered[0], messageId, o), registered[1..], messageId, o)
  }

  function DeliverResponse(n: Net, id: nat): Net
    requires IsResponding(n, id)
  {
    Emit(EndCall(n, id), n.listeners, id, n.calls[id].stage.outcome)
  }

  function Next(n: Net, e: Event): Net
    requires Enabled(n, e)
  {
    match e
    case Call(id, m) => SendCall(n, id, m)
    case Accept(id) => AcceptRequest(n, id)
    case Finish(id, o) => FinishHandling(n, id, o)
    case Deliver(id) => DeliverResponse(n, id)
  }

  ghost predicate Legal(es: seq<Event>)
    decreases |es|, 0
  {
    es == [] || (Legal(es[..|es| - 1]) && Enabled(Run(es[..|es| - 1]), es[|es| - 1]))
  }

  ghost function Run(es: seq<Event>): Net
    requires Legal(es)
    decreases |es|, 1
  {
    if es == [] then Silence else Next(Run(es[..|es| - 1]), es[|es| - 1])
  }

  /** The requesting side as an object: `request` registers its handler, and the handler settles its own promise and
      removes itself. */
  class IpcConversation {
    var listeners: seq<nat>
    var settlements: seq<Settlement>

    /** This side's part of the net. */
    function View(): Net
      reads this
    {
      Net(listeners, settlements, map[])
    }

    constructor ()
      ensures View() == Silence
    {
      listeners, settlements := [], [];
    }

    method Request(conversationId: nat, message: Message) returns (sent: (nat, Message))
      modifies this
      ensures sent == (conversationId, message)
      ensures View() == SendCall(old(View()), conversationId, message).(calls := map[])
    {
      listeners := listeners + [conversationId];
      sent := (conversationId, message);
    }

    /** The listener that `Request` registered: only a message with its own id settles and unregisters it. */
    method Handler(conversationId: nat, messageId: nat, isOk: bool, response: string)
      modifies this
      ensures View() == OnMessage(old(View()), conversationId, messageId, Outcome(isOk, response))
    {
      if messageId != conversationId {
        return;
      }
      settlements := settlements + [Settlement(conversationId, messageId, Outcome(isOk, response))];
      listeners := Without(listeners, conversationId);
    }
  }

  lemma {:induction false} WithoutKeeps(ids: seq<nat>, id: nat)
    requires Distinct(ids)
    ensures Distinct(Without(ids, id))
    ensures forall k :: k in Without(ids, id) <==> k in ids && k != id
  {
    if ids != [] {
      var rest := Without(ids[1..], id);
      WithoutKeeps(ids[1..], id);
      assert forall k :: k in ids <==> k == ids[0] || k in ids[1..];
      if ids[0] != id {
        assert forall k :: k in [ids[0]] + rest <==> k == ids[0] || k in rest;
        assert ids[0] !in ids[1..];
      }
    }
  }

  lemma {:induction false} EmitSkips(n: Net, registered: seq<nat>, id: nat, o: Outcome)
    requires id !in registered
    ensures Emit(n, registered, id, o) == n
    decreases |registered|
  {
    if registered != [] {
      assert registered[0] in registered;
      EmitSkips(n, registered[1..], id, o);
    }
  }

  /** Of all the listeners that are called, only the one with the message's own id does anything. */
  lemma {:induction false} EmitSettlesOne(n: Net, registered: seq<nat>, id: nat, o: Outcome)
    requires Distinct(registered)
    ensures Emit(n, registered, id, o) == if id in registered then OnMessage(n, id, id, o) else n
    decreases |registered|
  {
    if registered != [] {
      if registered[0] == id {
        assert id !in registered[1..];
        EmitSkips(OnMessage(n, id, id, o), registered[1..], id, o);
      } else {
        EmitSettlesOne(n, registered[1..], id, o);
      }
    }
  }

  /** A call is unsettled exactly as long as its answer has not been delivered, and was settled by its own answer. */
  ghost predicate Inv(n: Net) {
    && Faithful(n)
    && Promises(n)
    && (forall id :: id in n.listeners <==> IsOutstanding(n, id))
    && (forall i :: 0 <= i < |n.settlements| ==> OwnAnswer(n, n.settlements[i]))
  }

  predicate OwnAnswer(n: Net, s: Settlement) {
    s.listener == s.answerTo && Computed(n, s.listener, s.outcome)
  }

  lemma DeliverShape(n: Net, id: nat)
    requires Inv(n) && IsResponding(n, id)
    ensures DeliverResponse(n, id) == OnMessage(EndCall(n, id), id, id, n.calls[id].stage.outcome)
    ensures Distinct(Without(n.listeners, id))
    ensures forall k :: k in Without(n.listeners, id) <==> k in n.listeners && k != id
  {
    assert id in n.listeners;
    EmitSettlesOne(EndCall(n, id), n.listeners, id, n.calls[id].stage.outcome);
    WithoutKeeps(n.listeners, id);
  }

  lemma DeliverKeeps(n: Net, id: nat)
    requires Inv(n) && IsResponding(n, id)
    ensures Inv(DeliverResponse(n, id))
  {
    DeliverShape(n, id);
    var n', s := DeliverResponse(n, id), Settlement(id, id, n.calls[id].stage.outcome);
    assert n'.settlements == n.settlements + [s];
    forall k ensures IsSettled(n', k) <==> IsSettled(n, k) || k == id {
      assert n'.settlements[|n.settlements|] == s;
      if i :| 0 <= i < |n.settlements| && n.settlements[i].listener == k {
        assert n'.settlements[i].listener == k;
      }
    }
    assert id in n.listeners && !IsSettled(n, id);
    forall i, j | 0 <= i < j < |n'.settlements| ensures n'.settlements[i].listener != n'.settlements[j].listener {
      if j == |n.settlements| {
        assert IsSettled(n, n.settlements[i].listener);
      }
    }
  }

  lemma CallKeepsInv(n: Net, id: nat, m: Message)
    requires Inv(n) && id !in n.calls
    ensures Inv(SendCall(n, id, m))
  {
    CallKeeps(n, id, m);
    var n' := SendCall(n, id, m);
    assert forall k :: k in n'.listeners <==> k in n.listeners || k == id;
    forall i | 0 <= i < |n.settlements| ensures OwnAnswer(n', n.settlements[i]) {
      assert OwnAnswer(n, n.settlements[i]);
    }
  }

  lemma MoveKeepsInv(n: Net, id: nat, stage: Stage)
    requires Inv(n) && id in n.calls
    requires || (n.calls[id].stage.Travelling? && stage == Handling(n.calls[id].asked))
             || (n.calls[id].stage.Handling? && stage.Responding? && stage.given == n.calls[id].asked)
    ensures Inv(Move(n, id, stage))
  {
    MoveKeeps(n, id, stage);
  }

  lemma NextKeeps(n: Net, e: Event)
    requires Inv(n) && Enabled(n, e)
    ensures Inv(Next(n, e))
  {
    match e
    case Call(id, m) => CallKeepsInv(n, id, m);
    case Accept(id) => MoveKeepsInv(n, id, Handling(n.calls[id].stage.wire));
    case Finish(id, o) => MoveKeepsInv(n, id, Responding(n.calls[id].stage.given, o));
    case Deliver(id) => DeliverKeeps(n, id);
  }

  lemma {:induction false} RunInv(es: seq<Event>)
    requires Legal(es)
    ensures Inv(Run(es))
    decreases |es|
  {
    if es != [] {
      RunInv(es[..|es| - 1]);
      NextKeeps(Run(es[..|es| - 1]), es[|es| - 1]);
    }
  }

  /** In every run, with any number of overlapping requests and responses in any order: each request is settled at
      most once, with exactly what the handler computed for its own message; the registered listeners are exactly the
      unsettled requests; and a request stays unsettled only while its own response is outstanding. */
  lemma RequestsAreSettledByTheirOwnResponse(es: seq<Event>)
    requires Legal(es)
    ensures var n := Run(es);
            && SettledOnce(n)
            && (forall i :: 0 <= i < |n.settlements| ==>
                  Computed(n, n.settlements[i].listener, n.settlements[i].outcome))
            && (forall id :: id in n.listeners <==> id in n.calls && !IsSettled(n, id))
            && (forall id :: id in n.calls ==> (IsSettled(n, id) <==> !IsOutstanding(n, id)))
  {
    RunInv(es);
  }
}
