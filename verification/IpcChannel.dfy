/** source/common/ipc/lib/IpcChannel.js: all calls share one response channel, and every pending one-shot listener
    takes the next response, whoever it was meant for. */
module IpcChannels {
  import opened IpcProtocol
  import C = IpcConversations

  /** The receiver removes the one-shot listeners and calls them all. */
  function SettleAll(listeners: seq<nat>, answerTo: nat, o: Outcome): seq<Settlement> {
    if listeners == [] then [] else [Settlement(listeners[0], answerTo, o)] + SettleAll(listeners[1..], answerTo, o)
  }

  function FireAll(n: Net, answerTo: nat, o: Outcome): Net {
    n.(listeners := [], settlements := n.settlements + SettleAll(n.listeners, answerTo, o))
  }

  function DeliverResponse(n: Net, id: nat): Net
    requires IsResponding(n, id)
  {
    FireAll(EndCall(n, id), id, n.calls[id].stage.outcome)
  }

  function Next(n: Net, e: Event): Net
    requires Enabled(n, e)
  {
    match e
    case Call(id, m) => SendCall(n, id, m)
    case Accept(id) => AcceptRequest(n, id)
    case Finish(id, o) => FinishHandling(n, id, o)
    case Deliver(id) => DeliverResponse(n, id)
  }

  ghost predicate Legal(es: seq<Event>)
    decreases |es|, 0
  {
    es == [] || (Legal(es[..|es| - 1]) && Enabled(Run(es[..|es| - 1]), es[|es| - 1]))
  }

  ghost function Run(es: seq<Event>): Net
    requires Legal(es)
    decreases |es|, 1
  {
    if es == [] then Silence else Next(Run(es[..|es| - 1]), es[|es| - 1])
  }

  /** The requesting side as an object: `send` and `request` register a one-shot listener on the response channel. */
  class IpcChannel {
    var listeners: seq<nat>
    var settlements: seq<Settlement>

    /** This side's part of the net. */
    function View(): Net
      reads this
    {
      Net(listeners, settlements, map[])
    }

    constructor ()
      ensures View() == Silence
    {
      listeners, settlements := [], [];
    }

    method Send(call: nat, message: Message) returns (sent: Message)
      modifies this
      ensures sent == message
      ensures View() == SendCall(old(View()), call, message).(calls := map[])
    {
      sent := message;
      listeners := listeners + [call];
    }

    /** A response arrives: every one-shot listener fires. `answerTo` is bookkeeping only. */
    method Respond(answerTo: nat, isOk: bool, response: string)
      modifies this
      ensures View() == FireAll(old(View()), answerTo, Outcome(isOk, response))
    {
      settlements := settlements + SettleAll(listeners, answerTo, Outcome(isOk, response));
      listeners := [];
    }
  }

  lemma {:induction false} SettleAllAt(listeners: seq<nat>, answerTo: nat, o: Outcome)
    ensures |SettleAll(listeners, answerTo, o)| == |listeners|
    ensures forall i :: 0 <= i < |listeners| ==>
            SettleAll(listeners, answerTo, o)[i] == Settlement(listeners[i], answerTo, o)
  {
    if listeners != [] {
      SettleAllAt(listeners[1..], answerTo, o);
    }
  }

  /** Every unsettled call's own response is still outstanding, and every settlement reports an outcome the handler
      computed. */
  ghost predicate Inv(n: Net) {
    && Faithful(n)
    && Promises(n)
    && (forall id :: id in n.listeners ==> IsOutstanding(n, id))
    && (forall i :: 0 <= i < |n.settlements| ==> Computed(n, n.settlements[i].answerTo, n.settlements[i].outcome))
  }

  lemma AllSettled(n: Net, id: nat, k: nat)
    requires Inv(n) && IsResponding(n, id)
    ensures IsSettled(DeliverResponse(n, id), k) <==> k in n.calls
  {
    var n', m := DeliverResponse(n, id), |n.settlements|;
    SettleAllAt(n.listeners, id, n.calls[id].stage.outcome);
    if k in n.listeners {
      var i :| 0 <= i < |n.listeners| && n.listeners[i] == k;
      assert n'.settlements[m + i].listener == k;
    } else if IsSettled(n, k) {
      var i :| 0 <= i < m && n.settlements[i].listener == k;
      assert n'.settlements[i].listener == k;
    }
    if i :| 0 <= i < |n'.settlements| && n'.settlements[i].listener == k {
      if i >= m {
        assert n.listeners[i - m] in n.listeners;
      }
    }
  }

  lemma SettlesOnce(n: Net, id: nat)
    requires Inv(n) && IsResponding(n, id)
    ensures SettledOnce(DeliverResponse(n, id))
    ensures var n' := DeliverResponse(n, id);
            forall i :: 0 <= i < |n'.settlements| ==> n'.settlements[i].listener in n'.calls
  {
    var n', m := DeliverResponse(n, id), |n.settlements|;
    SettleAllAt(n.listeners, id, n.calls[id].stage.outcome);
    forall i, j | 0 <= i < j < |n'.settlements| ensures n'.settlements[i].listener != n'.settlements[j].listener {
      if i < m <= j {
        assert IsSettled(n, n.settlements[i].listener);
        assert n.listeners[j - m] in n.listeners;
      }
    }
    forall i | 0 <= i < |n'.settlements| ensures n'.settlements[i].listener in n'.calls {
      if i >= m {
        assert n.listeners[i - m] in n.listeners;
      }
    }
  }

  lemma AnswersStayComputed(n: Net, id: nat)
    requires Inv(n) && IsResponding(n, id)
    ensures var n' := DeliverResponse(n, id);
            forall i :: 0 <= i < |n'.settlements| ==>
                Computed(n', n'.settlements[i].answerTo, n'.settlements[i].outcome)
  {
    var n' := DeliverResponse(n, id);
    SettleAllAt(n.listeners, id, n.calls[id].stage.outcome);
    forall i | 0 <= i < |n'.settlements| ensures Computed(n', n'.settlements[i].answerTo, n'.settlements[i].outcome) {
      if i < |n.settlements| {
        assert Computed(n, n.settlements[i].answerTo, n.settlements[i].outcome);
      } else {
        assert n'.settlements[i].answerTo == id;
      }
    }
  }

  lemma DeliverKeeps(n: Net, id: nat)
    requires Inv(n) && IsResponding(n, id)
    ensures Inv(DeliverResponse(n, id))
  {
    SettlesOnce(n, id);
    AnswersStayComputed(n, id);
    forall k ensures k in n.calls ==> IsSettled(DeliverResponse(n, id), k) {
      AllSettled(n, id, k);
    }
  }

  lemma CallKeepsInv(n: Net, id: nat, m: Message)
    requires Inv(n) && id !in n.calls
    ensures Inv(SendCall(n, id, m))
  {
    CallKeeps(n, id, m);
    assert forall k :: k in SendCall(n, id, m).listeners <==> k in n.listeners || k == id;
  }

  lemma MoveKeepsInv(n: Net, id: nat, stage: Stage)
    requires Inv(n) && id in n.calls
    requires || (n.calls[id].stage.Travelling? && stage == Handling(n.calls[id].asked))
             || (n.calls[id].stage.Handling? && stage.Responding? && stage.given == n.calls[id].asked)
    ensures Inv(Move(n, id, stage))
  {
    MoveKeeps(n, id, stage);
    forall i | 0 <= i < |n.settlements|
      ensures Computed(Move(n, id, stage), n.settlements[i].answerTo, n.settlements[i].outcome)
    {
      assert Computed(n, n.settlements[i].answerTo, n.settlements[i].outcome);
    }
    MoveIsFaithful(n, id, stage);
  }

  lemma MoveIsFaithful(n: Net, id: nat, stage: Stage)
    requires Faithful(n) && id in n.calls
    requires (stage.Handling? || stage.Responding?) && stage.given == n.calls[id].asked
    ensures Faithful(Move(n, id, stage))
  {
  }

  lemma NextKeeps(n: Net, e: Event)
    requires Inv(n) && Enabled(n, e)
    ensures Inv(Next(n, e))
  {
    match e
    case Call(id, m) => CallKeepsInv(n, id, m);
    case Accept(id) => MoveKeepsInv(n, id, Handling(n.calls[id].stage.wire));
    case Finish(id, o) => MoveKeepsInv(n, id, Responding(n.calls[id].stage.given, o));
    case Deliver(id) => DeliverKeeps(n, id);
  }

  lemma {:induction false} RunInv(es: seq<Event>)
    requires Legal(es)
    ensures Inv(Run(es))
    decreases |es|
  {
    if es != [] {
      RunInv(es[..|es| - 1]);
      NextKeeps(Run(es[..|es| - 1]), es[|es| - 1]);
    }
  }

  /** No call is lost: in every run the listeners are the unsettled calls, every unsettled call's own response is still
      outstanding, no call is settled twice, and delivering any one response settles every call made so far, with that
      response, and leaves no listener. */
  lemma NoCallIsLost(es: seq<Event>, id: nat)
    requires Legal(es)
    ensures var n := Run(es);
            && SettledOnce(n)
            && (forall k :: k in n.listeners <==> k in n.calls && !IsSettled(n, k))
            && (forall k :: k in n.calls && !IsSettled(n, k) ==> IsOutstanding(n, k))
            && (IsResponding(n, id) ==> DeliverResponse(n, id).listeners == [])
            && (IsResponding(n, id) ==> forall k :: k in n.calls ==> IsSettled(DeliverResponse(n, id), k))
  {
    RunInv(es);
    var n := Run(es);
    if IsResponding(n, id) {
      forall k | k in n.calls ensures IsSettled(DeliverResponse(n, id), k) {
        AllSettled(n, id, k);
      }
    }
  }

  /** A delivered response does what matching by id would do exactly when the call it answers is the only one waiting,
      or, for a late response, when nobody is. */
  lemma DeliveryMatchesIffAlone(n: Net, id: nat)
    requires Inv(n) && IsResponding(n, id)
    ensures DeliverResponse(n, id) == C.DeliverResponse(n, id) <==>
            n.listeners == (if id in n.listeners then [id] else [])
  {
    var o := n.calls[id].stage.outcome;
    C.EmitSettlesOne(EndCall(n, id), n.listeners, id, o);
    SettleAllAt(n.listeners, id, o);
    assert C.Without([id], id) == [];
    assert |DeliverResponse(n, id).settlements| == |n.settlements| + |n.listeners|;
    if DeliverResponse(n, id) == C.DeliverResponse(n, id) {
      if id in n.listeners {
        assert |n.listeners| == 1 && n.listeners[0] in n.listeners;
      }
    }
  }

  ghost predicate NoneOutstanding(n: Net) {
    forall k :: k in n.calls ==> !IsOutstanding(n, k)
  }

  /** At most one call is outstanding: nobody calls while an earlier call is unanswered. */
  ghost predicate OneAtATime(es: seq<Event>)
    requires Legal(es)
  {
    es == [] ||
    (OneAtATime(es[..|es| - 1]) &&
     (es[|es| - 1].Call? ==> NoneOutstanding(Run(es[..|es| - 1]))))
  }

  /** Either nothing is outstanding and nobody listens, or one call is and only its own listener is registered. */
  ghost predicate Alone(n: Net) {
    if n.listeners == [] then NoneOutstanding(n)
    else
      && |n.listeners| == 1 && n.listeners[0] in n.calls
      && forall k :: k in n.calls && IsOutstanding(n, k) ==> k == n.listeners[0]
  }

  lemma SerialDelivery(n: Net, id: nat)
    requires Inv(n) && Alone(n) && IsResponding(n, id)
    ensures DeliverResponse(n, id) == C.DeliverResponse(n, id) && Alone(DeliverResponse(n, id))
  {
    assert IsOutstanding(n, id);
    assert n.listeners == [id];
    DeliveryMatchesIffAlone(n, id);
  }

  lemma SerialCall(n: Net, id: nat, m: Message)
    requires Inv(n) && Alone(n) && NoneOutstanding(n) && id !in n.calls
    ensures Alone(SendCall(n, id, m))
  {
    assert n.listeners == [];
  }

  lemma SerialNext(n: Net, e: Event)
    requires Inv(n) && Alone(n) && Enabled(n, e)
    requires e.Call? ==> NoneOutstanding(n)
    ensures Next(n, e) == C.Next(n, e) && Alone(Next(n, e))
  {
    match e
    case Call(id, m) => SerialCall(n, id, m);
    case Accept(id) => assert IsOutstanding(n, id);
    case Finish(id, _) => assert IsOutstanding(n, id);
    case Deliver(id) => SerialDelivery(n, id);
  }

  /** Called one at a time, the shared channel is the id-correlated protocol: the same events lead to the same state. */
  lemma {:induction false} SerialChannelRefinesConversation(es: seq<Event>)
    requires Legal(es) && OneAtATime(es)
    ensures C.Legal(es) && Run(es) == C.Run(es) && Alone(Run(es))
    decreases |es|
  {
    if es != [] {
      SerialChannelRefinesConversation(es[..|es| - 1]);
      RunInv(es[..|es| - 1]);
      SerialNext(Run(es[..|es| - 1]), es[|es| - 1]);
    }
  }

  /** Two overlapping calls whose responses cross: both promises are settled by the response to the second. */
  lemma OverlappingCallsShareAResponse(m0: Message, m1: Message, o0: Outcome, o1: Outcome)
    ensures var n := SendCall(SendCall(Silence, 0, m0), 1, m1);
            var n1 := FinishHandling(AcceptRequest(n, 1), 1, o1);
            var n2 := FinishHandling(AcceptRequest(n1, 0), 0, o0);
            DeliverResponse(n2, 1).settlements == [Settlement(0, 1, o1), Settlement(1, 1, o1)]
  {
    SettleAllAt([0, 1], 1, o1);
  }
}
