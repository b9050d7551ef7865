/** Promises settled over electron IPC: what a requesting side and a responding side have between them. */
module IpcProtocol {

  type Message = string

  /** What a handler's promise came to, as it travels over the wire: `isOk` and the response or error. */
  datatype Outcome = Outcome(isOk: bool, response: string)

  /** `listener`'s promise was settled by the response that the handler computed for call `answerTo`. */
  datatype Settlement = Settlement(listener: nat, answerTo: nat, outcome: Outcome)

  /** How far a call has got; from `Handling` on, `given` is what the handler was called with. */
  datatype Stage =
    | Travelling(wire: Message)
    | Handling(given: Message)
    | Responding(given: Message, outcome: Outcome)
    | Over(given: Message, outcome: Outcome)

  datatype CallRecord = CallRecord(asked: Message, stage: Stage)

  /** Calls are numbered. In the conversation protocol the number is the uuid on the wire; in the channel protocol it is
      only bookkeeping, and no party can look at it. */
  datatype Net = Net(listeners: seq<nat>, settlements: seq<Settlement>, calls: map<nat, CallRecord>)

  const Silence: Net := Net([], [], map[])

  datatype Event =
    | Call(id: nat, message: Message)
    | Accept(id: nat)
    | Finish(id: nat, outcome: Outcome)
    | Deliver(id: nat)

  predicate IsResponding(n: Net, id: nat) {
    id in n.calls && n.calls[id].stage.Responding?
  }

  predicate Enabled(n: Net, e: Event) {
    match e
    case Call(id, _) => id !in n.calls
    case Accept(id) => id in n.calls && n.calls[id].stage.Travelling?
    case Finish(id, _) => id in n.calls && n.calls[id].stage.Handling?
    case Deliver(id) => IsResponding(n, id)
  }

  /** The call's own response has not been delivered yet. */
  predicate IsOutstanding(n: Net, id: nat) {
    id in n.calls && !n.calls[id].stage.Over?
  }

  ghost predicate IsSettled(n: Net, id: nat) {
    exists i :: 0 <= i < |n.settlements| && n.settlements[i].listener == id
  }

  /** The handler was given the call's own message and computed `o` for it. */
  predicate Computed(n: Net, id: nat, o: Outcome) {
    && id in n.calls
    && (n.calls[id].stage.Responding? || n.calls[id].stage.Over?)
    && n.calls[id].stage.given == n.calls[id].asked
    && n.calls[id].stage.outcome == o
  }

  function Move(n: Net, id: nat, stage: Stage): Net
    requires id in n.calls
  {
    n.(calls := n.calls[id := n.calls[id].(stage := stage)])
  }

  function SendCall(n: Net, id: nat, m: Message): Net {
    n.(listeners := n.listeners + [id], calls := n.calls[id := CallRecord(m, Travelling(m))])
  }

  // The responding side is the same in both protocols: it hands requests to the handler and answers in any order.

  function AcceptRequest(n: Net, id: nat): Net
    requires Enabled(n, Accept(id))
  {
    Move(n, id, Handling(n.calls[id].stage.wire))
  }

  function FinishHandling(n: Net, id: nat, o: Outcome): Net
    requires Enabled(n, Finish(id, o))
  {
    Move(n, id, Responding(n.calls[id].stage.given, o))
  }

  function EndCall(n: Net, id: nat): Net
    requires IsResponding(n, id)
  {
    Move(n, id, Over(n.calls[id].stage.given, n.calls[id].stage.outcome))
  }

  /** Messages reach the handler unchanged. */
  ghost predicate Faithful(n: Net) {
    forall id :: id in n.calls ==>
      (match n.calls[id].stage
       case Travelling(m) => m == n.calls[id].asked
       case Handling(m) => m == n.calls[id].asked
       case Responding(m, _) => m == n.calls[id].asked
       case Over(m, _) => m == n.calls[id].asked)
  }

  ghost predicate Distinct(ids: seq<nat>) {
    forall i, j :: 0 <= i < j < |ids| ==> ids[i] != ids[j]
  }

  /** Nobody is settled twice. */
  ghost predicate SettledOnce(n: Net) {
    forall i, j :: 0 <= i < j < |n.settlements| ==> n.settlements[i].listener != n.settlements[j].listener
  }

  /** The registered listeners are exactly the unsettled calls, each registered once and settled at most once. */
  ghost predicate Promises(n: Net) {
    && Distinct(n.listeners)
    && SettledOnce(n)
    && (forall id :: id in n.listeners <==> id in n.calls && !IsSettled(n, id))
    && (forall i :: 0 <= i < |n.settlements| ==> n.settlements[i].listener in n.calls)
  }

  lemma CallKeeps(n: Net, id: nat, m: Message)
    requires Faithful(n) && Promises(n) && id !in n.calls
    ensures Faithful(SendCall(n, id, m)) && Promises(SendCall(n, id, m))
  {
    var n' := SendCall(n, id, m);
    forall k ensures k in n'.listeners <==> k in n'.calls && !IsSettled(n', k) {
      assert IsSettled(n', k) <==> IsSettled(n, k);
      assert k in n'.listeners <==> k in n.listeners || k == id;
    }
  }

  lemma MoveKeeps(n: Net, id: nat, stage: Stage)
    requires Promises(n) && id in n.calls
    ensures Promises(Move(n, id, stage))
  {
    var n' := Move(n, id, stage);
    forall k ensures k in n'.listeners <==> k in n'.calls && !IsSettled(n', k) {
      assert IsSettled(n', k) <==> IsSettled(n, k);
    }
  }
}
