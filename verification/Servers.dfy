/**
What the server shows about tasks. It is untrusted and asynchronous: it may do
anything at any time, except take a fact back. A visible attempt stays visible,
an offer keeps its body, a terminal stays the same, and a requested
cancellation or an ended execution stays so.
*/
module Servers {
  import opened Json
  import opened Documents
  import opened Executions

  datatype Offer = Offer(deviceId: Text, payload: Value, delivered: bool)
  datatype Attempt = Attempt(taskId: Text, deviceId: Text, agentRef: Option<Value>)
  datatype Terminal = Terminal(taskId: Text, completed: bool, isSealed: bool, document: Option<Value>)

  datatype Server = Server(
    offers: map<Text, Offer>, attempts: map<Text, Attempt>, terminals: map<Text, Terminal>, cancels: set<Text>, ended: set<Text>)

  /** An offer is only readable through its attempt, and a device terminal only exists for an ended execution. */
  ghost predicate Consistent(s: Server)
  {
    s.offers.Keys <= s.attempts.Keys && s.terminals.Keys <= s.ended
  }

  predicate SameOffer(a: Offer, b: Offer)
  {
    b.deviceId == a.deviceId && b.payload == a.payload && (a.delivered ==> b.delivered)
  }

  ghost predicate Grows(a: Server, b: Server)
  {
    && Consistent(b)
    && (forall t :: t in a.offers ==> t in b.offers && SameOffer(a.offers[t], b.offers[t]))
    && (forall t :: t in a.attempts ==> t in b.attempts && b.attempts[t] == a.attempts[t])
    && (forall t :: t in a.terminals ==> t in b.terminals && b.terminals[t] == a.terminals[t])
    && a.cancels <= b.cancels && a.ended <= b.ended
  }

  /** The execution needs no further cancellation. */
  function Settled(s: Server): set<Text>
  {
    s.cancels + s.ended
  }

  /** A cancellation request; an execution that already ended takes none. */
  function Cancel(s: Server, t: Text): Server
  {
    if t in s.ended then s else s.(cancels := s.cancels + {t})
  }

  datatype OfferRead = NoOffer | Differs | Undelivered | WasDelivered

  /** `verifyOffer`: the persisted offer must be the reserved input, whatever its member order. */
  function ReadOffer(s: Server, input: Input): OfferRead
  {
    if input.taskId !in s.offers then NoOffer
    else
      var offer := s.offers[input.taskId];
      if offer.deviceId != input.deviceId || Canonical(offer.payload) != Canonical(input.payload) then Differs
      else if offer.delivered then WasDelivered else Undelivered
  }

  /** The offer of a task is the reserved input: same device, and the same JSON whatever its member order. */
  ghost predicate IsInput(offer: Offer, input: Input)
  {
    offer.deviceId == input.deviceId && SameJson(offer.payload, input.payload)
  }

  /** Which offers are taken for the reserved input. */
  lemma ReadOfferIsExact(s: Server, input: Input)
    requires WellFormed(input.payload) && (input.taskId in s.offers ==> WellFormed(s.offers[input.taskId].payload))
    ensures ReadOffer(s, input).NoOffer? <==> input.taskId !in s.offers
    ensures ReadOffer(s, input).Differs? <==> input.taskId in s.offers && !IsInput(s.offers[input.taskId], input)
    ensures ReadOffer(s, input).WasDelivered? <==>
      input.taskId in s.offers && IsInput(s.offers[input.taskId], input) && s.offers[input.taskId].delivered
  {
    hide Canonical, WellFormed, SameJson;
    if input.taskId in s.offers { CanonicalDecidesEquality(s.offers[input.taskId].payload, input.payload); }
  }

  function AgentRefOf(input: Input): Option<Value>
  {
    Get(input.payload, AGENT_REF)
  }

  /** The goal Host compares the two identity fields. */
  predicate SameAgent(a: Attempt, input: Input)
  {
    && a.taskId == input.taskId && a.deviceId == input.deviceId && a.agentRef.Some?
    && GetIn(a.agentRef, AGENT_ID) == GetIn(AgentRefOf(input), AGENT_ID)
    && GetIn(a.agentRef, PROFILE_REVISION) == GetIn(AgentRefOf(input), PROFILE_REVISION)
  }

  /** The clarification Host compares the whole reference by its canonical text. */
  predicate SameAgentText(a: Attempt, input: Input)
  {
    && a.deviceId == input.deviceId && a.agentRef.Some? && AgentRefOf(input).Some?
    && Canonical(a.agentRef.value) == Canonical(AgentRefOf(input).value)
  }

  datatype Sight = NothingYet | Mismatch | Sees(what: Observed)

  /** What the terminal read earlier and the attempt as it is now say together: cancellation intent wins. */
  function Observe(s: Server, input: Input, terminal: Option<Terminal>): Sight
  {
    if input.taskId !in s.attempts || input.taskId in s.cancels then Sees(SeenCancelled)
    else if terminal.None? then NothingYet
    else if terminal.value.taskId != input.taskId then Mismatch
    else if !terminal.value.completed then Sees(SeenFailed)
    else if terminal.value.isSealed then Mismatch
    else Sees(SeenComplete(terminal.value.document))
  }
}
