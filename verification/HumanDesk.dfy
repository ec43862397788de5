/**
 * Requests to people: one at a time per human agent, each posted to the
 * person's chat and ended by their answer, by a failure to reach the chat, or
 * by whoever asked no longer waiting. Answers are handed over under the
 * desk's lock.
 */
module HumanDesk {
  type AgentId = int
  type RequestId = int

  /** What a person sent, with the chat (or the peer) it came from. */
  datatype Answer = Answer(text: string, cancelled: bool, channel: string, chatId: string, peer: string)

  /** Why a request ended unanswered. */
  datatype Why = Undelivered | TimedOut | Withdrawn | ContextEnded

  datatype Result = Answered(answer: Answer) | NeverPosted | PublishFailed | Unanswered(why: Why)

  /** The goroutine in askHuman, named after its next action. */
  datatype Phase =
    | WaitingSlot
    | Posting              // has the agent's slot: checks the deadline, then registers
    | Publishing           // registered
    | FailClearing         // could not be published: unregister
    | Selecting
    | Clearing(why: Why)   // unregister
    | Looking(why: Why)    // an answer that arrived meanwhile still wins
    | Leaving(result: Result)   // give the slot back
    | Done(result: Result)

  /** A humanRequest with its goroutine. */
  datatype Request = Request(
    agent: AgentId, channel: string, chatId: string,
    accepted: seq<Answer>,   // answers for which answer reported true
    buffer: seq<Answer>,     // in its answer channel, which holds one
    phase: Phase)

  datatype State = State(
    slots: map<AgentId, RequestId>,     // whose token is in the agent's slot channel
    pending: map<AgentId, RequestId>,
    requests: map<RequestId, Request>)

  const Initial := State(map[], map[], map[])
  const ANSWER_PLACES := 1

  datatype Step =
    | Ask(r: RequestId, agent: AgentId, channel: string, chatId: string)
    | TakeSlot(r: RequestId)
    | GiveUpSlot(r: RequestId)              // gone or cancelled before its turn came
    | Register(r: RequestId, inTime: bool)  // set, unless the asker's deadline has passed
    | Publish(r: RequestId, ok: bool)
    | Receive(r: RequestId)
    | Stop(r: RequestId, why: Why)
    | Clear(r: RequestId)
    | Look(r: RequestId)
    | ReleaseSlot(r: RequestId)
    | TakeAnswer(agent: AgentId, a: Answer) // humanDesk.answer: anyone, any time

  // ---- Steps ----

  predicate SameChat(a: Answer, channel: string, chatId: string) {
    a.channel == channel && chatId != "" && (a.chatId == chatId || a.peer == chatId)
  }

  ghost predicate InSlot(p: Phase) { !p.WaitingSlot? && !p.Done? }

  /** Unregisters r, and only r. */
  function Cleared(pending: map<AgentId, RequestId>, agent: AgentId, r: RequestId): map<AgentId, RequestId> {
    if agent in pending && pending[agent] == r then pending - {agent} else pending
  }

  ghost predicate Can(s: State, step: Step) {
    match step
    case Ask(r, _, _, _) => r !in s.requests
    case TakeAnswer(agent, _) => agent in s.pending ==> s.pending[agent] in s.requests
    case _ =>
      step.r in s.requests &&
      MayOwn(s.requests[step.r], step) && (step.TakeSlot? ==> s.requests[step.r].agent !in s.slots)
  }

  ghost predicate MayOwn(q: Request, step: Step) {
    match step
    case TakeSlot(_) => q.phase.WaitingSlot?
    case GiveUpSlot(_) => q.phase.WaitingSlot?
    case Register(_, _) => q.phase.Posting?
    case Publish(_, _) => q.phase.Publishing?
    case Receive(_) => q.phase.Selecting? && q.buffer != []
    case Stop(_, _) => q.phase.Selecting?
    case Clear(_) => q.phase.Clearing? || q.phase.FailClearing?
    case Look(_) => q.phase.Looking?
    case ReleaseSlot(_) => q.phase.Leaving?
    case _ => false
  }

  ghost function Received(q: Request): Request
    requires q.buffer != []
  {
    q.(phase := Leaving(Answered(q.buffer[0])), buffer := q.buffer[1..])
  }

  /** What the goroutine's own request becomes. */
  ghost function Own(q: Request, step: Step): Request
    requires step.Receive? ==> q.buffer != []
  {
    match step
    case TakeSlot(_) => q.(phase := Posting)
    case GiveUpSlot(_) => q.(phase := Done(NeverPosted))
    case Register(_, inTime) => q.(phase := if inTime then Publishing else Leaving(NeverPosted))
    case Publish(_, ok) => q.(phase := if ok then Selecting else FailClearing)
    case Receive(_) => Received(q)
    case Stop(_, why) => q.(phase := Clearing(why))
    case Clear(_) => q.(phase := if q.phase.Clearing? then Looking(q.phase.why) else Leaving(PublishFailed))
    case Look(_) => if q.buffer != [] then Received(q) else if q.phase.Looking? then q.(phase := Leaving(Unanswered(q.phase.why))) else q
    case ReleaseSlot(_) => if q.phase.Leaving? then q.(phase := Done(q.phase.result)) else q
    case _ => q
  }

  ghost function Accepts(q: Request, a: Answer): Request { q.(accepted := q.accepted + [a], buffer := q.buffer + [a]) }

  ghost function Put(s: State, r: RequestId, q: Request): State { s.(requests := s.requests[r := q]) }

  ghost function Do(s: State, step: Step): State
    requires Can(s, step)
  {
    match step
    case Ask(r, agent, channel, chatId) => Put(s, r, Request(agent, channel, chatId, [], [], WaitingSlot))
    case TakeAnswer(agent, a) =>
      if agent in s.pending && SameChat(a, s.requests[s.pending[agent]].channel, s.requests[s.pending[agent]].chatId) then
        Put(s.(pending := s.pending - {agent}), s.pending[agent], Accepts(s.requests[s.pending[agent]], a))
      else s
    case _ =>
      var r, q := step.r, s.requests[step.r];
      var t := Put(s, r, Own(q, step));
      match step
      case TakeSlot(_) => t.(slots := s.slots[q.agent := r])
      case Register(_, inTime) => if inTime then t.(pending := s.pending[q.agent := r]) else t
      case Clear(_) => t.(pending := Cleared(s.pending, q.agent, r))
      case ReleaseSlot(_) => t.(slots := s.slots - {q.agent})
      case _ => t
  }

  // ---- The invariant ----

  ghost function Got(p: Phase): seq<Answer> {
    if (p.Leaving? || p.Done?) && p.result.Answered? then [p.result.answer] else []
  }

  ghost predicate FailedToPublish(p: Phase) { (p.Leaving? || p.Done?) && p.result.PublishFailed? }

  /** Registered, or registered until its answer came. */
  ghost predicate Open(p: Phase) { p.Publishing? || p.FailClearing? || p.Selecting? || p.Clearing? }

  /** What is true of one request; inSlot, isPending: the agent's slot and pending entry are its. */
  ghost predicate RequestOk(q: Request, inSlot: bool, isPending: bool) {
    (InSlot(q.phase) <==> inSlot)
    && q.accepted == q.buffer + Got(q.phase)
    && |q.accepted| <= 1
    && (forall a :: a in q.accepted ==> SameChat(a, q.channel, q.chatId))
    && (isPending ==> Open(q.phase))
    && (Open(q.phase) ==> (isPending <==> q.accepted == []))
    && (q.phase.WaitingSlot? || q.phase.Posting? ==> q.accepted == [])
    && (q.phase.Leaving? || q.phase.Done? ==> q.buffer == [] || FailedToPublish(q.phase))
  }

  ghost predicate At(m: map<AgentId, RequestId>, agent: AgentId, r: RequestId) { agent in m && m[agent] == r }

  ghost predicate Inv(s: State) {
    (forall r :: r in s.requests ==>
       RequestOk(s.requests[r], At(s.slots, s.requests[r].agent, r), At(s.pending, s.requests[r].agent, r)))
    && (forall agent :: agent in s.pending ==> s.pending[agent] in s.requests && s.requests[s.pending[agent]].agent == agent)
    && forall agent :: agent in s.slots ==> s.slots[agent] in s.requests && s.requests[s.slots[agent]].agent == agent
  }

  /** The request alone: its slot and its pending entry change as the step says. */
  lemma OwnKeeps(q: Request, step: Step, inSlot: bool, isPending: bool)
    requires RequestOk(q, inSlot, isPending) && MayOwn(q, step)
    ensures RequestOk(Own(q, step),
                      if step.TakeSlot? then true else if step.ReleaseSlot? then false else inSlot,
                      if step.Register? && step.inTime then true else if step.Clear? then false else isPending)
  {
    hide SameChat;
    match step {
      case Receive(_) => ReceivedOk(q);
      case Look(_) => if q.buffer != [] { ReceivedOk(q); }
      case _ =>
    }
  }

  lemma OwnStep(s: State, step: Step)
    requires Inv(s) && Can(s, step) && !step.Ask? && !step.TakeAnswer?
    ensures var s', r := Do(s, step), step.r;
      r in s'.requests && s'.requests[r].agent == s.requests[r].agent
      && RequestOk(s'.requests[r], At(s'.slots, s'.requests[r].agent, r), At(s'.pending, s'.requests[r].agent, r))
  {
    var q, r := s.requests[step.r], step.r;
    OwnKeeps(q, step, At(s.slots, q.agent, r), At(s.pending, q.agent, r));
    hide RequestOk, Inv, MayOwn;
  }

  lemma ReceivedOk(q: Request)
    requires q.buffer != [] && |q.accepted| <= 1 && q.accepted == q.buffer + Got(q.phase)
    ensures Received(q).buffer == [] && q.accepted == Received(q).buffer + Got(Received(q).phase)
  {
  }

  /** A goroutine's step shows no other request anything: one agent's slot and pending entry are one request's. */
  lemma OthersUntouched(s: State, step: Step, r: RequestId)
    requires Inv(s) && Can(s, step) && !step.Ask? && !step.TakeAnswer? && r in s.requests && r != step.r
    ensures var s' := Do(s, step);
      r in s'.requests && s'.requests[r] == s.requests[r]
      && At(s'.slots, s.requests[r].agent, r) == At(s.slots, s.requests[r].agent, r)
      && At(s'.pending, s.requests[r].agent, r) == At(s.pending, s.requests[r].agent, r)
  {
    var q, p := s.requests[step.r], s.requests[r];
    assert RequestOk(q, At(s.slots, q.agent, step.r), At(s.pending, q.agent, step.r));
    assert RequestOk(p, At(s.slots, p.agent, r), At(s.pending, p.agent, r));
    hide SameChat, Inv, Own;
  }

  lemma AnswerStep(s: State, step: Step)
    requires Inv(s) && Can(s, step) && (step.Ask? || step.TakeAnswer?)
    ensures Inv(Do(s, step))
  {
    if step.TakeAnswer? && step.agent in s.pending {
      var r := s.pending[step.agent];
      assert RequestOk(s.requests[r], At(s.slots, s.requests[r].agent, r), true);
    }
    hide SameChat;
  }

  lemma StepKeepsInv(s: State, step: Step)
    requires Inv(s) && Can(s, step)
    ensures Inv(Do(s, step))
  {
    if step.Ask? || step.TakeAnswer? {
      AnswerStep(s, step);
    } else {
      var s' := Do(s, step);
      OwnStep(s, step);
      forall r | r in s'.requests && r != step.r ensures r in s.requests && s'.requests[r] == s.requests[r]
        && RequestOk(s'.requests[r], At(s'.slots, s'.requests[r].agent, r), At(s'.pending, s'.requests[r].agent, r))
      {
        OthersUntouched(s, step, r);
      }
      hide RequestOk, Own;
    }
  }

  // ---- Whole runs ----

  ghost predicate IsRun(run: seq<State>) {
    |run| > 0 && run[0] == Initial && forall i :: 0 <= i < |run| - 1 ==> Follows(run[i], run[i + 1])
  }

  ghost predicate Follows(s: State, s': State) { exists step :: Can(s, step) && s' == Do(s, step) }

  lemma {:induction false} RunKeepsInv(run: seq<State>, i: nat)
    requires IsRun(run) && i < |run|
    ensures Inv(run[i])
  {
    if i > 0 {
      RunKeepsInv(run, i - 1);
      assert Follows(run[i - 1], run[i]);
      var step :| Can(run[i - 1], step) && run[i] == Do(run[i - 1], step);
      StepKeepsInv(run[i - 1], step);
    }
  }

  /** A person has one request at a time, the registered one among them. */
  lemma OneRequestAtATime(run: seq<State>, i: nat, r: RequestId, t: RequestId)
    requires IsRun(run) && i < |run| && r in run[i].requests && t in run[i].requests
    requires InSlot(run[i].requests[r].phase) && InSlot(run[i].requests[t].phase)
    requires run[i].requests[r].agent == run[i].requests[t].agent
    ensures r == t
  {
    RunKeepsInv(run, i);
    assert RequestOk(run[i].requests[r], At(run[i].slots, run[i].requests[r].agent, r), At(run[i].pending, run[i].requests[r].agent, r));
    assert RequestOk(run[i].requests[t], At(run[i].slots, run[i].requests[t].agent, t), At(run[i].pending, run[i].requests[t].agent, t));
  }

  /** The send under the lock never blocks: a registered request's channel is empty. */
  lemma AnsweringNeverBlocks(run: seq<State>, i: nat, agent: AgentId)
    requires IsRun(run) && i < |run| && agent in run[i].pending
    ensures run[i].pending[agent] in run[i].requests && |run[i].requests[run[i].pending[agent]].buffer| < ANSWER_PLACES
  {
    RunKeepsInv(run, i);
    var r := run[i].pending[agent];
    assert RequestOk(run[i].requests[r], At(run[i].slots, agent, r), At(run[i].pending, agent, r));
  }

  /**
   * A request takes one answer at most, and what it takes came from its own
   * chat and is what it returns: unless the request could not be published,
   * the one case in which an answer is taken and not returned.
   */
  lemma AcceptedIsReturnedIff(run: seq<State>, i: nat, r: RequestId)
    requires IsRun(run) && i < |run| && r in run[i].requests && run[i].requests[r].phase.Done?
    ensures var q := run[i].requests[r];
      |q.accepted| <= 1
      && (forall a :: a in q.accepted ==> a.channel == q.channel && q.chatId != "" && (a.chatId == q.chatId || a.peer == q.chatId))
      && (q.phase.result.Answered? ==> q.accepted == [q.phase.result.answer])
      && (q.accepted != [] ==> (q.phase.result == Answered(q.accepted[0]) <==> !q.phase.result.PublishFailed?))
  {
    RunKeepsInv(run, i);
    var q := run[i].requests[r];
    assert RequestOk(q, At(run[i].slots, q.agent, r), At(run[i].pending, q.agent, r));
  }

  /** An answer is taken exactly when it comes from the pending request's own chat; any other changes nothing. */
  lemma TakenFromItsChatIff(s: State, agent: AgentId, a: Answer)
    requires Inv(s) && agent in s.pending
    ensures Can(s, TakeAnswer(agent, a))
    ensures var r, s' := s.pending[agent], Do(s, TakeAnswer(agent, a));
      var q := s.requests[r];
      if a.channel == q.channel && q.chatId != "" && (a.chatId == q.chatId || a.peer == q.chatId)
      then s' == State(s.slots, s.pending - {agent}, s.requests[r := q.(accepted := [a], buffer := [a])])
      else s' == s
  {
    PendingHasSlot(s, agent);
    var r := s.pending[agent];
    var q := s.requests[r];
    assert q.accepted == [] && q.buffer == [] by { assert RequestOk(q, At(s.slots, agent, r), true); }
    assert Accepts(q, a) == q.(accepted := [a], buffer := [a]);
    hide Inv;
  }

  /** What the select receives is the answer accepted, and is returned. */
  lemma ReceivedIsReturned(s: State, r: RequestId)
    requires Inv(s) && Can(s, Receive(r))
    ensures var q := s.requests[r]; |q.accepted| == 1 && Do(s, Receive(r)).requests[r].phase == Leaving(Answered(q.accepted[0]))
  {
    assert RequestOk(s.requests[r], At(s.slots, s.requests[r].agent, r), At(s.pending, s.requests[r].agent, r));
    hide Inv, SameChat;
  }

  /** A request given up before its turn, or after the asker's deadline, was never posted. */
  lemma NotPostedIsToldSo(s: State, step: Step)
    requires Can(s, step) && (step.GiveUpSlot? || (step.Register? && !step.inTime))
    ensures Do(s, step).requests[step.r].phase == (if step.GiveUpSlot? then Done(NeverPosted) else Leaving(NeverPosted))
    ensures Do(s, step).pending == s.pending && Do(s, step).slots == s.slots
  {
  }

  /** A wait that ends for a reason, with no answer meanwhile, ends with that reason, and the slot and the entry are free again. */
  lemma UnansweredForItsReason(s: State, r: RequestId, why: Why)
    requires Inv(s) && Can(s, Stop(r, why)) && s.requests[r].accepted == []
    ensures var stopped := Do(s, Stop(r, why));
      Can(stopped, Clear(r))
      && var cleared := Do(stopped, Clear(r));
         Can(cleared, Look(r))
         && var looked := Do(cleared, Look(r));
            Can(looked, ReleaseSlot(r))
            && var ended := Do(looked, ReleaseSlot(r));
               ended.requests[r].phase == Done(Unanswered(why))
               && s.requests[r].agent !in ended.slots && s.requests[r].agent !in ended.pending
  {
    var q := s.requests[r];
    assert RequestOk(q, At(s.slots, q.agent, r), At(s.pending, q.agent, r));
    hide RequestOk, SameChat;
  }

  // ---- An answer that is lost ----

  ghost predicate Reachable(s: State) { exists run :: IsRun(run) && run[|run| - 1] == s }

  lemma Then(s: State, step: Step)
    requires Reachable(s) && Can(s, step)
    ensures Reachable(Do(s, step))
  {
    var run :| IsRun(run) && run[|run| - 1] == s;
    var run' := run + [Do(s, step)];
    assert Follows(s, Do(s, step));
    assert IsRun(run');
  }

  lemma RegisteredFirst() returns (s: State)
    ensures Reachable(s) && s == State(map[0 := 0], map[0 := 0], map[0 := Request(0, "c", "d", [], [], Publishing)])
  {
    Start();
    s := Initial;
    hide Reachable;
    Then(s, Ask(0, 0, "c", "d"));
    s := Do(s, Ask(0, 0, "c", "d"));
    Then(s, TakeSlot(0));
    s := Do(s, TakeSlot(0));
    Then(s, Register(0, true));
    s := Do(s, Register(0, true));
  }

  /** The answer comes after the request is registered, and then publishing it fails. */
  lemma AnswerLostWhenPublishFails() returns (s: State)
    ensures Reachable(s) && 0 in s.requests && s.requests[0].accepted != [] && s.requests[0].phase == Done(PublishFailed)
  {
    s := RegisteredFirst();
    hide Reachable;
    var a := Answer("yes", false, "c", "d", "");
    Then(s, TakeAnswer(0, a));
    s := Do(s, TakeAnswer(0, a));
    Then(s, Publish(0, false));
    s := Do(s, Publish(0, false));
    Then(s, Clear(0));
    s := Do(s, Clear(0));
    Then(s, ReleaseSlot(0));
    s := Do(s, ReleaseSlot(0));
  }

  lemma Start()
    ensures Reachable(Initial)
  {
    assert IsRun([Initial]) && [Initial][|[Initial]| - 1] == Initial;
  }

  // ---- In place ----

  class Desk {
    var pending: map<AgentId, RequestId>
    var answers: map<RequestId, seq<Answer>>   // each request's answer channel
    ghost var model: State

    ghost predicate Valid()
      reads this
    {
      Inv(model) && pending == model.pending
      && forall r :: r in model.requests ==> r in answers && answers[r] == model.requests[r].buffer
    }

    constructor ()
      ensures Valid() && model == Initial
    {
      pending, answers, model := map[], map[], Initial;
    }

    /** set */
    method Set(agent: AgentId, r: RequestId)
      requires Valid() && Can(model, Register(r, true)) && model.requests[r].agent == agent
      modifies this
      ensures Valid() && model == Do(old(model), Register(r, true)) && pending == old(pending)[agent := r]
      ensures agent !in old(pending)
    {
      StepKeepsInv(model, Register(r, true));
      NothingElsePending(model, r);
      pending := pending[agent := r];
      model := Do(model, Register(r, true));
    }

    /** clear */
    method ClearRequest(agent: AgentId, r: RequestId)
      requires Valid() && Can(model, Clear(r)) && model.requests[r].agent == agent
      modifies this
      ensures Valid() && model == Do(old(model), Clear(r)) && pending == Cleared(old(pending), agent, r)
    {
      StepKeepsInv(model, Clear(r));
      if agent in pending && pending[agent] == r {
        pending := pending - {agent};
      }
      model := Do(model, Clear(r));
    }

    /** answer */
    method AnswerRequest(agent: AgentId, channel: string, chatId: string, a: Answer) returns (taken: bool)
      requires Valid()
      requires agent in pending ==> channel == model.requests[pending[agent]].channel && chatId == model.requests[pending[agent]].chatId
      modifies this
      ensures Valid() && model == Do(old(model), TakeAnswer(agent, a))
      ensures taken <==> agent in old(pending) && a.channel == channel && chatId != "" && (a.chatId == chatId || a.peer == chatId)
      ensures taken ==> pending == old(pending) - {agent} && answers[old(pending)[agent]] == [a]
      ensures !taken ==> pending == old(pending) && answers == old(answers)
    {
      StepKeepsInv(model, TakeAnswer(agent, a));
      taken := agent in pending && SameChat(a, channel, chatId);
      if taken {
        var r := pending[agent];
        PendingHasSlot(model, agent);
        pending := pending - {agent};
        answers := answers[r := answers[r] + [a]];
      }
      model := Do(model, TakeAnswer(agent, a));
    }
  }

  lemma NothingElsePending(s: State, r: RequestId)
    requires Inv(s) && Can(s, Register(r, true))
    ensures s.requests[r].agent !in s.pending
  {
    var agent := s.requests[r].agent;
    assert RequestOk(s.requests[r], At(s.slots, agent, r), At(s.pending, agent, r));
    if agent in s.pending { PendingHasSlot(s, agent); }
  }

  lemma PendingHasSlot(s: State, agent: AgentId)
    requires Inv(s) && agent in s.pending
    ensures var r := s.pending[agent];
      At(s.slots, agent, r) && Open(s.requests[r].phase) && s.requests[r].buffer == []
  {
    var r := s.pending[agent];
    assert RequestOk(s.requests[r], At(s.slots, agent, r), At(s.pending, agent, r));
  }
}
