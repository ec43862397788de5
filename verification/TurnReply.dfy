/**
 * How the end of a turn becomes what its sender gets.
 */
module TurnReply {
  import opened Common
  import opened Batching

  /** What an error (or the cause of a context's end) may be recognised as, however it is wrapped. */
  datatype Kind = AgentGone | HumanNotAsked | AskerStopped | HumanCancelled | HumanUnreachable | CancelledByUser

  datatype Failure = Failure(kinds: set<Kind>, text: string)

  const AGENT_MESSAGE_CHANNEL := "agent_message"
  const SYSTEM_CHANNEL := "system"

  const OUTCOME_OK := "ok"
  const OUTCOME_ERROR := "error"
  const OUTCOME_CANCELLED := "cancelled"
  const OUTCOME_EMPTY := "empty"
  const OUTCOME_PERSON_CANCELLED := "person_cancelled"
  const OUTCOME_PERSON_UNREACHABLE := "person_unreachable"

  const CANCELLED_TURN_TEXT := "\U{26A0}\U{FE0F} Cancelled by /cancel. Some steps may have completed \U{2014} ask me to continue if needed."

  /** How a turn ended. outcome is what it reported when it did not end in a plain reply. */
  datatype TurnEnd = TurnEnd(
    response: string,
    outcome: string,
    err: Option<Failure>,
    cause: set<Kind>,            // why its context ended; empty while it is live
    ask: bool,
    replyRequired: bool,
    fromPerson: bool,
    agentId: string)

  datatype Action = Send | TurnError | Drop | DropAskCancelled | DropPersonAskerStopped

  datatype Decision = Decision(action: Action, text: string, outcome: string)

  function AgentGoneText(agentId: string): string {
    if agentId == "" then "That agent no longer exists." else "Agent " + agentId + " no longer exists."
  }

  predicate Failed(end: TurnEnd, kind: Kind) { end.err.Some? && kind in end.err.value.kinds }

  /** decideTurnReply */
  function Decide(end: TurnEnd): Decision {
    if Failed(end, AgentGone) then
      if !end.replyRequired then Decision(Drop, "", "") else Decision(Send, AgentGoneText(end.agentId), OUTCOME_ERROR)
    else if Failed(end, HumanNotAsked) then
      if !end.replyRequired && !end.fromPerson then Decision(Drop, "", "")
      else Decision(Send, end.err.value.text, OUTCOME_ERROR)
    else if end.err.Some? && end.ask && AskerStopped in end.cause then Decision(DropAskCancelled, "", "")
    else if Failed(end, AskerStopped) then Decision(DropPersonAskerStopped, "", "")
    else if Failed(end, HumanCancelled) then Decision(Send, end.err.value.text, OUTCOME_CANCELLED)
    else if Failed(end, HumanUnreachable) then Decision(Send, end.err.value.text, OUTCOME_ERROR)
    else if end.err.Some? && CancelledByUser in end.cause then
      Decision(Send, CANCELLED_TURN_TEXT, OUTCOME_CANCELLED)
    else if end.err.Some? then Decision(TurnError, end.response, OUTCOME_ERROR)
    else if end.response == "" || end.outcome == OUTCOME_EMPTY then
      if end.replyRequired then Decision(Send, "", OUTCOME_EMPTY) else Decision(Send, end.response, OUTCOME_EMPTY)
    else if end.outcome == "" then Decision(Send, end.response, OUTCOME_OK)
    else Decision(Send, end.response, end.outcome)
  }

  predicate Dropped(d: Decision) { d.action.Drop? || d.action.DropAskCancelled? || d.action.DropPersonAskerStopped? }

  /** The asker stopped waiting, which only an asked turn learns. */
  predicate NobodyWaits(end: TurnEnd) { Failed(end, AskerStopped) || (end.ask && end.err.Some? && AskerStopped in end.cause) }

  /** A required reply is dropped exactly when its asker is gone and the addressed agent did exist and take the question. */
  lemma RequiredIsDroppedIff(end: TurnEnd)
    requires end.replyRequired
    ensures Dropped(Decide(end)) <==> NobodyWaits(end) && !Failed(end, AgentGone) && !Failed(end, HumanNotAsked)
  {
  }

  /** What is not dropped has an outcome: a failed turn's is an error or a cancellation, another's is ok, empty or what the turn reported. */
  lemma OutcomeTellsFailure(end: TurnEnd)
    requires !Dropped(Decide(end))
    ensures var d := Decide(end);
      d.outcome != ""
      && (end.err.Some? ==> d.outcome in {OUTCOME_ERROR, OUTCOME_CANCELLED})
      && (end.err.None? ==> d.outcome in {OUTCOME_OK, OUTCOME_EMPTY, end.outcome})
      && (d.outcome == OUTCOME_OK && end.outcome != OUTCOME_OK ==> d.text == end.response && d.text != "")
  {
  }

  /** The outcome an asker is given. */
  function AskReplyOutcome(err: Option<Failure>, outcome: string): string {
    if err.Some? && HumanCancelled in err.value.kinds then OUTCOME_PERSON_CANCELLED
    else if err.Some? && HumanUnreachable in err.value.kinds then OUTCOME_PERSON_UNREACHABLE
    else outcome
  }

  // ---- What goes out ----

  /** A message to a chat; answers is the arrival it replies to (the program has only its message id). */
  datatype Outbound = Outbound(answers: int, channel: string, chatId: string, messageId: string, text: string, outcome: string)

  /** A reply handed to askRegistry.deliver. */
  datatype AskReply = AskReply(askId: string, text: string, outcome: string)

  predicate Ordinary(m: Message) { m.channel != AGENT_MESSAGE_CHANNEL && m.channel != SYSTEM_CHANNEL }

  function EndOf(m: Message, end: TurnEnd): TurnEnd {
    end.(ask := m.channel == AGENT_MESSAGE_CHANNEL, replyRequired := ReplyRequired(m), fromPerson := !m.isInternal)
  }

  function TextOf(d: Decision, rendered: string): string { if d.action == TurnError then rendered else d.text }

  /** What a turn on m that ended in end publishes to a chat: one message at most. */
  function FinalReply(m: Message, end: TurnEnd, rendered: string, roundSent: bool): seq<Outbound> {
    var d := Decide(EndOf(m, end));
    var text := TextOf(d, rendered);
    if Dropped(d) || !Ordinary(m) || (!ReplyRequired(m) && (text == "" || roundSent)) then []
    else [Outbound(m.arrival, m.channel, m.chatId, m.messageId, text, d.outcome)]
  }

  /** A required reply to an ordinary chat goes out, to that chat, however the turn ended, even when something was sent already; its outcome tells whether the turn failed. */
  lemma RequiredIsAnsweredIff(m: Message, end: TurnEnd, rendered: string, roundSent: bool)
    requires ReplyRequired(m) && Ordinary(m)
    ensures var sent, e := FinalReply(m, end, rendered, roundSent), EndOf(m, end);
      (sent == [] <==> Failed(e, AskerStopped) && !Failed(e, AgentGone) && !Failed(e, HumanNotAsked))
      && (sent != [] ==> |sent| == 1 && sent[0].answers == m.arrival && sent[0].channel == m.channel
                         && sent[0].chatId == m.chatId && sent[0].messageId == m.messageId && sent[0].outcome != ""
                         && (end.err.Some? ==> sent[0].outcome in {OUTCOME_ERROR, OUTCOME_CANCELLED})
                         && (end.err.None? ==> sent[0].outcome in {OUTCOME_OK, OUTCOME_EMPTY, end.outcome}))
  {
    var e := EndOf(m, end);
    RequiredIsDroppedIff(e);
    if !Dropped(Decide(e)) { OutcomeTellsFailure(e); }
    hide Decide, ReplyRequired;
  }

  function To(m: Message, text: string, outcome: string): seq<Outbound> {
    [Outbound(m.arrival, m.channel, m.chatId, m.messageId, text, outcome)]
  }

  /**
   * What a chat gets when its turn did not fail: the response, with the
   * outcome the turn reported or ok; if there is none, the bare outcome and
   * only where a reply is required. Text sent during the turn stands for the
   * reply unless one is required.
   */
  lemma AnsweredTurn(m: Message, end: TurnEnd, rendered: string, roundSent: bool)
    requires Ordinary(m) && end.err.None?
    ensures var sent, sends := FinalReply(m, end, rendered, roundSent), ReplyRequired(m) || !roundSent;
      (end.response != "" && end.outcome == "" && sends ==> sent == To(m, end.response, "ok"))
      && (end.response != "" && end.outcome != "" && end.outcome != "empty" && sends ==> sent == To(m, end.response, end.outcome))
      && (end.response != "" && end.outcome == "empty" && !ReplyRequired(m) && !roundSent ==> sent == To(m, end.response, "empty"))
      && ((end.response == "" || end.outcome == "empty") && ReplyRequired(m) ==> sent == To(m, "", "empty"))
      && (!ReplyRequired(m) && (end.response == "" || roundSent) ==> sent == [])
  {
    hide ReplyRequired;
  }

  /** An error that is no more than one: not of an agent or a person that the caller is told about by name. */
  predicate Plain(end: TurnEnd) { end.err.Some? && end.err.value.kinds !! {AgentGone, HumanNotAsked, AskerStopped, HumanCancelled, HumanUnreachable} }

  /** What a chat gets when its turn failed: the error as rendered for it, or that /cancel ended the turn. */
  lemma FailedTurn(m: Message, end: TurnEnd, rendered: string, roundSent: bool)
    requires Ordinary(m) && Plain(end)
    ensures var sent, cancelled := FinalReply(m, end, rendered, roundSent), CancelledByUser in end.cause;
      (cancelled && (ReplyRequired(m) || !roundSent) ==> sent == To(m, CANCELLED_TURN_TEXT, "cancelled"))
      && (!cancelled && (ReplyRequired(m) || (rendered != "" && !roundSent)) ==> sent == To(m, rendered, "error"))
  {
    hide ReplyRequired;
  }

  /** What a chat gets when there was no agent, or a person, to answer. */
  lemma NobodyAnswered(m: Message, end: TurnEnd, rendered: string, roundSent: bool)
    requires Ordinary(m) && end.err.Some? && ReplyRequired(m)
    ensures var sent, kinds, text := FinalReply(m, end, rendered, roundSent), end.err.value.kinds, end.err.value.text;
      (AgentGone in kinds ==> sent == To(m, AgentGoneText(end.agentId), "error"))
      && (kinds == {HumanNotAsked} ==> sent == To(m, text, "error"))
      && (kinds == {AskerStopped} ==> sent == [])
      && (kinds == {HumanCancelled} ==> sent == To(m, text, "cancelled"))
      && (kinds == {HumanUnreachable} ==> sent == To(m, text, "error"))
  {
    hide ReplyRequired;
  }

  /** Without a required reply, a message to an agent that is gone is dropped, and so is claw's own to a person. */
  lemma DroppedQuietly(m: Message, end: TurnEnd, rendered: string, roundSent: bool)
    requires Ordinary(m) && end.err.Some? && !ReplyRequired(m)
    ensures var sent, kinds, text := FinalReply(m, end, rendered, roundSent), end.err.value.kinds, end.err.value.text;
      (AgentGone in kinds ==> sent == [])
      && (kinds == {HumanNotAsked} ==> sent == if m.isInternal || text == "" || roundSent then [] else To(m, text, "error"))
  {
    hide ReplyRequired;
  }

  // ---- What an asker gets ----

  /** What a turn on m that ended in end hands to its asker. */
  function AnswerToAsker(m: Message, end: TurnEnd, rendered: string): seq<AskReply> {
    var d := Decide(EndOf(m, end));
    if m.channel != AGENT_MESSAGE_CHANNEL || Dropped(d) then []
    else [AskReply(m.chatId, TextOf(d, rendered), AskReplyOutcome(end.err, d.outcome))]
  }

  /** The response as it is, the error as rendered, a person's refusal or absence by its own name; nothing once the asker has stopped waiting. */
  lemma AskerGets(m: Message, end: TurnEnd, rendered: string)
    requires m.channel == AGENT_MESSAGE_CHANNEL
    ensures var sent := AnswerToAsker(m, end, rendered);
      (end.err.None? && end.response != "" && end.outcome == "" ==> sent == [AskReply(m.chatId, end.response, "ok")])
      && (Plain(end) && end.cause == {} ==> sent == [AskReply(m.chatId, rendered, "error")])
      && (Plain(end) && AskerStopped in end.cause ==> sent == [])
      && (end.err.Some? && end.cause == {} ==>
            (end.err.value.kinds == {HumanCancelled} ==> sent == [AskReply(m.chatId, end.err.value.text, "person_cancelled")])
            && (end.err.value.kinds == {HumanUnreachable} ==> sent == [AskReply(m.chatId, end.err.value.text, "person_unreachable")])
            && (end.err.value.kinds == {AskerStopped} ==> sent == []))
  {
    hide ReplyRequired;
  }

  // ---- Messages /cancel drops before their turn ----

  const CANCELLED_TEXT := "\U{26A0}\U{FE0F} Cancelled by /cancel before it started."
  const CANCELLED_ASK_TEXT := "Cancelled by /cancel before it started."

  /** Ended before its turn could answer it, it gets a reply in its chat. */
  predicate OwesReply(m: Message) { ReplyRequired(m) && m.channel != AGENT_MESSAGE_CHANNEL }

  function CancelledReply(m: Message): seq<Outbound> {
    if OwesReply(m)
    then [Outbound(m.arrival, m.channel, m.chatId, m.messageId, CANCELLED_TEXT, OUTCOME_CANCELLED)] else []
  }

  function CancelledAskReply(m: Message): seq<AskReply> {
    if ReplyRequired(m) && m.channel == AGENT_MESSAGE_CHANNEL
    then [AskReply(m.chatId, CANCELLED_ASK_TEXT, OUTCOME_CANCELLED)] else []
  }

  function CancelledReplies(ms: seq<Message>): seq<Outbound> {
    if ms == [] then [] else CancelledReplies(ms[..|ms| - 1]) + CancelledReply(ms[|ms| - 1])
  }

  function CancelledAskReplies(ms: seq<Message>): seq<AskReply> {
    if ms == [] then [] else CancelledAskReplies(ms[..|ms| - 1]) + CancelledAskReply(ms[|ms| - 1])
  }

  lemma OneMoreCancelled(ms: seq<Message>, i: nat)
    requires i < |ms|
    ensures CancelledReplies(ms[..i + 1]) == CancelledReplies(ms[..i]) + CancelledReply(ms[i])
    ensures CancelledAskReplies(ms[..i + 1]) == CancelledAskReplies(ms[..i]) + CancelledAskReply(ms[i])
  {
    assert ms[..i + 1][..i] == ms[..i];
  }

  /** The replies to the arrival x. */
  ghost function RepliesTo(out: seq<Outbound>, x: int): nat {
    if out == [] then 0 else RepliesTo(out[..|out| - 1], x) + if out[|out| - 1].answers == x then 1 else 0
  }

  lemma {:induction false} RepliesAdd(a: seq<Outbound>, b: seq<Outbound>, x: int)
    ensures RepliesTo(a + b, x) == RepliesTo(a, x) + RepliesTo(b, x)
  {
    if b == [] {
      assert a + b == a;
    } else {
      assert (a + b)[..|a + b| - 1] == a + b[..|b| - 1];
      RepliesAdd(a, b[..|b| - 1], x);
    }
  }

  // ---- Turns that shutdown interrupts ----

  const SHUTDOWN_TEXT := "The request was cancelled because the service is shutting down."

  /** toPerson: the turn asks a person, and is not replayed after the restart as a model turn is. */
  function ShutdownReply(m: Message, toPerson: bool): seq<Outbound> {
    if toPerson && OwesReply(m) then [Outbound(m.arrival, m.channel, m.chatId, m.messageId, SHUTDOWN_TEXT, OUTCOME_CANCELLED)] else []
  }

  function ShutdownAskReply(m: Message, toPerson: bool): seq<AskReply> {
    if toPerson && m.channel == AGENT_MESSAGE_CHANNEL then [AskReply(m.chatId, SHUTDOWN_TEXT, OUTCOME_CANCELLED)] else []
  }

  // ---- One reply each ----

  /** What the last message adds to the replies to x. */
  lemma LastAdds(ms: seq<Message>, x: int)
    requires ms != []
    ensures var init, m := ms[..|ms| - 1], ms[|ms| - 1];
      RepliesTo(CancelledReplies(ms), x) == RepliesTo(CancelledReplies(init), x) + if m.arrival == x && OwesReply(m) then 1 else 0
  {
    var last := CancelledReply(ms[|ms| - 1]);
    RepliesAdd(CancelledReplies(ms[..|ms| - 1]), last, x);
    if last != [] { assert last[..0] == []; }
    hide ReplyRequired;
  }

  lemma {:induction false} StrangersGetNone(ms: seq<Message>, x: int)
    requires forall m :: m in ms ==> m.arrival != x
    ensures RepliesTo(CancelledReplies(ms), x) == 0
  {
    if ms != [] {
      LastAdds(ms, x);
      assert ms[|ms| - 1] in ms;
      StrangersGetNone(ms[..|ms| - 1], x);
      hide CancelledReplies, RepliesTo, OwesReply;
    }
  }

  /** Of the messages dropped, each that requires a reply from a chat gets exactly one, the others none. */
  lemma {:induction false} EachDroppedOnce(ms: seq<Message>, i: nat)
    requires i < |ms| && forall j, k :: 0 <= j < k < |ms| ==> ms[j].arrival != ms[k].arrival
    ensures RepliesTo(CancelledReplies(ms), ms[i].arrival) == if OwesReply(ms[i]) then 1 else 0
  {
    hide CancelledReplies, RepliesTo, OwesReply;
    LastAdds(ms, ms[i].arrival);
    if i == |ms| - 1 {
      StrangersGetNone(ms[..|ms| - 1], ms[i].arrival);
    } else {
      EachDroppedOnce(ms[..|ms| - 1], i);
    }
  }

  /** Each of those replies says so to the chat of a message that was dropped. */
  lemma {:induction false} DroppedAreToldInTheirChat(ms: seq<Message>, sent: Outbound)
    requires sent in CancelledReplies(ms)
    ensures exists m :: m in ms && ReplyRequired(m) && [sent] == To(m, CANCELLED_TEXT, "cancelled")
  {
    var init, last := ms[..|ms| - 1], ms[|ms| - 1];
    assert last in ms;
    if sent in CancelledReplies(init) {
      DroppedAreToldInTheirChat(init, sent);
      var m :| m in init && ReplyRequired(m) && [sent] == To(m, CANCELLED_TEXT, "cancelled");
      assert m in ms;
    }
    hide ReplyRequired;
  }

  // ---- The effects ----

  /** The outbound bus, and the replies handed to waiting askers. */
  class Bus {
    var outbound: seq<Outbound>
    var asked: seq<AskReply>

    constructor ()
      ensures outbound == [] && asked == []
    {
      outbound, asked := [], [];
    }

    /** publishInboundReply */
    method PublishInboundReply(m: Message, text: string, outcome: string, roundSent: bool)
      modifies this`outbound
      ensures outbound == old(outbound) +
        if ReplyRequired(m) || (text != "" && !roundSent)
        then [Outbound(m.arrival, m.channel, m.chatId, m.messageId, text, outcome)] else []
    {
      if !ReplyRequired(m) && (text == "" || roundSent) {
        return;
      }
      outbound := outbound + [Outbound(m.arrival, m.channel, m.chatId, m.messageId, text, outcome)];
    }

    /** runTurn, from the end of the turn on; rendered is what the error reads like. */
    method EndTurn(m: Message, end: TurnEnd, rendered: string, roundSent: bool)
      modifies this
      ensures outbound == old(outbound) + FinalReply(m, end, rendered, roundSent)
      ensures asked == old(asked) + AnswerToAsker(m, end, rendered)
    {
      var d := Decide(EndOf(m, end));
      if Dropped(d) { return; }
      var text := TextOf(d, rendered);
      if m.channel == AGENT_MESSAGE_CHANNEL {
        asked := asked + [AskReply(m.chatId, text, AskReplyOutcome(end.err, d.outcome))];
        return;
      }
      if m.channel == SYSTEM_CHANNEL { return; }
      PublishInboundReply(m, text, d.outcome, roundSent);
    }

    /** endTurnOnShutdown */
    method EndTurnOnShutdown(m: Message, toPerson: bool)
      modifies this
      ensures outbound == old(outbound) + ShutdownReply(m, toPerson) && asked == old(asked) + ShutdownAskReply(m, toPerson)
      ensures outbound == old(outbound) +
        if toPerson && ReplyRequired(m) && m.channel != AGENT_MESSAGE_CHANNEL then To(m, SHUTDOWN_TEXT, "cancelled") else []
      ensures asked == old(asked) +
        if toPerson && m.channel == AGENT_MESSAGE_CHANNEL then [AskReply(m.chatId, SHUTDOWN_TEXT, "cancelled")] else []
    {
      if !toPerson {
        return;
      }
      if m.channel == AGENT_MESSAGE_CHANNEL {
        asked := asked + [AskReply(m.chatId, SHUTDOWN_TEXT, OUTCOME_CANCELLED)];
        return;
      }
      if !ReplyRequired(m) {
        return;
      }
      outbound := outbound + [Outbound(m.arrival, m.channel, m.chatId, m.messageId, SHUTDOWN_TEXT, OUTCOME_CANCELLED)];
    }

    /** One message of publishCancelledReplies. */
    method PublishCancelledReply(m: Message)
      modifies this
      ensures outbound == old(outbound) + CancelledReply(m) && asked == old(asked) + CancelledAskReply(m)
      ensures !ReplyRequired(m) ==> outbound == old(outbound) && asked == old(asked)
      ensures ReplyRequired(m) && m.channel == AGENT_MESSAGE_CHANNEL ==>
        outbound == old(outbound) && asked == old(asked) + [AskReply(m.chatId, CANCELLED_ASK_TEXT, "cancelled")]
      ensures ReplyRequired(m) && m.channel != AGENT_MESSAGE_CHANNEL ==>
        outbound == old(outbound) + To(m, CANCELLED_TEXT, "cancelled") && asked == old(asked)
    {
      if !ReplyRequired(m) {
        return;
      }
      if m.channel == AGENT_MESSAGE_CHANNEL {
        asked := asked + [AskReply(m.chatId, CANCELLED_ASK_TEXT, OUTCOME_CANCELLED)];
        return;
      }
      outbound := outbound + [Outbound(m.arrival, m.channel, m.chatId, m.messageId, CANCELLED_TEXT, OUTCOME_CANCELLED)];
    }

    /** publishCancelledReplies */
    method PublishCancelledReplies(ms: seq<Message>)
      modifies this
      ensures outbound == old(outbound) + CancelledReplies(ms) && asked == old(asked) + CancelledAskReplies(ms)
    {
      assert ms[..0] == [];
      for i := 0 to |ms|
        invariant outbound == old(outbound) + CancelledReplies(ms[..i])
        invariant asked == old(asked) + CancelledAskReplies(ms[..i])
      {
        hide CancelledReplies, CancelledAskReplies, CancelledReply, CancelledAskReply;
        OneMoreCancelled(ms, i);
        PublishCancelledReply(ms[i]);
      }
      assert ms[..|ms|] == ms;
    }
  }
}
