/**
 * Asks: an agent's question to another, its reply handed back through a
 * one-place channel. deliver takes the ask under the registry's lock and
 * sends after releasing it, so the asker may give up in between.
 */
module Asks {
  type AskId = int
  type Reply = int

  datatype Result = Answered(reply: Reply) | TimedOut | Cancelled | NotSent

  /** The asking goroutine, named after its next action. */
  datatype Asker =
    | Publishing
    | Failing                       // the message could not be queued: close the ask
    | Awaiting                      // select on the reply, the timer and the context
    | GivingUp(cancelled: bool)     // close the ask
    | LastLook(cancelled: bool)     // a reply that arrived meanwhile still wins
    | Done(result: Result)

  /** A pendingAsk with what its goroutines are doing. */
  datatype Ask = Ask(
    waiting: bool,                  // in askRegistry.waiting
    goneCloses: int,                // times its gone channel was closed
    accepted: seq<Reply>,           // replies for which deliver reports true
    sending: seq<Reply>,            // accepted, about to be sent
    buffer: seq<Reply>,             // in the replies channel, which holds one
    asker: Asker)

  type State = map<AskId, Ask>

  datatype Step =
    | Open(id: AskId)
    | Publish(id: AskId, ok: bool)
    | Receive(id: AskId)
    | StopWaiting(id: AskId, cancelled: bool)  // the wait ran out, or the context was cancelled
    | CloseAsk(id: AskId)
    | Look(id: AskId)
    | Deliver(id: AskId, reply: Reply)         // up to the unlock; anyone, any number of times
    | Send(id: AskId, k: nat)

  const Initial: State := map[]
  const ChannelSize := 1

  // ---- Steps ----

  /** Leave the registry, closing gone: takeLocked. */
  function Take(a: Ask): (r: Ask)
    ensures !r.waiting && r.goneCloses == a.goneCloses + if a.waiting then 1 else 0
  {
    if a.waiting then a.(waiting := false, goneCloses := a.goneCloses + 1) else a
  }

  ghost predicate Can(s: State, step: Step) {
    match step
    case Open(id) => id !in s
    case Publish(id, _) => id in s && s[id].asker.Publishing?
    case Receive(id) => id in s && s[id].asker.Awaiting? && s[id].buffer != []
    case StopWaiting(id, _) => id in s && s[id].asker.Awaiting?
    case CloseAsk(id) => id in s && (s[id].asker.GivingUp? || s[id].asker.Failing?)
    case Look(id) => id in s && s[id].asker.LastLook?
    case Deliver(id, _) => id in s ==> !s[id].asker.Publishing? && !s[id].asker.Failing?
    case Send(id, k) => id in s && k < |s[id].sending| && |s[id].buffer| < ChannelSize
  }

  ghost function DoAsk(a: Ask, step: Step): Ask
    requires step.Send? ==> step.k < |a.sending|
    requires step.Receive? ==> a.buffer != []
  {
    match step
    case Open(_) => a
    case Publish(_, ok) => a.(asker := if ok then Awaiting else Failing)
    case Receive(_) => a.(asker := Done(Answered(a.buffer[0])), buffer := a.buffer[1..])
    case StopWaiting(_, cancelled) => a.(asker := GivingUp(cancelled))
    case CloseAsk(_) =>
      Take(a).(asker := if a.asker.GivingUp? then LastLook(a.asker.cancelled) else Done(NotSent))
    case Look(_) =>
      if a.buffer != [] then a.(asker := Done(Answered(a.buffer[0])), buffer := a.buffer[1..])
      else a.(asker := Done(if a.asker.LastLook? && a.asker.cancelled then Cancelled else TimedOut))
    case Deliver(_, reply) =>
      if a.waiting then Take(a).(accepted := a.accepted + [reply], sending := a.sending + [reply]) else a
    case Send(_, k) => a.(sending := a.sending[..k] + a.sending[k + 1..], buffer := a.buffer + [a.sending[k]])
  }

  ghost function Do(s: State, step: Step): State
    requires Can(s, step)
  {
    if step.Open? then s[step.id := Ask(true, 0, [], [], [], Publishing)]
    else if step.id in s then s[step.id := DoAsk(s[step.id], step)]
    else s
  }

  // ---- The invariant ----

  /** What the asker has received. */
  ghost function Got(a: Asker): seq<Reply> {
    if a.Done? && a.result.Answered? then [a.result.reply] else []
  }

  /** Every accepted reply is in exactly one place, and an ask accepts one at most, by leaving the registry. */
  ghost predicate AskOk(a: Ask) {
    a.goneCloses == (if a.waiting then 0 else 1)
    && a.accepted == a.sending + a.buffer + Got(a.asker)
    && |a.accepted| <= (if a.waiting then 0 else 1)
    && (a.asker.Publishing? || a.asker.Failing? ==> a.waiting)
    && (a.asker.LastLook? || a.asker.Done? ==> !a.waiting)
  }

  ghost predicate Inv(s: State) { forall id :: id in s ==> AskOk(s[id]) }

  lemma StepKeepsInv(s: State, step: Step)
    requires Inv(s) && Can(s, step)
    ensures Inv(Do(s, step))
  {
    if step.id in s && !step.Open? { AskStep(s[step.id], step, s); }
  }

  lemma AskStep(a: Ask, step: Step, s: State)
    requires AskOk(a) && Can(s, step) && step.id in s && s[step.id] == a
    ensures AskOk(DoAsk(a, step))
  {
    match step
    case Send(_, k) => assert a.sending == [a.sending[k]] && a.buffer == [] && Got(a.asker) == [];
    case _ =>
  }

  // ---- Whole runs ----

  /** steps[i] takes run[i] to run[i + 1]. */
  ghost predicate IsRun(run: seq<State>, steps: seq<Step>) {
    |run| == |steps| + 1 && run[0] == Initial
    && forall i :: 0 <= i < |steps| ==> Can(run[i], steps[i]) && run[i + 1] == Do(run[i], steps[i])
  }

  lemma {:induction false} RunKeepsInv(run: seq<State>, steps: seq<Step>, i: nat)
    requires IsRun(run, steps) && i < |run|
    ensures Inv(run[i])
  {
    if i > 0 {
      RunKeepsInv(run, steps, i - 1);
      StepKeepsInv(run[i - 1], steps[i - 1]);
    }
  }

  /** Once out of the registry, an ask stays out. */
  lemma {:induction false} NeverBack(run: seq<State>, steps: seq<Step>, id: AskId, i: nat, j: nat)
    requires IsRun(run, steps) && i <= j < |run| && id in run[i] && !run[i][id].waiting
    ensures id in run[j] && !run[j][id].waiting
  {
    if i < j { NeverBack(run, steps, id, i, j - 1); }
  }

  /** deliver step i reports true. */
  ghost predicate Accepts(run: seq<State>, steps: seq<Step>, i: nat, id: AskId) {
    i < |steps| && i < |run| && steps[i].Deliver? && steps[i].id == id && id in run[i] && run[i][id].waiting
  }

  /** However many replies race for an ask, deliver reports true once at most. */
  lemma AcceptedOnce(run: seq<State>, steps: seq<Step>, id: AskId, i: nat, j: nat)
    requires IsRun(run, steps) && Accepts(run, steps, i, id) && Accepts(run, steps, j, id)
    ensures i == j
  {
    if i < j { NeverBack(run, steps, id, i + 1, j); }
    if j < i { NeverBack(run, steps, id, j + 1, i); }
  }

  /** gone is closed exactly once, at the moment the ask leaves the registry. */
  lemma GoneClosedOnce(run: seq<State>, steps: seq<Step>, i: nat, id: AskId)
    requires IsRun(run, steps) && i < |run| && id in run[i]
    ensures run[i][id].goneCloses == if run[i][id].waiting then 0 else 1
  {
    RunKeepsInv(run, steps, i);
  }

  /** The send after the unlock always finds the channel's one place free. */
  lemma SendNeverBlocks(run: seq<State>, steps: seq<Step>, i: nat, id: AskId, k: nat)
    requires IsRun(run, steps) && i < |run| && id in run[i] && k < |run[i][id].sending|
    ensures Can(run[i], Send(id, k))
  {
    RunKeepsInv(run, steps, i);
    assert AskOk(run[i][id]);
  }

  /** A reply in the channel or with the asker is one that was sent, and nothing sent gets lost. */
  lemma {:induction false} SentIsHeld(run: seq<State>, steps: seq<Step>, i: nat, id: AskId)
    requires IsRun(run, steps) && i < |run|
    ensures SentBefore(steps, i, id) <==> id in run[i] && Holds(run[i][id])
  {
    if i > 0 {
      SentIsHeld(run, steps, i - 1, id);
      RunKeepsInv(run, steps, i - 1);
      HeldAfter(run[i - 1], steps[i - 1], id);
      assert SentBefore(steps, i, id) <==> SentBefore(steps, i - 1, id) || IsSend(steps[i - 1], id);
    }
  }

  /** The channel or the asker has a reply. */
  ghost predicate Holds(a: Ask) { a.buffer != [] || Got(a.asker) != [] }

  lemma HeldAfter(s: State, step: Step, id: AskId)
    requires Inv(s) && Can(s, step)
    ensures id in Do(s, step) && Holds(Do(s, step)[id]) <==> (id in s && Holds(s[id])) || IsSend(step, id)
  {
    if id in s && id == step.id && !step.Open? {
      AskStep(s[id], step, s);
      assert AskOk(s[id]);
    }
  }

  ghost predicate IsSend(step: Step, id: AskId) { step.Send? && step.id == id }

  ghost predicate SentBefore(steps: seq<Step>, i: nat, id: AskId) {
    exists j :: 0 <= j < i && j < |steps| && IsSend(steps[j], id)
  }

  /**
   * What deliver's true is worth: the asker's last look finds a reply exactly
   * when the send, not just the acceptance, came before it.
   */
  lemma LastLookFindsWhatWasSent(run: seq<State>, steps: seq<Step>, i: nat)
    requires IsRun(run, steps) && i < |steps| && steps[i].Look?
    ensures steps[i].id in run[i + 1] && run[i + 1][steps[i].id].asker.Done?
    ensures steps[i].id in run[i] && run[i][steps[i].id].asker.LastLook?
    ensures var result, cancelled := run[i + 1][steps[i].id].asker.result, run[i][steps[i].id].asker.cancelled;
      (result.Answered? <==> SentBefore(steps, i, steps[i].id))
      && (!result.Answered? ==> result == if cancelled then Cancelled else TimedOut)
  {
    SentIsHeld(run, steps, i, steps[i].id);
  }

  /** An ask whose message could not be queued is out of the registry at once, and its asker told so. */
  lemma UnsentIsToldSo(s: State, id: AskId)
    requires Inv(s) && Can(s, Publish(id, false))
    ensures var failed := Do(s, Publish(id, false));
      Can(failed, CloseAsk(id)) && (forall reply :: !Can(failed, Deliver(id, reply)))
      && var closed := Do(failed, CloseAsk(id)); closed[id].asker == Done(NotSent) && !closed[id].waiting && closed[id].goneCloses == 1
  {
    assert AskOk(s[id]);
  }

  /** A reply the select receives is the one accepted, and is returned. */
  lemma ReceivedIsReturned(s: State, id: AskId)
    requires Inv(s) && Can(s, Receive(id))
    ensures |s[id].accepted| == 1 && Do(s, Receive(id))[id].asker == Done(Answered(s[id].accepted[0]))
  {
    assert AskOk(s[id]);
  }

  /** Whatever the asker returns as a reply, deliver reported true for it. */
  lemma AnswerWasAccepted(run: seq<State>, steps: seq<Step>, i: nat, id: AskId)
    requires IsRun(run, steps) && i < |run| && id in run[i]
    requires run[i][id].asker.Done? && run[i][id].asker.result.Answered?
    ensures run[i][id].accepted == [run[i][id].asker.result.reply]
  {
    RunKeepsInv(run, steps, i);
    assert AskOk(run[i][id]);
  }

  lemma Then(run: seq<State>, steps: seq<Step>, a: Ask, step: Step, b: Ask) returns (run': seq<State>, steps': seq<Step>)
    requires IsRun(run, steps) && |run| == |steps| + 1 && run[|steps|] == map[0 := a]
    requires step.id == 0 && !step.Open? && Can(map[0 := a], step) && DoAsk(a, step) == b
    ensures IsRun(run', steps') && |steps'| == |steps| + 1 && |run'| == |steps'| + 1 && run'[|steps'|] == map[0 := b]
    ensures forall i :: Accepts(run, steps, i, 0) ==> Accepts(run', steps', i, 0)
    ensures step.Deliver? && a.waiting ==> Accepts(run', steps', |steps|, 0)
  {
    assert Do(map[0 := a], step) == map[0 := b];
    run', steps' := run + [map[0 := b]], steps + [step];
  }

  /** The ask once its reply is accepted: the asker is on its way to close it. */
  const ACCEPTED := Ask(false, 1, [7], [7], [], GivingUp(false))

  lemma AcceptedLate() returns (run: seq<State>, steps: seq<Step>, i: nat)
    ensures IsRun(run, steps) && |run| == |steps| + 1 && run[|steps|] == map[0 := ACCEPTED] && Accepts(run, steps, i, 0)
  {
    var s0 := Ask(true, 0, [], [], [], Publishing);
    run, steps := [Initial, map[0 := s0]], [Open(0)];
    assert IsRun(run, steps);
    hide IsRun, Accepts;
    run, steps := Then(run, steps, s0, Publish(0, true), s0.(asker := Awaiting));
    run, steps := Then(run, steps, s0.(asker := Awaiting), StopWaiting(0, false), s0.(asker := GivingUp(false)));
    i := |steps|;
    run, steps := Then(run, steps, s0.(asker := GivingUp(false)), Deliver(0, 7), ACCEPTED);
  }

  /**
   * deliver's true does not mean that the asker got the reply: here the wait
   * runs out, the reply is accepted, and the asker closes the ask and looks
   * before the reply is sent.
   */
  lemma AcceptedReplyMayBeLost() returns (run: seq<State>, steps: seq<Step>, i: nat)
    ensures IsRun(run, steps) && Accepts(run, steps, i, 0)
    ensures 0 in run[|run| - 1] && run[|run| - 1][0].asker == Done(TimedOut) && run[|run| - 1][0].buffer == [7]
  {
    run, steps, i := AcceptedLate();
    hide IsRun, Accepts;
    run, steps := Then(run, steps, ACCEPTED, CloseAsk(0), ACCEPTED.(asker := LastLook(false)));
    run, steps := Then(run, steps, ACCEPTED.(asker := LastLook(false)), Look(0), ACCEPTED.(asker := Done(TimedOut)));
    run, steps := Then(run, steps, ACCEPTED.(asker := Done(TimedOut)), Send(0, 0),
                       ACCEPTED.(asker := Done(TimedOut), sending := [], buffer := [7]));
  }

  // ---- The registry ----

  class AskRegistry {
    var waiting: map<AskId, bool>         // ask id -> stopTurn
    var goneCloses: map<AskId, int>       // times each ask's gone channel was closed
    ghost var model: State

    ghost predicate Valid()
      reads this
    {
      Inv(model) && (forall id :: id in waiting <==> id in model && model[id].waiting)
      && forall id :: id in model ==> id in goneCloses && goneCloses[id] == model[id].goneCloses
    }

    constructor ()
      ensures Valid() && model == Initial
    {
      waiting, goneCloses, model := map[], map[], Initial;
    }

    /** open; id is a fresh UUID. */
    method OpenAsk(id: AskId, stopTurn: bool)
      requires Valid() && id !in model
      modifies this
      ensures Valid() && model == Do(old(model), Open(id)) && waiting == old(waiting)[id := stopTurn]
      ensures goneCloses == old(goneCloses)[id := 0]
    {
      StepKeepsInv(model, Open(id));
      waiting, goneCloses := waiting[id := stopTurn], goneCloses[id := 0];
      model := Do(model, Open(id));
    }

    /** takeLocked: the ask is no longer waiting, and its gone channel closed if it was. */
    method TakeLocked(id: AskId) returns (ok: bool)
      requires id in waiting ==> id in goneCloses
      modifies this`waiting, this`goneCloses
      ensures ok == (id in old(waiting)) && waiting == old(waiting) - {id}
      ensures goneCloses == if ok then old(goneCloses)[id := old(goneCloses)[id] + 1] else old(goneCloses)
    {
      ok := id in waiting;
      if ok {
        waiting := waiting - {id};
        goneCloses := goneCloses[id := goneCloses[id] + 1];
      }
    }

    /** close */
    method Close(id: AskId)
      requires Valid() && Can(model, CloseAsk(id))
      modifies this
      ensures Valid() && model == Do(old(model), CloseAsk(id)) && id !in waiting
      ensures id in goneCloses && goneCloses[id] == 1
    {
      StepKeepsInv(model, CloseAsk(id));
      assert AskOk(model[id]);
      var _ := TakeLocked(id);
      model := Do(model, CloseAsk(id));
    }

    /** deliver up to the unlock; with ok the caller goes on to send. */
    method DeliverLocked(id: AskId, reply: Reply) returns (ok: bool)
      requires Valid() && Can(model, Deliver(id, reply))
      modifies this
      ensures Valid() && model == Do(old(model), Deliver(id, reply))
      ensures ok == (id in old(waiting)) && id !in waiting
      ensures ok ==> id in goneCloses && goneCloses[id] == 1
      ensures ok ==> model[id].sending == [reply] && Can(model, Send(id, 0))
    {
      StepKeepsInv(model, Deliver(id, reply));
      ok := TakeLocked(id);
      if ok { assert AskOk(model[id]); }
      model := Do(model, Deliver(id, reply));
    }
  }
}
