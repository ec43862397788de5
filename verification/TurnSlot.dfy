/**
 * Concurrent-turn slots: a semaphore whose tokens turns hold, lend out while
 * they wait and take back after the last of their waits, with any number of
 * turns and of parallel waits in each.
 */
module TurnSlot {
  import opened Common

  type SlotId = int

  /** Where a turn's goroutine, or one ending a wait under the slot's lock, is. */
  datatype Phase =
    | Acquiring          // waits for its first token
    | Acquired           // took it; held is not set yet
    | Idle               // the slot's lock is free
    | Reclaiming         // the last wait ended: waits for a token, holding the lock
    | Reclaimed          // took it; held is not set yet
    | NeverRan           // the context ended before the first token

  datatype Slot = Slot(
    held: bool,
    lent: int,
    done: bool,
    phase: Phase,
    gaveUp: bool)        // a reclaim ended without a token

  datatype State = State(limit: Option<nat>, tokens: int, slots: map<SlotId, Slot>)

  datatype Step =
    | Start(id: SlotId)
    | TakeToken(id: SlotId)
    | ContextEnds(id: SlotId)
    | SetHeld(id: SlotId)
    | Lend(id: SlotId)
    | Reclaim(id: SlotId)         // up to the wait for a token, if there is one
    | Release(id: SlotId)

  // ---- One slot ----

  const NewSlot := Slot(false, 0, false, Acquiring, false)

  function LentOut(x: Slot): Slot { x.(lent := x.lent + 1, held := false) }

  function Released(x: Slot): Slot { x.(done := true, held := false) }

  function WaitEnded(x: Slot): Slot {
    var y := x.(lent := x.lent - 1);
    if y.lent == 0 && !y.held && !y.done then y.(phase := Reclaiming) else y
  }

  function TookToken(x: Slot): Slot { x.(phase := if x.phase.Acquiring? then Acquired else Reclaimed) }

  function WentWithout(x: Slot): Slot {
    if x.phase.Acquiring? then x.(phase := NeverRan) else x.(phase := Idle, gaveUp := true)
  }

  predicate WaitsForToken(x: Slot) { x.phase.Acquiring? || x.phase.Reclaiming? }

  predicate TokenInHand(x: Slot) { x.phase.Acquired? || x.phase.Reclaimed? }

  // ---- Steps ----

  ghost predicate Can(s: State, a: Step) {
    if a.Start? then a.id !in s.slots
    else
      a.id in s.slots &&
      var x := s.slots[a.id];
      match a
      case TakeToken(_) => WaitsForToken(x) && (s.limit.Some? ==> s.tokens < s.limit.value)
      case ContextEnds(_) => WaitsForToken(x)
      case SetHeld(_) => TokenInHand(x)
      case Lend(_) => x.phase.Idle?
      case Reclaim(_) => x.phase.Idle? && x.lent > 0     // every reclaim follows its lend
      case Release(_) => x.phase.Idle?
      case _ => false
  }

  /** Taking the token out of the channel would block without one there. */
  ghost function GiveBack(s: State): State { if s.limit.Some? then s.(tokens := s.tokens - 1) else s }

  ghost function Put(s: State, id: SlotId, x: Slot): State { s.(slots := s.slots[id := x]) }

  ghost function Do(s: State, a: Step): State
    requires Can(s, a)
  {
    var x := if a.Start? then NewSlot else s.slots[a.id];
    match a
    case Start(id) => Put(s, id, x)
    case TakeToken(id) => Put(if s.limit.Some? then s.(tokens := s.tokens + 1) else s, id, TookToken(x))
    case ContextEnds(id) => Put(s, id, WentWithout(x))
    case SetHeld(id) => Put(s, id, x.(held := true, phase := Idle))
    case Lend(id) => Put(if x.held then GiveBack(s) else s, id, LentOut(x))
    case Reclaim(id) => Put(s, id, WaitEnded(x))
    case Release(id) => Put(if x.held then GiveBack(s) else s, id, Released(x))
  }

  // ---- The invariant ----

  ghost function Owners(s: State): set<SlotId> { set id | id in s.slots && (s.slots[id].held || TokenInHand(s.slots[id])) }

  ghost predicate SlotOk(x: Slot) {
    x.lent >= 0
    && (x.held ==> x.phase.Idle? && x.lent == 0 && !x.done)
    && (!x.phase.Idle? ==> x.lent == 0 && !x.done && !x.held)
    && (x.phase.Idle? && x.lent == 0 && !x.done && !x.gaveUp ==> x.held)
  }

  ghost predicate Inv(s: State) {
    (forall id :: id in s.slots ==> SlotOk(s.slots[id]))
    && s.tokens == (if s.limit.Some? then |Owners(s)| else 0)
    && (s.limit.Some? ==> s.tokens <= s.limit.value)
  }

  lemma StepKeepsInv(s: State, a: Step)
    requires Inv(s) && Can(s, a)
    ensures Inv(Do(s, a))
  {
    var s' := Do(s, a);
    SizeWhenOneMoves(Owners(s), Owners(s'), a.id);
    assert forall id :: id in s'.slots && id != a.id ==> s'.slots[id] == s.slots[id];
    assert a.id in Owners(s') <==> s'.slots[a.id].held || TokenInHand(s'.slots[a.id]);
    hide Owners;
  }

  ghost predicate IsRun(run: seq<State>) {
    |run| > 0 && run[0] == State(run[0].limit, 0, map[]) && forall i :: 0 <= i < |run| - 1 ==> Follows(run[i], run[i + 1])
  }

  ghost predicate Follows(s: State, s': State) { exists a :: Can(s, a) && s' == Do(s, a) }

  lemma {:induction false} RunKeepsInv(run: seq<State>, i: nat)
    requires IsRun(run) && i < |run|
    ensures Inv(run[i]) && run[i].limit == run[0].limit
  {
    if i == 0 {
      assert Owners(run[0]) == {};
    } else {
      RunKeepsInv(run, i - 1);
      assert Follows(run[i - 1], run[i]);
      var a :| Can(run[i - 1], a) && run[i] == Do(run[i - 1], a);
      StepKeepsInv(run[i - 1], a);
    }
  }

  /** The tokens out are the turns holding one or about to, and never more than the limit. */
  lemma TokensAreConserved(run: seq<State>, i: nat)
    requires IsRun(run) && i < |run| && run[i].limit.Some?
    ensures run[i].tokens == |Owners(run[i])| <= run[i].limit.value
  {
    RunKeepsInv(run, i);
  }

  /** Giving a slot back always finds its token in the channel. */
  lemma GivingBackNeverBlocks(run: seq<State>, i: nat, id: SlotId)
    requires IsRun(run) && i < |run| && run[i].limit.Some? && id in run[i].slots && run[i].slots[id].held
    ensures run[i].tokens > 0
  {
    RunKeepsInv(run, i);
    assert id in Owners(run[i]);
  }

  /** A turn with a wait in progress holds no slot; one with none, not over, does, unless its context ended. */
  lemma HeldUnlessWaiting(run: seq<State>, i: nat, id: SlotId)
    requires IsRun(run) && i < |run| && id in run[i].slots
    ensures var x := run[i].slots[id];
      (x.lent > 0 ==> !x.held) && (x.phase.Idle? && x.lent == 0 && !x.done && !x.gaveUp ==> x.held)
  {
    RunKeepsInv(run, i);
    assert SlotOk(run[i].slots[id]);
  }

  /** A turn that is over never holds a slot again, whatever waits of it still end. */
  lemma {:induction false} OverForGood(run: seq<State>, i: nat, j: nat, id: SlotId)
    requires IsRun(run) && i <= j < |run| && id in run[i].slots && run[i].slots[id].done
    ensures id in run[j].slots && run[j].slots[id].done && !run[j].slots[id].held && !TokenInHand(run[j].slots[id])
  {
    RunKeepsInv(run, j);
    if i < j {
      OverForGood(run, i, j - 1, id);
      RunKeepsInv(run, j - 1);
      assert Follows(run[j - 1], run[j]);
    }
    assert SlotOk(run[j].slots[id]);
  }

  /** A turn goes on without its slot only because its context ended while it waited for one. */
  lemma WithoutOnlyWhenEnded(s: State, a: Step, id: SlotId)
    requires Can(s, a) && id in s.slots && Do(s, a).slots[id].gaveUp && !s.slots[id].gaveUp
    ensures a == ContextEnds(id) && s.slots[id].phase.Reclaiming?
  {
  }

  /** The last of a live turn's waits, ending, goes on to wait for a token; any other leaves the slot lent or over as it is. */
  lemma LastWaitReclaims(s: State, id: SlotId)
    requires Inv(s) && Can(s, Reclaim(id))
    ensures var x, y := s.slots[id], Do(s, Reclaim(id)).slots[id];
      y.lent == x.lent - 1 && !y.held && (y.phase.Reclaiming? <==> x.lent == 1 && !x.done)
  {
    assert SlotOk(s.slots[id]);
  }

  // ---- In place ----

  /** AgentLoop.turnSem; without a limit there is none. */
  class Semaphore {
    const limit: Option<nat>
    var tokens: nat

    constructor (limit: Option<nat>)
      ensures this.limit == limit && tokens == 0
    {
      this.limit, tokens := limit, 0;
    }

    /** acquireTurnSlot, once a place is free or the context has ended. */
    method Acquire(ended: bool) returns (ok: bool)
      requires limit.Some? && tokens >= limit.value ==> ended
      modifies this
      ensures !ok ==> ended && tokens == old(tokens) && limit.Some?
      ensures ok ==> tokens == old(tokens) + (if limit.Some? then 1 else 0)
      ensures limit.Some? && old(tokens) <= limit.value ==> tokens <= limit.value
    {
      if limit.None? { return true; }
      var takesPlace: bool := *;       // with a place free and the context ended, either may be chosen
      if tokens < limit.value && (!ended || takesPlace) {
        tokens := tokens + 1;
        return true;
      }
      return false;
    }

    method Release()
      requires limit.Some? ==> tokens > 0
      modifies this
      ensures tokens == old(tokens) - if limit.Some? then 1 else 0
    {
      if limit.Some? {
        tokens := tokens - 1;
      }
    }
  }

  class TurnSlot {
    const sem: Semaphore
    var held: bool
    var lent: int
    var done: bool
    ghost var model: Slot

    /** The fields are the model's, between two sections of the lock; a held slot's token is in the channel. */
    ghost predicate Valid()
      reads this, sem
    {
      SlotOk(model) && model.held == held && model.lent == lent && model.done == done
      && (held && sem.limit.Some? ==> sem.tokens > 0)
    }

    constructor (sem: Semaphore)
      ensures Valid() && model == NewSlot && this.sem == sem
    {
      this.sem, held, lent, done := sem, false, 0, false;
      model := NewSlot;
    }

    /** acquire */
    method Acquire(ended: bool) returns (ok: bool)
      requires Valid() && model.phase.Acquiring?
      requires sem.limit.Some? && sem.tokens >= sem.limit.value ==> ended
      modifies this, sem
      ensures Valid()
      ensures model == if ok then TookToken(old(model)).(held := true, phase := Idle) else WentWithout(old(model))
      ensures held == ok && done == old(done) && lent == old(lent) && (!ok ==> ended)
      ensures sem.tokens == old(sem.tokens) + (if ok && sem.limit.Some? then 1 else 0)
    {
      ok := sem.Acquire(ended);
      if ok {
        held := true;
        model := TookToken(model).(held := true, phase := Idle);
      } else {
        model := WentWithout(model);
      }
    }

    /** release */
    method Release()
      requires Valid() && model.phase.Idle?
      modifies this, sem
      ensures Valid() && model == Released(old(model)) && done && !held && lent == old(lent)
      ensures sem.tokens == old(sem.tokens) - (if old(held) && sem.limit.Some? then 1 else 0)
    {
      done := true;
      if held {
        held := false;
        sem.Release();
      }
      model := Released(model);
    }

    /** lend */
    method Lend()
      requires Valid() && model.phase.Idle?
      modifies this, sem
      ensures Valid() && model == LentOut(old(model)) && !held && lent == old(lent) + 1 && done == old(done)
      ensures sem.tokens == old(sem.tokens) - (if old(held) && sem.limit.Some? then 1 else 0)
    {
      lent := lent + 1;
      if held {
        held := false;
        sem.Release();
      }
      model := LentOut(model);
    }

    /** reclaim: took tells whether it took the slot back. */
    method Reclaim(ended: bool) returns (took: bool)
      requires Valid() && model.phase.Idle? && lent > 0
      requires sem.limit.Some? && sem.tokens >= sem.limit.value ==> ended
      modifies this, sem
      ensures Valid()
      ensures var m := WaitEnded(old(model));
        model == if took then TookToken(m).(held := true, phase := Idle) else if m.phase.Reclaiming? then WentWithout(m) else m
      ensures lent == old(lent) - 1 && held == (old(held) || took) && done == old(done)
      ensures took ==> old(lent) == 1 && !old(held) && !old(done)
      ensures old(lent) == 1 && !old(held) && !old(done) && !ended ==> took
      ensures sem.tokens == old(sem.tokens) + (if took && sem.limit.Some? then 1 else 0)
    {
      took := false;
      lent := lent - 1;
      model := WaitEnded(model);
      if lent == 0 && !held && !done {
        took := sem.Acquire(ended);
        if took {
          held := true;
        }
        model := if took then TookToken(model).(held := true, phase := Idle) else WentWithout(model);
      }
    }
  }
}
