/**
 * The context-manager cache for one agent-and-session key.
 *
 * Callers of getSessionContext run a lock-free fast path (take a reference,
 * then look at the stale mark) against evictors (set the mark, then look at
 * the reference count); building and evicting happen under the key's build
 * slot. Every atomic load, store or map operation is one step here, and any
 * number of goroutines interleave.
 */
module ContextCache {
  import opened Common

  type Goroutine = int
  type EntryId = int
  type Token = int

  /** A cmEntry: its manager is open from creation until its one Close. */
  datatype Entry = Entry(refcount: int, stale: bool, open: bool, token: Token)

  /** A goroutine outside the build slot, named after its next atomic action. */
  datatype Pc =
    | Outside
      // getSessionContext, fast path
    | Top                            // load the cached entry
    | Loaded(e: EntryId)             // read its mark
    | Unmarked(e: EntryId)           // take a reference
    | Referenced(e: EntryId)         // read the mark again
    | BackOff(e: EntryId)            // give the reference back
    | WantSlot                       // try to take the build slot
    | Parked                         // wait for the slot's holder, then start over
    | Holding(e: EntryId)            // use the manager; release it at some point
    | EvictWant(e: EntryId)          // tryEvictEntry: try to take the slot
    | DiscardWant                    // discardConversation: try to take the slot
    | InSlot                         // holds the slot; its next action is the slot's phase

  /** The slot holder's next atomic action. */
  datatype Phase =
      // takeCachedEntry
    | Look                           // load the cached entry
    | LookMark                       // read its mark
    | LookCount                      // marked: read its reference count
    | Share                          // take a reference
      // evictEntry
    | Unpublish                      // delete it from the map
    | Revoke                         // revoke the session's token
    | CloseManager
      // buildSessionEntry
    | Create                         // make the manager
    | Issue                          // issue a token
    | Store                          // put the entry in the map
      // tryEvictEntry and discardConversation
    | EvictLook                      // is the entry it was handed still the cached one?
    | DiscardLook                    // load the cached entry
    | EvictMark
    | EvictCount
      // give the slot back, with or without the entry
    | ReturnHolding
    | Return

  /** building: the holder goes on to build once it has evicted. */
  datatype Slot = Free | Held(owner: Goroutine, at: Phase, e: EntryId, building: bool)

  datatype State = State(
    cached: Option<EntryId>,         // al.contextManagers[key]
    slot: Slot,                      // sessionBuilds[key]
    entries: map<EntryId, Entry>,    // every entry ever created
    live: Option<Token>,             // the issuer's token for the session
    pcs: map<Goroutine, Pc>)

  datatype Step =
    | Arrive(t: Goroutine, pc: Pc)         // a caller or an evictor starts
    | Run(t: Goroutine, tok: Token, id: EntryId)  // t's next action; tok, id: what it issues or allocates
    | Mark(e: EntryId)                     // invalidateContextManagers marks e
    | Reissue(t: Goroutine, tok: Token)    // a holder has the cached entry's token reissued

  const Initial := State(None, Free, map[], None, map[])

  // ---- Steps ----

  /** On its way to an entry, or holding it. */
  ghost predicate Touching(pc: Pc) {
    pc.Loaded? || pc.Unmarked? || pc.Referenced? || pc.BackOff? || pc.Holding?
  }

  /** Everything that is named exists. */
  ghost predicate KnownOk(s: State) {
    (forall t :: t in s.pcs && (Touching(s.pcs[t]) || s.pcs[t].EvictWant?) ==> s.pcs[t].e in s.entries)
    && (s.cached.Some? ==> s.cached.value in s.entries)
    && (s.slot.Held? && !s.slot.at.Look? && !s.slot.at.Create? && !s.slot.at.Return? && !s.slot.at.DiscardLook?
        ==> s.slot.e in s.entries)
  }

  ghost predicate Can(s: State, a: Step) {
    match a
    case Arrive(t, pc) =>
      (t !in s.pcs || s.pcs[t] == Outside)
      && (pc.Top? || pc.DiscardWant? || (pc.EvictWant? && pc.e in s.entries))
    case Run(t, _, id) => t in s.pcs && s.pcs[t] != Outside && (s.pcs[t] == InSlot ==> s.slot.Held?) && id !in s.entries
    case Mark(e) => e in s.entries
    case Reissue(t, _) => t in s.pcs && s.pcs[t].Holding? && s.cached.Some?
  }

  ghost function Goto(s: State, t: Goroutine, pc: Pc): State { s.(pcs := s.pcs[t := pc]) }

  ghost function Phased(s: State, at: Phase, e: EntryId): State
    requires s.slot.Held?
  {
    s.(slot := s.slot.(at := at, e := e))
  }

  ghost function SetEntry(s: State, e: EntryId, v: Entry): State { s.(entries := s.entries[e := v]) }

  ghost function AddRef(s: State, e: EntryId, d: int): State
    requires e in s.entries
  {
    SetEntry(s, e, s.entries[e].(refcount := s.entries[e].refcount + d))
  }

  ghost function SetStale(s: State, e: EntryId): State
    requires e in s.entries
  {
    SetEntry(s, e, s.entries[e].(stale := true))
  }

  /** The next atomic action of a goroutine outside the slot. */
  ghost function RunOutside(s: State, t: Goroutine): State
    requires KnownOk(s) && t in s.pcs
  {
    match s.pcs[t]
    case Top => Goto(s, t, if s.cached.Some? then Loaded(s.cached.value) else WantSlot)
    case Loaded(e) => Goto(s, t, if s.entries[e].stale then WantSlot else Unmarked(e))
    case Unmarked(e) => Goto(AddRef(s, e, 1), t, Referenced(e))
    case Referenced(e) => Goto(s, t, if s.entries[e].stale then BackOff(e) else Holding(e))
    case BackOff(e) => Goto(AddRef(s, e, -1), t, WantSlot)
    case WantSlot => if s.slot.Held? then Goto(s, t, Parked) else Goto(s.(slot := Held(t, Look, 0, true)), t, InSlot)
    case Parked => Goto(s, t, Top)
    case Holding(e) => Goto(AddRef(s, e, -1), t, Outside)
    case EvictWant(e) =>
      if s.slot.Held? then Goto(s, t, Outside) else Goto(s.(slot := Held(t, EvictLook, e, false)), t, InSlot)
    case DiscardWant =>
      if s.slot.Held? then Goto(s, t, Outside) else Goto(s.(slot := Held(t, DiscardLook, 0, false)), t, InSlot)
    case _ => s
  }

  /** The next atomic action of the slot's holder. */
  ghost function RunInSlot(s: State, tok: Token, id: EntryId): State
    requires KnownOk(s) && s.slot.Held?
  {
    var e := s.slot.e;
    match s.slot.at
    case Look => if s.cached.Some? then Phased(s, LookMark, s.cached.value) else Phased(s, Create, 0)
    case LookMark => Phased(s, if s.entries[e].stale then LookCount else Share, e)
    case LookCount => Phased(s, if s.entries[e].refcount == 0 then Unpublish else Share, e)
    case Share => Phased(AddRef(s, e, 1), ReturnHolding, e)
    case Unpublish => Phased(s.(cached := None), Revoke, e)
    case Revoke => Phased(s.(live := None), CloseManager, e)
    case CloseManager =>
      Phased(SetEntry(s, e, s.entries[e].(open := false)), if s.slot.building then Create else Return, e)
    case Create => Phased(SetEntry(s, id, Entry(0, false, true, tok)), Issue, id)
    case Issue =>
      Phased(SetEntry(s.(live := Some(tok)), e, s.entries[e].(token := tok, refcount := 1)), Store, e)
    case Store => Phased(s.(cached := Some(e)), ReturnHolding, e)
    case EvictLook => Phased(s, if s.cached == Some(e) then EvictMark else Return, e)
    case DiscardLook => if s.cached.Some? then Phased(s, EvictMark, s.cached.value) else Phased(s, Return, 0)
    case EvictMark => Phased(SetStale(s, e), EvictCount, e)
    case EvictCount => Phased(s, if s.entries[e].refcount > 0 then Return else Unpublish, e)
    case ReturnHolding => Goto(s.(slot := Free), s.slot.owner, Holding(e))
    case Return => Goto(s.(slot := Free), s.slot.owner, Outside)
  }

  ghost function Do(s: State, a: Step): State
    requires KnownOk(s) && Can(s, a)
  {
    match a
    case Arrive(t, pc) => Goto(s, t, pc)
    case Run(t, tok, id) => if s.pcs[t] == InSlot then RunInSlot(s, tok, id) else RunOutside(s, t)
    case Mark(e) => SetStale(s, e)
    case Reissue(_, tok) =>
      SetEntry(s.(live := Some(tok)), s.cached.value, s.entries[s.cached.value].(token := tok))
  }

  // ---- The invariant ----

  ghost predicate SlotOk(s: State) {
    (s.slot.Held? ==> s.slot.owner in s.pcs)
    && forall t :: t in s.pcs ==> (s.pcs[t] == InSlot <==> s.slot.Held? && s.slot.owner == t)
  }

  ghost predicate Counted(pc: Pc, e: EntryId) {
    pc == Referenced(e) || pc == BackOff(e) || pc == Holding(e)
  }

  ghost function References(s: State, e: EntryId): set<Goroutine> {
    set t | t in s.pcs && Counted(s.pcs[t], e)
  }

  /** The reference the slot's holder has taken on e for the entry it returns. */
  ghost function HolderRef(slot: Slot, e: EntryId): nat {
    if slot.Held? && slot.e == e && (slot.at.ReturnHolding? || slot.at.Store?) then 1 else 0
  }

  ghost predicate CountsOk(s: State) {
    forall e :: e in s.entries ==> s.entries[e].refcount == |References(s, e)| + HolderRef(s.slot, e)
  }

  /** Whoever holds an entry holds the cached one. */
  ghost predicate HoldersOk(s: State) {
    forall t :: t in s.pcs && s.pcs[t].Holding? ==> s.cached == Some(s.pcs[t].e)
  }

  ghost predicate Fresh(slot: Slot) { slot.Held? && (slot.at.Issue? || slot.at.Store?) }

  /** Nobody has got hold of the entry about to be published. */
  ghost predicate FreshIsPrivate(s: State) {
    Fresh(s.slot) ==> forall t :: t in s.pcs && Touching(s.pcs[t]) ==> s.pcs[t].e != s.slot.e
  }

  /** An entry somebody is looking at is the cached one, or marked. */
  ghost predicate TouchedOk(s: State)
    requires KnownOk(s)
  {
    forall t :: t in s.pcs && Touching(s.pcs[t]) ==>
      s.entries[s.pcs[t].e].stale || s.cached == Some(s.pcs[t].e)
  }

  /** What the slot's holder has established. */
  ghost predicate PhaseOk(s: State)
    requires KnownOk(s)
  {
    s.slot.Held? ==>
      var e := s.slot.e;
      match s.slot.at
      case LookMark => s.cached == Some(e)
      case LookCount => s.cached == Some(e) && s.entries[e].stale
      case Share => s.cached == Some(e)
      case ReturnHolding => s.cached == Some(e)
      case Unpublish =>
        s.cached == Some(e) && s.entries[e].stale && forall t :: t in s.pcs ==> s.pcs[t] != Holding(e)
      case Revoke => s.cached == None && s.entries[e].open
      case CloseManager => s.cached == None
      case Create => s.cached == None
      case Issue => s.cached == None && s.entries[e].open && s.entries[e].refcount == 0
      case Store => s.cached == None && s.entries[e].open
      case EvictMark => s.cached == Some(e)
      case EvictCount => s.cached == Some(e) && s.entries[e].stale
      case _ => true
  }

  /** The slot's holder has unpublished the entry and not yet closed it, or created it and not yet published it. */
  ghost predicate InCustody(slot: Slot, e: EntryId) {
    slot.Held? && slot.e == e && (slot.at.Revoke? || slot.at.CloseManager? || slot.at.Issue? || slot.at.Store?)
  }

  ghost predicate OpenOk(s: State)
    requires KnownOk(s)
  {
    (forall e :: e in s.entries && s.entries[e].open ==> s.cached == Some(e) || InCustody(s.slot, e))
    && (s.cached.Some? ==> s.entries[s.cached.value].open)
  }

  /** The live token is the cached entry's, except for an entry in custody whose token is live. */
  ghost predicate TokenOk(s: State)
    requires KnownOk(s)
  {
    s.live == if s.slot.Held? && (s.slot.at.Revoke? || s.slot.at.Store?) then Some(s.entries[s.slot.e].token)
              else if s.cached.Some? then Some(s.entries[s.cached.value].token) else None
  }

  /** Everything but the reference counts. */
  ghost predicate Shape(s: State) {
    KnownOk(s) && SlotOk(s) && HoldersOk(s) && TouchedOk(s) && FreshIsPrivate(s) && PhaseOk(s) && OpenOk(s) && TokenOk(s)
  }

  ghost predicate Inv(s: State) { Shape(s) && CountsOk(s) }

  // ---- Every step keeps it ----

  /** With no reference counted, nobody holds the entry. */
  lemma ZeroMeansUnheld(s: State, e: EntryId)
    requires Inv(s) && e in s.entries && s.entries[e].refcount <= 0
    ensures forall t :: t in s.pcs ==> s.pcs[t] != Holding(e)
  {
    assert References(s, e) == {};
    assert forall t :: t in s.pcs && Counted(s.pcs[t], e) ==> t in References(s, e);
  }

  lemma FastPath(s: State, t: Goroutine)
    requires Inv(s) && t in s.pcs && (s.pcs[t].Top? || s.pcs[t].Loaded? || s.pcs[t].Unmarked?)
    ensures Shape(RunOutside(s, t))
  {
  }

  lemma FastPathEnds(s: State, t: Goroutine)
    requires Inv(s) && t in s.pcs && (s.pcs[t].Referenced? || s.pcs[t].BackOff?)
    ensures Shape(RunOutside(s, t))
  {
  }

  lemma Releasing(s: State, t: Goroutine)
    requires Inv(s) && t in s.pcs && (s.pcs[t].Holding? || s.pcs[t].Parked?)
    ensures Shape(RunOutside(s, t))
  {
  }

  lemma TakingSlot(s: State, t: Goroutine)
    requires Inv(s) && t in s.pcs && (s.pcs[t].WantSlot?)
    ensures Shape(RunOutside(s, t))
  {
  }

  lemma TakingSlotToEvict(s: State, t: Goroutine)
    requires Inv(s) && t in s.pcs && (s.pcs[t].EvictWant?)
    ensures Shape(RunOutside(s, t))
  {
  }

  lemma TakingSlotToDiscard(s: State, t: Goroutine)
    requires Inv(s) && t in s.pcs && (s.pcs[t].DiscardWant?)
    ensures Shape(RunOutside(s, t))
  {
  }

  lemma SecondLook(s: State, tok: Token, id: EntryId)
    requires Inv(s) && s.slot.Held? && id !in s.entries && (s.slot.at.Look? || s.slot.at.LookMark? || s.slot.at.LookCount? || s.slot.at.Share?)
    ensures Shape(RunInSlot(s, tok, id))
  {
    if s.slot.e in s.entries && s.entries[s.slot.e].refcount <= 0 { ZeroMeansUnheld(s, s.slot.e); }
  }

  lemma Evicting(s: State, tok: Token, id: EntryId)
    requires Inv(s) && s.slot.Held? && id !in s.entries && (s.slot.at.Unpublish? || s.slot.at.Revoke? || s.slot.at.CloseManager?)
    ensures Shape(RunInSlot(s, tok, id))
  {
  }

  lemma Building(s: State, tok: Token, id: EntryId)
    requires Inv(s) && s.slot.Held? && id !in s.entries && (s.slot.at.Create? || s.slot.at.Issue? || s.slot.at.Store?)
    ensures Shape(RunInSlot(s, tok, id))
  {
  }

  lemma Evictor(s: State, tok: Token, id: EntryId)
    requires Inv(s) && s.slot.Held? && id !in s.entries && (s.slot.at.EvictLook? || s.slot.at.DiscardLook? || s.slot.at.EvictMark? || s.slot.at.EvictCount?)
    ensures Shape(RunInSlot(s, tok, id))
  {
    if s.slot.e in s.entries && s.entries[s.slot.e].refcount <= 0 { ZeroMeansUnheld(s, s.slot.e); }
  }

  lemma Returning(s: State, tok: Token, id: EntryId)
    requires Inv(s) && s.slot.Held? && id !in s.entries && (s.slot.at.ReturnHolding? || s.slot.at.Return?)
    ensures Shape(RunInSlot(s, tok, id))
  {
  }

  lemma OthersStep(s: State, a: Step)
    requires Inv(s) && Can(s, a) && !a.Run?
    ensures Shape(Do(s, a))
  {
  }

  // ---- Reference counts ----

  /** Only t moved, and each count changed by what t and the slot's holder did. */
  ghost predicate Accounted(s: State, s': State, t: Goroutine, pc: Pc) {
    s'.pcs == s.pcs[t := pc]
    && (forall e :: e in s.entries ==> e in s'.entries)
    && (forall e :: e in s'.entries ==> if e in s.entries then CountMoved(s, s', t, pc, e) else
        s'.entries[e].refcount == 0 && HolderRef(s'.slot, e) == 0 && !Counted(pc, e))
  }

  ghost function RefOf(pc: Pc, e: EntryId): nat { if Counted(pc, e) then 1 else 0 }

  ghost predicate CountMoved(s: State, s': State, t: Goroutine, pc: Pc, e: EntryId)
    requires e in s.entries && e in s'.entries
  {
    s'.entries[e].refcount - HolderRef(s'.slot, e) - RefOf(pc, e)
      == s.entries[e].refcount - HolderRef(s.slot, e) - (if t in s.pcs then RefOf(s.pcs[t], e) else 0)
  }

  lemma Recount(s: State, s': State, t: Goroutine, pc: Pc)
    requires KnownOk(s) && CountsOk(s) && Accounted(s, s', t, pc)
    ensures CountsOk(s')
  {
    forall e | e in s'.entries
      ensures s'.entries[e].refcount == |References(s', e)| + HolderRef(s'.slot, e)
    {
      SizeWhenOneMoves(References(s, e), References(s', e), t);
      assert t in References(s', e) <==> Counted(pc, e);
      if e !in s.entries {
        assert forall u :: u in s.pcs ==> !Counted(s.pcs[u], e);
        assert References(s, e) == {};
      }
    }
  }

  lemma CountsKeptOutside(s: State, t: Goroutine)
    requires Inv(s) && t in s.pcs && s.pcs[t] != InSlot
    ensures CountsOk(RunOutside(s, t))
  {
    Recount(s, RunOutside(s, t), t, RunOutside(s, t).pcs[t]);
  }

  lemma RefIsAccounted(s: State, tok: Token, id: EntryId)
    requires Inv(s) && s.slot.Held? && id !in s.entries
    requires s.slot.at.Share? || s.slot.at.Create? || s.slot.at.Issue? || s.slot.at.ReturnHolding?
    ensures Accounted(s, RunInSlot(s, tok, id), s.slot.owner, PcInSlot(s, tok, id))
  {
    hide HoldersOk, TouchedOk, FreshIsPrivate, OpenOk, TokenOk, CountsOk;
  }

  lemma RestIsAccounted(s: State, tok: Token, id: EntryId)
    requires Inv(s) && s.slot.Held? && id !in s.entries
    requires !s.slot.at.Share? && !s.slot.at.Create? && !s.slot.at.Issue? && !s.slot.at.ReturnHolding?
    ensures Accounted(s, RunInSlot(s, tok, id), s.slot.owner, PcInSlot(s, tok, id))
  {
    hide HoldersOk, TouchedOk, FreshIsPrivate, OpenOk, TokenOk, CountsOk;
  }

  ghost function PcInSlot(s: State, tok: Token, id: EntryId): Pc
    requires Shape(s) && s.slot.Held? && id !in s.entries
  {
    RunInSlot(s, tok, id).pcs[s.slot.owner]
  }

  lemma CountsKeptInSlot(s: State, tok: Token, id: EntryId)
    requires Inv(s) && s.slot.Held? && id !in s.entries
    ensures CountsOk(RunInSlot(s, tok, id))
  {
    if s.slot.at.Share? || s.slot.at.Create? || s.slot.at.Issue? || s.slot.at.ReturnHolding? {
      RefIsAccounted(s, tok, id);
    } else {
      RestIsAccounted(s, tok, id);
    }
    hide RunInSlot, Accounted, CountsOk, PcInSlot;
    Recount(s, RunInSlot(s, tok, id), s.slot.owner, PcInSlot(s, tok, id));
  }

  /** No step of any goroutine breaks the invariant. */
  lemma StepKeepsInv(s: State, a: Step)
    requires Inv(s) && Can(s, a)
    ensures Inv(Do(s, a))
  {
    match a
    case Run(t, tok, id) =>
      if s.pcs[t] == InSlot {
        ShapeKeptInSlot(s, tok, id);
        CountsKeptInSlot(s, tok, id);
      } else {
        ShapeKeptOutside(s, t);
        CountsKeptOutside(s, t);
      }
    case Arrive(t, pc) =>
      OthersStep(s, a);
      Recount(s, Do(s, a), t, pc);
    case _ =>
      OthersStep(s, a);
      assert forall e :: References(Do(s, a), e) == References(s, e);
  }

  lemma ShapeKeptOutside(s: State, t: Goroutine)
    requires Inv(s) && t in s.pcs && s.pcs[t] != InSlot && s.pcs[t] != Outside
    ensures Shape(RunOutside(s, t))
  {
    match s.pcs[t] {
      case Top => FastPath(s, t);
      case Loaded(_) => FastPath(s, t);
      case Unmarked(_) => FastPath(s, t);
      case Referenced(_) => FastPathEnds(s, t);
      case BackOff(_) => FastPathEnds(s, t);
      case WantSlot => TakingSlot(s, t);
      case EvictWant(_) => TakingSlotToEvict(s, t);
      case DiscardWant => TakingSlotToDiscard(s, t);
      case _ => Releasing(s, t);
    }
  }

  lemma ShapeKeptInSlot(s: State, tok: Token, id: EntryId)
    requires Inv(s) && s.slot.Held? && id !in s.entries
    ensures Shape(RunInSlot(s, tok, id))
  {
    var at := s.slot.at;
    if at.Look? || at.LookMark? || at.LookCount? || at.Share? {
      SecondLook(s, tok, id);
    } else if at.Unpublish? || at.Revoke? || at.CloseManager? {
      Evicting(s, tok, id);
    } else if at.Create? || at.Issue? || at.Store? {
      Building(s, tok, id);
    } else if at.ReturnHolding? || at.Return? {
      Returning(s, tok, id);
    } else {
      Evictor(s, tok, id);
    }
  }

  // ---- Whole runs ----

  /** A finite run from the empty cache: one atomic action at a time, by anyone. */
  ghost predicate IsRun(run: seq<State>) {
    |run| > 0 && run[0] == Initial
    && forall i :: 0 <= i < |run| - 1 ==> Follows(run[i], run[i + 1])
  }

  ghost predicate Follows(s: State, s': State) {
    KnownOk(s) && exists a :: Can(s, a) && s' == Do(s, a)
  }

  lemma {:induction false} RunKeepsInv(run: seq<State>, i: nat)
    requires IsRun(run) && i < |run|
    ensures Inv(run[i])
  {
    if i == 0 {
      assert forall e :: References(Initial, e) == {};
    } else {
      RunKeepsInv(run, i - 1);
      assert Follows(run[i - 1], run[i]);
      var a :| Can(run[i - 1], a) && run[i] == Do(run[i - 1], a);
      StepKeepsInv(run[i - 1], a);
    }
  }

  /** A manager handed out by getSessionContext stays open, and cached, until its holder releases it. */
  lemma HeldManagerIsOpen(run: seq<State>, i: nat, t: Goroutine, e: EntryId)
    requires IsRun(run) && i < |run| && t in run[i].pcs && run[i].pcs[t] == Holding(e)
    ensures e in run[i].entries && run[i].entries[e].open && run[i].cached == Some(e)
  {
    RunKeepsInv(run, i);
  }

  /** The key never has two open managers. */
  lemma AtMostOneOpen(run: seq<State>, i: nat, e: EntryId, f: EntryId)
    requires IsRun(run) && i < |run| && e in run[i].entries && f in run[i].entries
    requires run[i].entries[e].open && run[i].entries[f].open
    ensures e == f
  {
    RunKeepsInv(run, i);
  }

  /** With the build slot free, the issuer's live token is the cached entry's, and there is none without an entry. */
  lemma FreeSlotTokenAgrees(run: seq<State>, i: nat)
    requires IsRun(run) && i < |run| && run[i].slot.Free?
    ensures KnownOk(run[i])
    ensures run[i].live == if run[i].cached.Some? then Some(run[i].entries[run[i].cached.value].token) else None
  {
    RunKeepsInv(run, i);
  }

  /** An eviction revokes the token of the entry it evicts, and no other: nothing newer is cached or issued. */
  lemma RevocationHitsItsOwnToken(run: seq<State>, i: nat)
    requires IsRun(run) && i < |run| && run[i].slot.Held? && run[i].slot.at.Revoke?
    ensures run[i].slot.e in run[i].entries
    ensures run[i].live == Some(run[i].entries[run[i].slot.e].token) && run[i].cached == None
  {
    RunKeepsInv(run, i);
  }

  // ---- A marked entry nobody uses is never handed out again ----

  ghost predicate Uses(pc: Pc, e: EntryId) { pc == Unmarked(e) || Counted(pc, e) }

  ghost predicate InHand(slot: Slot, e: EntryId) {
    slot.Held? && slot.e == e && (slot.at.Share? || slot.at.ReturnHolding? || slot.at.Issue? || slot.at.Store?)
  }

  ghost predicate Abandoned(s: State, e: EntryId) {
    e in s.entries && s.entries[e].stale && (forall t :: t in s.pcs ==> !Uses(s.pcs[t], e)) && !InHand(s.slot, e)
  }

  lemma AbandonedIsUncounted(s: State, e: EntryId)
    requires Inv(s) && Abandoned(s, e)
    ensures s.entries[e].refcount == 0
  {
    forall t | t in s.pcs ensures !Counted(s.pcs[t], e) { assert !Uses(s.pcs[t], e); }
    assert References(s, e) == {};
  }

  lemma StaysAbandonedInSlot(s: State, e: EntryId, tok: Token, id: EntryId)
    requires Inv(s) && Abandoned(s, e) && s.slot.Held? && id !in s.entries
    ensures Abandoned(RunInSlot(s, tok, id), e)
  {
    AbandonedIsUncounted(s, e);
    hide CountsOk, HoldersOk, TouchedOk, FreshIsPrivate, OpenOk, TokenOk, References;
  }

  lemma StaysAbandonedOutside(s: State, e: EntryId, t: Goroutine)
    requires Inv(s) && Abandoned(s, e) && t in s.pcs && s.pcs[t] != InSlot
    ensures Abandoned(RunOutside(s, t), e)
  {
    hide CountsOk, HoldersOk, TouchedOk, FreshIsPrivate, PhaseOk, OpenOk, TokenOk, References;
  }

  lemma StepKeepsAbandoned(s: State, a: Step, e: EntryId)
    requires Inv(s) && Can(s, a) && Abandoned(s, e)
    ensures Abandoned(Do(s, a), e)
  {
    match a {
      case Run(t, tok, id) =>
        hide RunInSlot, RunOutside, Abandoned;
        if s.pcs[t] == InSlot { StaysAbandonedInSlot(s, e, tok, id); } else { StaysAbandonedOutside(s, e, t); }
      case _ =>
        hide CountsOk, HoldersOk, TouchedOk, FreshIsPrivate, PhaseOk, OpenOk, TokenOk, References;
    }
  }

  lemma NobodyHolds(s: State, e: EntryId)
    requires Abandoned(s, e)
    ensures forall t :: t in s.pcs ==> s.pcs[t] != Holding(e)
  {
    forall t | t in s.pcs ensures s.pcs[t] != Holding(e) { assert !Uses(s.pcs[t], e); }
  }

  /** Once nobody uses a marked entry, nobody ever holds it, or looks at it to take it, again. */
  lemma {:induction false} AbandonedForGood(run: seq<State>, i: nat, j: nat, e: EntryId)
    requires IsRun(run) && i <= j < |run| && Abandoned(run[i], e)
    ensures Abandoned(run[j], e) && forall t :: t in run[j].pcs ==> run[j].pcs[t] != Holding(e)
  {
    if i < j {
      AbandonedForGood(run, i, j - 1, e);
      RunKeepsInv(run, j - 1);
      assert Follows(run[j - 1], run[j]);
      var a :| Can(run[j - 1], a) && run[j] == Do(run[j - 1], a);
      hide Inv, Can, Do, Abandoned;
      StepKeepsAbandoned(run[j - 1], a, e);
    }
    NobodyHolds(run[j], e);
  }

  /** A configuration reload's mark abandons what nobody uses. */
  lemma MarkAbandons(s: State, e: EntryId)
    requires Inv(s) && Can(s, Mark(e)) && !InHand(s.slot, e) && forall t :: t in s.pcs ==> !Uses(s.pcs[t], e)
    ensures Abandoned(Do(s, Mark(e)), e)
  {
    hide Inv;
  }

  /** A reissued token is the cached entry's and the live one, whoever is building or evicting. */
  lemma ReissuedIsLive(s: State, t: Goroutine, tok: Token)
    requires Inv(s) && Can(s, Reissue(t, tok))
    ensures var s' := Do(s, Reissue(t, tok));
      s'.cached == s.cached && s'.cached.value in s'.entries && s'.entries[s'.cached.value].token == tok && s'.live == Some(tok)
  {
    hide CountsOk, HoldersOk, TouchedOk, FreshIsPrivate, OpenOk, TokenOk;
  }

  /** In getSessionContext, still without an entry. */
  ghost predicate Calling(s: State, t: Goroutine) {
    t in s.pcs
    && (s.pcs[t].Top? || s.pcs[t].Loaded? || s.pcs[t].Unmarked? || s.pcs[t].Referenced? || s.pcs[t].BackOff? || s.pcs[t].WantSlot?
        || s.pcs[t].Parked? || (s.pcs[t] == InSlot && s.slot.Held? && s.slot.owner == t && s.slot.building && !s.slot.at.Return?))
  }

  /** Whoever took the slot to get an entry is on its way to one. */
  ghost predicate BuildersBuild(s: State) {
    s.slot.Held? && s.slot.building ==>
      !s.slot.at.EvictLook? && !s.slot.at.DiscardLook? && !s.slot.at.EvictMark? && !s.slot.at.EvictCount? && !s.slot.at.Return?
  }

  lemma StepKeepsBuilders(s: State, a: Step)
    requires Inv(s) && Can(s, a) && BuildersBuild(s)
    ensures BuildersBuild(Do(s, a))
  {
    hide CountsOk, HoldersOk, TouchedOk, FreshIsPrivate, OpenOk, TokenOk, PhaseOk, SlotOk;
  }

  lemma HolderGoesOn(s: State, tok: Token, id: EntryId)
    requires Inv(s) && BuildersBuild(s) && s.slot.Held? && s.slot.building && id !in s.entries
    ensures var t, s' := s.slot.owner, RunInSlot(s, tok, id); Calling(s', t) || (t in s'.pcs && s'.pcs[t].Holding?)
    ensures forall u :: u != s.slot.owner && Calling(s, u) ==> Calling(RunInSlot(s, tok, id), u)
  {
    hide CountsOk, HoldersOk, TouchedOk, FreshIsPrivate, OpenOk, TokenOk, PhaseOk;
  }

  lemma CallerGoesOn(s: State, a: Step, t: Goroutine)
    requires Inv(s) && Can(s, a) && Calling(s, t) && !(a.Run? && s.pcs[a.t] == InSlot && s.slot.building)
    ensures var s' := Do(s, a); Calling(s', t) || (t in s'.pcs && s'.pcs[t].Holding?)
  {
    hide CountsOk, HoldersOk, TouchedOk, FreshIsPrivate, OpenOk, TokenOk, PhaseOk;
  }

  lemma {:induction false} RunKeepsBuilders(run: seq<State>, i: nat)
    requires IsRun(run) && i < |run|
    ensures Inv(run[i]) && BuildersBuild(run[i])
  {
    RunKeepsInv(run, i);
    if i > 0 {
      RunKeepsBuilders(run, i - 1);
      assert Follows(run[i - 1], run[i]);
      var a :| Can(run[i - 1], a) && run[i] == Do(run[i - 1], a);
      StepKeepsBuilders(run[i - 1], a);
    }
  }

  /** A call of getSessionContext goes on until it holds an entry: no step ends it otherwise. */
  lemma CallsEndHolding(run: seq<State>, i: nat, t: Goroutine)
    requires IsRun(run) && i + 1 < |run| && Calling(run[i], t)
    ensures Calling(run[i + 1], t) || (t in run[i + 1].pcs && run[i + 1].pcs[t].Holding?)
  {
    var s := run[i];
    RunKeepsBuilders(run, i);
    assert Follows(s, run[i + 1]);
    var a :| Can(s, a) && run[i + 1] == Do(s, a);
    assert a.Run? && s.pcs[a.t] == InSlot ==> s.slot.Held? && s.slot.owner == a.t;
    hide IsRun, Calling, Inv, RunInSlot, RunOutside, BuildersBuild;
    if a.Run? && s.pcs[a.t] == InSlot && s.slot.building {
      HolderGoesOn(s, a.tok, a.id);
    } else {
      CallerGoesOn(s, a, t);
    }
  }

  // ---- What one call does when nobody else moves ----

  /** s' is reached from s by the goroutine t alone. */
  ghost predicate Alone(s: State, s': State, t: Goroutine) { exists run :: AloneBy(run, s, s', t) }

  ghost predicate AloneBy(run: seq<State>, s: State, s': State, t: Goroutine) {
    |run| > 0 && run[0] == s && run[|run| - 1] == s' && forall i :: 0 <= i < |run| - 1 ==> Moves(run[i], run[i + 1], t)
  }

  ghost predicate Moves(s: State, s': State, t: Goroutine) {
    KnownOk(s) && exists tok, id :: Can(s, Run(t, tok, id)) && s' == Do(s, Run(t, tok, id))
  }

  lemma Still(s: State, t: Goroutine)
    ensures Alone(s, s, t)
  {
    assert AloneBy([s], s, s, t);
  }

  /** One action more. */
  lemma Next(s: State, now: State, t: Goroutine, tok: Token, id: EntryId) returns (then_: State)
    requires Inv(now) && Alone(s, now, t) && Can(now, Run(t, tok, id))
    ensures then_ == Do(now, Run(t, tok, id)) && Inv(then_) && Alone(s, then_, t)
  {
    then_ := Do(now, Run(t, tok, id));
    var run :| AloneBy(run, s, now, t);
    StepKeepsInv(now, Run(t, tok, id));
    assert Moves(now, then_, t);
    hide Inv, Moves, Do, Can;
    assert AloneBy(run + [then_], s, then_, t);
  }

  /** The slot is free to take, and what is cached, if anything, is marked. */
  lemma TakesSlot(s: State, t: Goroutine, id: EntryId) returns (s': State)
    requires Inv(s) && s.slot.Free? && t in s.pcs && s.pcs[t] == Top && id !in s.entries
    requires s.cached.Some? ==> s.entries[s.cached.value].stale
    ensures Inv(s') && Alone(s, s', t)
    ensures s' == s.(slot := Held(t, if s.cached.Some? then LookMark else Create, if s.cached.Some? then s.cached.value else 0, true),
                     pcs := s.pcs[t := InSlot])
  {
    Still(s, t);
    hide Inv, Alone;
    s' := Next(s, s, t, 0, id);
    if s.cached.Some? { s' := Next(s, s', t, 0, id); }
    s' := Next(s, s', t, 0, id);
    s' := Next(s, s', t, 0, id);
  }

  lemma Builds(s: State, now: State, t: Goroutine, tok: Token, id: EntryId, spare: EntryId) returns (s': State)
    requires Inv(now) && Alone(s, now, t) && t in now.pcs && now.pcs[t] == InSlot && now.slot.Held? && now.slot.owner == t && now.slot.at.Create?
    requires id !in now.entries && spare !in now.entries && spare != id
    ensures Inv(s') && Alone(s, s', t)
    ensures s' == now.(entries := now.entries[id := Entry(1, false, true, tok)], cached := Some(id), live := Some(tok),
                       slot := Free, pcs := now.pcs[t := Holding(id)])
  {
    hide Inv, Alone;
    s' := Next(s, now, t, tok, id);
    s' := Next(s, s', t, tok, spare);
    s' := Next(s, s', t, tok, spare);
    s' := Next(s, s', t, tok, spare);
    assert s'.entries == now.entries[id := Entry(1, false, true, tok)];
  }

  lemma Evicts(s: State, now: State, t: Goroutine, spare: EntryId) returns (s': State)
    requires Inv(now) && Alone(s, now, t) && t in now.pcs && now.pcs[t] == InSlot && now.slot.Held? && now.slot.owner == t && now.slot.at.Unpublish?
    requires spare !in now.entries
    ensures now.slot.e in now.entries && Inv(s') && Alone(s, s', t)
    ensures s' == now.(entries := now.entries[now.slot.e := now.entries[now.slot.e].(open := false)], cached := None, live := None,
                       slot := now.slot.(at := if now.slot.building then Create else Return))
  {
    assert now.slot.e in now.entries;
    hide Inv, Alone;
    s' := Next(s, now, t, 0, spare);
    s' := Next(s, s', t, 0, spare);
    s' := Next(s, s', t, 0, spare);
  }

  lemma SharesUnmarked(s: State, t: Goroutine, id: EntryId) returns (s': State)
    requires Inv(s) && t in s.pcs && s.pcs[t] == Top && id !in s.entries && s.cached.Some? && !s.entries[s.cached.value].stale
    ensures Alone(s, s', t)
    ensures s' == AddRef(s, s.cached.value, 1).(pcs := s.pcs[t := Holding(s.cached.value)])
  {
    assert s.cached.value in s.entries;
    Still(s, t);
    hide Inv, Alone;
    s' := Next(s, s, t, 0, id);
    s' := Next(s, s', t, 0, id);
    s' := Next(s, s', t, 0, id);
    s' := Next(s, s', t, 0, id);
    assert s'.pcs == s.pcs[t := Holding(s.cached.value)];
  }

  lemma SharesMarked(s: State, t: Goroutine, id: EntryId) returns (s': State)
    requires Inv(s) && s.slot.Free? && t in s.pcs && s.pcs[t] == Top && id !in s.entries && s.cached.Some?
    requires s.entries[s.cached.value].stale && s.entries[s.cached.value].refcount > 0
    ensures Alone(s, s', t)
    ensures s' == AddRef(s, s.cached.value, 1).(pcs := s.pcs[t := Holding(s.cached.value)])
  {
    s' := TakesSlot(s, t, id);
    hide Inv, Alone;
    s' := Next(s, s', t, 0, id);
    s' := Next(s, s', t, 0, id);
    s' := Next(s, s', t, 0, id);
    s' := Next(s, s', t, 0, id);
    assert s'.pcs == s.pcs[t := Holding(s.cached.value)];
  }

  /** getSessionContext, undisturbed, shares the cached entry unless it is marked and unused, */
  lemma SharesWhatMayBeShared(s: State, t: Goroutine, id: EntryId) returns (s': State)
    requires Inv(s) && s.slot.Free? && t in s.pcs && s.pcs[t] == Top && id !in s.entries && s.cached.Some?
    requires !s.entries[s.cached.value].stale || s.entries[s.cached.value].refcount > 0
    ensures Alone(s, s', t)
    ensures s' == AddRef(s, s.cached.value, 1).(pcs := s.pcs[t := Holding(s.cached.value)])
  {
    if s.entries[s.cached.value].stale { s' := SharesMarked(s, t, id); } else { s' := SharesUnmarked(s, t, id); }
  }

  /** and builds one otherwise, once the marked one is uncached, its token revoked and its manager closed. */
  lemma BuildsWhatIsMissing(s: State, t: Goroutine, tok: Token, id: EntryId, spare: EntryId) returns (s': State)
    requires Inv(s) && s.slot.Free? && t in s.pcs && s.pcs[t] == Top && id !in s.entries && spare !in s.entries && spare != id
    requires s.cached.Some? ==> s.entries[s.cached.value].stale && s.entries[s.cached.value].refcount <= 0
    ensures Alone(s, s', t) && KnownOk(s)
    ensures var closed := if s.cached.Some? then SetEntry(s, s.cached.value, s.entries[s.cached.value].(open := false)) else s;
      s' == SetEntry(closed, id, Entry(1, false, true, tok)).(cached := Some(id), live := Some(tok), pcs := s.pcs[t := Holding(id)])
  {
    assert KnownOk(s) && CountsOk(s);
    s' := TakesSlot(s, t, id);
    hide Inv, Alone;
    if s.cached.Some? {
      s' := Next(s, s', t, 0, id);
      s' := Next(s, s', t, 0, id);
      s' := Evicts(s, s', t, spare);
    }
    s' := Builds(s, s', t, tok, id, spare);
    assert s'.pcs == s.pcs[t := Holding(id)];
  }

  lemma LooksToEvict(s: State, t: Goroutine, id: EntryId) returns (s': State)
    requires Inv(s) && s.slot.Free? && t in s.pcs && s.pcs[t].EvictWant? && id !in s.entries
    ensures s.pcs[t].e in s.entries && Inv(s') && Alone(s, s', t)
    ensures s' == s.(slot := Held(t, if s.cached == Some(s.pcs[t].e) then EvictMark else Return, s.pcs[t].e, false), pcs := s.pcs[t := InSlot])
  {
    assert s.pcs[t].e in s.entries;
    Still(s, t);
    hide Inv, Alone;
    s' := Next(s, s, t, 0, id);
    s' := Next(s, s', t, 0, id);
  }

  /** tryEvictEntry, undisturbed, marks the entry it was handed if it is still cached, and closes it if nobody uses it. */
  lemma EvictsWhatIsUnused(s: State, t: Goroutine, id: EntryId) returns (s': State)
    requires Inv(s) && s.slot.Free? && t in s.pcs && s.pcs[t].EvictWant? && id !in s.entries
    ensures s.pcs[t].e in s.entries && Alone(s, s', t)
    ensures var e, gone := s.pcs[t].e, s.(pcs := s.pcs[t := Outside]);
      s' == if s.cached != Some(e) then gone
            else if s.entries[e].refcount > 0 then SetStale(gone, e)
            else SetEntry(gone, e, s.entries[e].(stale := true, open := false)).(cached := None, live := None)
  {
    var e := s.pcs[t].e;
    s' := LooksToEvict(s, t, id);
    hide Inv, Alone;
    if s.cached == Some(e) {
      s' := Next(s, s', t, 0, id);
      s' := Next(s, s', t, 0, id);
      if s.entries[e].refcount <= 0 { s' := Evicts(s, s', t, id); }
    }
    s' := Next(s, s', t, 0, id);
    assert s'.pcs == s.pcs[t := Outside];
  }

  /** discardConversation, undisturbed, does the same with whatever is cached. */
  lemma DiscardsWhatIsUnused(s: State, t: Goroutine, id: EntryId) returns (s': State)
    requires Inv(s) && s.slot.Free? && t in s.pcs && s.pcs[t] == DiscardWant && id !in s.entries
    ensures (s.cached.Some? ==> s.cached.value in s.entries) && Alone(s, s', t)
    ensures var gone := s.(pcs := s.pcs[t := Outside]);
      s' == if s.cached.None? then gone
            else if s.entries[s.cached.value].refcount > 0 then SetStale(gone, s.cached.value)
            else SetEntry(gone, s.cached.value, s.entries[s.cached.value].(stale := true, open := false)).(cached := None, live := None)
  {
    s' := LooksToDiscard(s, t, id);
    hide Inv, Alone;
    if s.cached.Some? {
      s' := Next(s, s', t, 0, id);
      s' := Next(s, s', t, 0, id);
      if s.entries[s.cached.value].refcount <= 0 { s' := Evicts(s, s', t, id); }
    }
    s' := Next(s, s', t, 0, id);
    assert s'.pcs == s.pcs[t := Outside];
  }

  lemma LooksToDiscard(s: State, t: Goroutine, id: EntryId) returns (s': State)
    requires Inv(s) && s.slot.Free? && t in s.pcs && s.pcs[t] == DiscardWant && id !in s.entries
    ensures (s.cached.Some? ==> s.cached.value in s.entries) && Inv(s') && Alone(s, s', t)
    ensures s' == s.(slot := Held(t, if s.cached.Some? then EvictMark else Return, if s.cached.Some? then s.cached.value else 0, false),
                     pcs := s.pcs[t := InSlot])
  {
    assert KnownOk(s);
    Still(s, t);
    hide Inv, Alone;
    s' := Next(s, s, t, 0, id);
    s' := Next(s, s', t, 0, id);
  }
}
