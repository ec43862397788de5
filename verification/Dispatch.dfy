/**
 * Session dispatch: the life of every inbound message from its arrival to its
 * reply, with any number of goroutines. The first to find a session idle
 * becomes its owner and drains it; /cancel drops what is queued and cancels
 * the running turn; idle sessions are pruned and recreated.
 */
module Dispatch {
  import opened Common
  import opened Batching
  import opened TurnReply

  type Key = int
  type Sid = int         // identifies a sessionState
  type Worker = int      // a goroutine

  /** A goroutine, named after its next action. */
  datatype Pc =
    | Outside
    | Acquiring(key: Key, m: Message, isCancel: bool)
    | Acquired(sid: Sid, m: Message, isCancel: bool)
    | Cancelling(sid: Sid, m: Message, dropped: seq<Message>)  // publish the replies the dropped messages require
    | CancelTurn(sid: Sid, m: Message)                         // run the /cancel command's own turn
    | Draining(sid: Sid)                                       // take the next batch
    | Waiting(sid: Sid, batch: seq<Message>)                   // wait for a turn slot
    | Turning(sid: Sid, batch: seq<Message>)
    | AfterTurn(sid: Sid)                                      // forget the turn's cancel function
    | Releasing(sid: Sid)

  /** A sessionState. owner is the goroutine that set busy. */
  datatype Session = Session(
    key: Key, refs: int, busy: bool, owner: Worker, pending: seq<Message>,
    turnCancel: bool,      // a running turn can be cancelled
    cancelled: bool)       // the latest turn's context was cancelled by /cancel

  datatype Place = InHand(g: Worker) | Queued(sid: Sid) | DroppedBy(g: Worker) | InTurn(g: Worker) | Settled | Lost

  datatype Track = Track(m: Message, place: Place)

  datatype State = State(
    sessions: map<Key, Sid>,
    states: map<Sid, Session>,     // every sessionState ever made, pruned or not
    pcs: map<Worker, Pc>,
    stopping: bool,                // the run context has ended
    out: seq<Outbound>,            // final replies published
    tracks: map<int, Track>)       // where each arrival is

  const Initial := State(map[], map[], map[], false, [], map[])

  datatype Step =
    | Arrive(g: Worker, key: Key, m: Message, isCancel: bool)
    | Acquire(g: Worker, made: Sid)
    | Enqueue(g: Worker)
    | CancelSession(g: Worker)
    | PublishDropped(g: Worker)
    | Take(g: Worker, eachAlone: bool)
    | GetSlot(g: Worker)
    | NoSlot(g: Worker, byUser: bool)        // the turn's context ended first
    | EndTurn(g: Worker, end: TurnEnd, rendered: string, roundSent: bool)
    | InterruptTurn(g: Worker, toPerson: bool)   // shutdown: only a turn that asks a person may reply
    | Return(g: Worker)
    | Release(g: Worker)
    | Prune(key: Key)
    | Shutdown

  // ---- What happens to one session ----

  /** A message is queued by g, which becomes the owner of an idle session. */
  function Enqueued(ss: Session, m: Message, g: Worker): Session {
    ss.(pending := ss.pending + [m], busy := true, owner := if ss.busy then ss.owner else g)
  }

  /** /cancel drops what is queued and cancels the running turn. */
  function Cancelled(ss: Session): Session {
    ss.(pending := [], turnCancel := false, cancelled := ss.cancelled || ss.turnCancel)
  }

  /** The owner takes the next batch, or stops owning; ended: the run context has. */
  ghost function Taken(ss: Session, eachAlone: bool, ended: bool): Session {
    if ss.pending == [] then ss.(busy := false)
    else if ended then ss.(pending := Rest(ss.pending, eachAlone), busy := false)
    else ss.(pending := Rest(ss.pending, eachAlone), turnCancel := true, cancelled := false)
  }

  // ---- Reading the state ----

  ghost predicate HasSid(pc: Pc) { !pc.Outside? && !pc.Acquiring? }

  ghost predicate Holds(pc: Pc, sid: Sid) { HasSid(pc) && pc.sid == sid }

  /** Running the loop of drainSession. */
  ghost predicate Owns(pc: Pc, sid: Sid) {
    (pc.Draining? || pc.Waiting? || pc.Turning? || pc.AfterTurn?) && pc.sid == sid
  }

  ghost predicate HasMessage(pc: Pc) { pc.Acquiring? || pc.Acquired? || pc.Cancelling? || pc.CancelTurn? }

  ghost predicate HasBatch(pc: Pc) { pc.Waiting? || pc.Turning? }

  ghost predicate Known(s: State) {
    (forall k :: k in s.sessions ==> s.sessions[k] in s.states && s.states[s.sessions[k]].key == k)
    && forall g :: g in s.pcs ==> (HasSid(s.pcs[g]) ==> s.pcs[g].sid in s.states) && (HasBatch(s.pcs[g]) ==> s.pcs[g].batch != [])
  }

  /** Requires its own reply, from a chat. */
  predicate Answerable(m: Message) { ReplyRequired(m) && Ordinary(m) }

  // ---- Steps ----

  ghost function TurnMessage(pc: Pc): Message
    requires pc.CancelTurn? || (HasBatch(pc) && pc.batch != [])
  {
    if pc.CancelTurn? then pc.m else Merged(pc.batch)
  }

  ghost function TurnParts(pc: Pc): seq<Message>
    requires pc.CancelTurn? || HasBatch(pc)
  {
    if pc.CancelTurn? then [pc.m] else pc.batch
  }

  ghost predicate Can(s: State, a: Step)
    requires Known(s)
  {
    match a
    case Arrive(g, _, m, _) => (g !in s.pcs || s.pcs[g].Outside?) && m.arrival !in s.tracks
    case Acquire(g, made) => g in s.pcs && s.pcs[g].Acquiring? && made !in s.states
    case Enqueue(g) => g in s.pcs && s.pcs[g].Acquired? && !s.pcs[g].isCancel
    case CancelSession(g) => g in s.pcs && s.pcs[g].Acquired? && s.pcs[g].isCancel
    case PublishDropped(g) => g in s.pcs && s.pcs[g].Cancelling?
    case Take(g, _) => g in s.pcs && s.pcs[g].Draining?
    case GetSlot(g) => g in s.pcs && s.pcs[g].Waiting?
    case NoSlot(g, byUser) =>
      g in s.pcs && s.pcs[g].Waiting? && if byUser then s.states[s.pcs[g].sid].cancelled else s.stopping
    case EndTurn(g, end, _, _) =>
      // Only an asked turn can end because its asker stopped waiting.
      g in s.pcs && (s.pcs[g].Turning? || s.pcs[g].CancelTurn?) && (Ordinary(TurnMessage(s.pcs[g])) ==> !Failed(end, AskerStopped))
    case InterruptTurn(g, _) => g in s.pcs && (s.pcs[g].Turning? || s.pcs[g].CancelTurn?) && s.stopping
    case Return(g) => g in s.pcs && s.pcs[g].AfterTurn?
    case Release(g) => g in s.pcs && s.pcs[g].Releasing?
    case Prune(key) => key in s.sessions && s.states[s.sessions[key]].refs == 0
    case Shutdown => true
  }

  ghost function Goto(s: State, g: Worker, pc: Pc): State { s.(pcs := s.pcs[g := pc]) }

  ghost function Put(s: State, sid: Sid, v: Session): State { s.(states := s.states[sid := v]) }

  /** The messages ms go to place. */
  ghost function Move(s: State, ms: seq<Message>, place: Place): (r: State)
    ensures r == s.(tracks := r.tracks)
  {
    s.(tracks := map x | x in s.tracks :: if s.tracks[x].m in ms then s.tracks[x].(place := place) else s.tracks[x])
  }

  ghost function Publish(s: State, more: seq<Outbound>): State { s.(out := s.out + more) }

  ghost function AcquireState(s: State, g: Worker, made: Sid): State
    requires Known(s) && g in s.pcs && s.pcs[g].Acquiring?
  {
    var pc := s.pcs[g];
    if pc.key in s.sessions then
      var sid := s.sessions[pc.key];
      Goto(Put(s, sid, s.states[sid].(refs := s.states[sid].refs + 1)), g, Acquired(sid, pc.m, pc.isCancel))
    else
      Goto(Put(s.(sessions := s.sessions[pc.key := made]), made, Session(pc.key, 1, false, 0, [], false, false)),
           g, Acquired(made, pc.m, pc.isCancel))
  }

  ghost function EnqueueState(s: State, g: Worker): State
    requires Known(s) && g in s.pcs && s.pcs[g].Acquired?
  {
    var sid, m := s.pcs[g].sid, s.pcs[g].m;
    Goto(Put(Move(s, [m], Queued(sid)), sid, Enqueued(s.states[sid], m, g)), g,
         if s.states[sid].busy then Releasing(sid) else Draining(sid))
  }

  ghost function CancelState(s: State, g: Worker): State
    requires Known(s) && g in s.pcs && s.pcs[g].Acquired?
  {
    var sid := s.pcs[g].sid;
    var ss := s.states[sid];
    Goto(Put(Move(s, ss.pending, DroppedBy(g)), sid, Cancelled(ss)), g, Cancelling(sid, s.pcs[g].m, ss.pending))
  }

  ghost function DroppedState(s: State, g: Worker): State
    requires Known(s) && g in s.pcs && s.pcs[g].Cancelling?
  {
    var pc := s.pcs[g];
    if pc.dropped == [] then Goto(s, g, CancelTurn(pc.sid, pc.m))
    else Goto(Publish(Move(s, [pc.dropped[0]], Settled), CancelledReply(pc.dropped[0])), g, pc.(dropped := pc.dropped[1..]))
  }

  ghost function TakeState(s: State, g: Worker, eachAlone: bool): State
    requires Known(s) && g in s.pcs && s.pcs[g].Draining?
  {
    var sid := s.pcs[g].sid;
    var ss := s.states[sid];
    var batch := Batch(ss.pending, eachAlone);
    var ss' := Taken(ss, eachAlone, s.stopping);
    if ss.pending == [] then Goto(Put(s, sid, ss'), g, Releasing(sid))
    else if s.stopping then Goto(Put(Move(s, batch, Lost), sid, ss'), g, Releasing(sid))
    else Goto(Put(Move(s, batch, InTurn(g)), sid, ss'), g, Waiting(sid, batch))
  }

  ghost function AfterTurnPc(pc: Pc): Pc
    requires HasSid(pc)
  {
    if pc.CancelTurn? then Releasing(pc.sid) else AfterTurn(pc.sid)
  }

  ghost function Do(s: State, a: Step): State
    requires Known(s) && Can(s, a)
  {
    match a
    case Arrive(g, key, m, isCancel) =>
      Goto(s.(tracks := s.tracks[m.arrival := Track(m, InHand(g))]), g, Acquiring(key, m, isCancel))
    case Acquire(g, made) => AcquireState(s, g, made)
    case Enqueue(g) => EnqueueState(s, g)
    case CancelSession(g) => CancelState(s, g)
    case PublishDropped(g) => DroppedState(s, g)
    case Take(g, eachAlone) => TakeState(s, g, eachAlone)
    case GetSlot(g) => Goto(s, g, Turning(s.pcs[g].sid, s.pcs[g].batch))
    case NoSlot(g, byUser) =>
      var pc := s.pcs[g];
      if byUser then Goto(Publish(Move(s, pc.batch, Settled), CancelledReply(Merged(pc.batch))), g, AfterTurn(pc.sid))
      else Goto(Move(s, pc.batch, Lost), g, AfterTurn(pc.sid))
    case EndTurn(g, end, rendered, roundSent) =>
      var pc := s.pcs[g];
      Goto(Publish(Move(s, TurnParts(pc), Settled), FinalReply(TurnMessage(pc), end, rendered, roundSent)), g, AfterTurnPc(pc))
    case InterruptTurn(g, toPerson) =>
      var pc := s.pcs[g];
      if toPerson then Goto(Publish(Move(s, TurnParts(pc), Settled), ShutdownReply(TurnMessage(pc), true)), g, AfterTurnPc(pc))
      else Goto(Move(s, TurnParts(pc), Lost), g, AfterTurnPc(pc))
    case Return(g) =>
      var sid := s.pcs[g].sid;
      Goto(Put(s, sid, s.states[sid].(turnCancel := false)), g, Draining(sid))
    case Release(g) =>
      var sid := s.pcs[g].sid;
      Goto(Put(s, sid, s.states[sid].(refs := s.states[sid].refs - 1)), g, Outside)
    case Prune(key) => s.(sessions := s.sessions - {key})
    case Shutdown => s.(stopping := true)
  }

  // ---- Who owns what ----

  ghost function Holders(s: State, sid: Sid): set<Worker> { set g | g in s.pcs && Holds(s.pcs[g], sid) }

  ghost predicate RefsOk(s: State) { forall sid :: sid in s.states ==> s.states[sid].refs == |Holders(s, sid)| }

  /** A held session is the one its key leads to. */
  ghost predicate MapOk(s: State) {
    forall sid :: sid in s.states && s.states[sid].refs > 0 ==> s.states[sid].key in s.sessions && s.sessions[s.states[sid].key] == sid
  }

  ghost predicate OwnersOk(s: State)
    requires Known(s)
  {
    (forall g :: g in s.pcs && HasSid(s.pcs[g]) ==>
       (Owns(s.pcs[g], s.pcs[g].sid) <==> s.states[s.pcs[g].sid].busy && s.states[s.pcs[g].sid].owner == g))
    && forall sid :: sid in s.states && s.states[sid].busy ==> s.states[sid].owner in s.pcs && Owns(s.pcs[s.states[sid].owner], sid)
  }

  ghost predicate PendingOk(s: State) {
    forall sid :: sid in s.states && s.states[sid].pending != [] && !s.stopping ==> s.states[sid].busy
  }

  ghost predicate Ownership(s: State) { Known(s) && RefsOk(s) && MapOk(s) && OwnersOk(s) && PendingOk(s) }

  lemma HolderIsCounted(s: State, g: Worker)
    requires Known(s) && RefsOk(s) && g in s.pcs && HasSid(s.pcs[g])
    ensures s.states[s.pcs[g].sid].refs > 0
  {
    assert g in Holders(s, s.pcs[g].sid);
  }

  /** What g's step on the session sid keeps of its lock and its references; other goroutines see none of it. */
  ghost predicate LocalMove(g: Worker, sid: Sid, before: Pc, after: Pc, ss: Session, ss': Session, stopping: bool) {
    (HasSid(before) ==> before.sid == sid) && (HasSid(after) ==> after.sid == sid)
    && (HasBatch(after) ==> after.batch != [])
    && ss'.key == ss.key
    && ss'.refs - (if HasSid(after) then 1 else 0) == ss.refs - (if HasSid(before) then 1 else 0)
    && (HasSid(after) ==> (Owns(after, sid) <==> ss'.busy && ss'.owner == g))
    && (ss'.busy && ss'.owner != g ==> ss.busy && ss.owner == ss'.owner)
    && (ss.busy && ss.owner != g ==> ss'.busy && ss'.owner == ss.owner)
    && (ss'.busy && ss'.owner == g ==> HasSid(after))
    && (ss'.pending != [] && !stopping ==> ss'.busy)
  }

  ghost predicate Moved(s: State, s': State, g: Worker, sid: Sid, after: Pc, ss': Session) {
    s'.pcs == s.pcs[g := after] && s'.states == s.states[sid := ss'] && s'.sessions == s.sessions && s'.stopping == s.stopping
  }

  ghost function PcOf(s: State, g: Worker): Pc { if g in s.pcs then s.pcs[g] else Outside }

  lemma RefsMove(s: State, s': State, g: Worker, sid: Sid, after: Pc, ss': Session)
    requires Ownership(s) && sid in s.states && Moved(s, s', g, sid, after, ss')
    requires LocalMove(g, sid, PcOf(s, g), after, s.states[sid], ss', s.stopping)
    ensures RefsOk(s')
  {
    hide MapOk, OwnersOk, PendingOk;
    forall t | t in s'.states ensures s'.states[t].refs == |Holders(s', t)| {
      SizeWhenOneMoves(Holders(s, t), Holders(s', t), g);
    }
  }

  /** A step that moves one goroutine and changes one session, by the rules, keeps everything. */
  lemma MoveKeeps(s: State, s': State, g: Worker, sid: Sid, after: Pc, ss': Session)
    requires Ownership(s) && sid in s.states && Moved(s, s', g, sid, after, ss')
    requires LocalMove(g, sid, PcOf(s, g), after, s.states[sid], ss', s.stopping)
    requires ss'.refs > 0 ==> ss'.key in s.sessions && s.sessions[ss'.key] == sid
    ensures Ownership(s')
  {
    RefsMove(s, s', g, sid, after, ss');
    hide RefsOk;
  }

  lemma BatchIsThere(q: seq<Message>, eachAlone: bool)
    requires q != []
    ensures Batch(q, eachAlone) != []
  {
    OldestComesFirst(q, eachAlone, |q|);
  }

  /** What is known of a goroutine in a session, without looking at any other. */
  lemma Facts(s: State, g: Worker)
    requires Ownership(s) && g in s.pcs && HasSid(s.pcs[g])
    ensures var sid := s.pcs[g].sid;
      sid in s.states && s.states[sid].refs > 0
      && s.states[sid].key in s.sessions && s.sessions[s.states[sid].key] == sid
      && (Owns(s.pcs[g], sid) <==> s.states[sid].busy && s.states[sid].owner == g)
      && (s.states[sid].pending != [] && !s.stopping ==> s.states[sid].busy)
      && (HasBatch(s.pcs[g]) ==> s.pcs[g].batch != [])
  {
    HolderIsCounted(s, g);
  }

  /** A step of a goroutine that is in a session. */
  ghost predicate InSession(a: Step) { !a.Arrive? && !a.Acquire? && !a.Prune? && !a.Shutdown? }

  /** Every such step changes nothing but its goroutine and its session, */
  lemma MovesOne(s: State, a: Step)
    requires Ownership(s) && Can(s, a) && InSession(a)
    ensures var s', g, sid := Do(s, a), a.g, s.pcs[a.g].sid;
      sid in s.states && sid in s'.states && g in s'.pcs && Moved(s, s', g, sid, s'.pcs[g], s'.states[sid])
  {
    var sid := s.pcs[a.g].sid;
    assert sid in s.states && s.states == s.states[sid := s.states[sid]];
    hide RefsOk, MapOk, OwnersOk, PendingOk, Move, Batch, Rest, Taken, Enqueued, Cancelled, Merged, FinalReply, CancelledReply, ShutdownReply, Failed, Answerable;
  }

  /** and those by the rules. */
  lemma MovesLocally(s: State, a: Step)
    requires Ownership(s) && Can(s, a) && InSession(a) && s.pcs[a.g].sid in Do(s, a).states && a.g in Do(s, a).pcs
    ensures var s', g, sid := Do(s, a), a.g, s.pcs[a.g].sid;
      sid in s.states && LocalMove(g, sid, s.pcs[g], s'.pcs[g], s.states[sid], s'.states[sid], s.stopping)
  {
    Facts(s, a.g);
    var sid := s.pcs[a.g].sid;
    if a.Take? && s.states[sid].pending != [] { BatchIsThere(s.states[sid].pending, a.eachAlone); }
    hide Ownership, Known, Move, Batch, Rest, Merged, FinalReply, CancelledReply, ShutdownReply, Ordinary, Failed, Answerable;
  }

  lemma StepsInSession(s: State, a: Step)
    requires Ownership(s) && Can(s, a) && InSession(a)
    ensures Ownership(Do(s, a))
  {
    var s', g, sid := Do(s, a), a.g, s.pcs[a.g].sid;
    Facts(s, g);
    MovesOne(s, a);
    MovesLocally(s, a);
    hide Ownership, Do;
    MoveKeeps(s, s', g, sid, s'.pcs[g], s'.states[sid]);
  }

  lemma Arriving(s: State, g: Worker, pc: Pc, tracks: map<int, Track>)
    requires Ownership(s) && (PcOf(s, g).Outside?) && pc.Acquiring?
    ensures Ownership(Goto(s.(tracks := tracks), g, pc))
  {
    var s' := Goto(s.(tracks := tracks), g, pc);
    assert forall sid :: Holders(s', sid) == Holders(s, sid);
    hide RefsOk;
  }

  /** A session made for a key that has none. */
  lemma MakingSession(s: State, key: Key, made: Sid)
    requires Ownership(s) && made !in s.states && key !in s.sessions
    ensures Ownership(Put(s.(sessions := s.sessions[key := made]), made, Session(key, 0, false, 0, [], false, false)))
  {
    var s' := Put(s.(sessions := s.sessions[key := made]), made, Session(key, 0, false, 0, [], false, false));
    assert forall sid :: Holders(s', sid) == Holders(s, sid);
    assert forall g :: g in s.pcs ==> !Holds(s.pcs[g], made);
    assert Holders(s, made) == {};
    hide Holders;
  }

  lemma AcquiringSession(s: State, g: Worker, made: Sid)
    requires Ownership(s) && g in s.pcs && s.pcs[g].Acquiring? && made !in s.states
    ensures Ownership(AcquireState(s, g, made))
  {
    var pc, s' := s.pcs[g], AcquireState(s, g, made);
    if pc.key in s.sessions {
      var sid := s.sessions[pc.key];
      NoStrangerOwns(s, sid, g);
      hide RefsOk, MapOk, OwnersOk, PendingOk;
      MoveKeeps(s, s', g, sid, s'.pcs[g], s'.states[sid]);
    } else {
      var t := Put(s.(sessions := s.sessions[pc.key := made]), made, Session(pc.key, 0, false, 0, [], false, false));
      MakingSession(s, pc.key, made);
      hide RefsOk, MapOk, OwnersOk, PendingOk;
      assert s'.states == t.states[made := s'.states[made]];
      MoveKeeps(t, s', g, made, s'.pcs[g], s'.states[made]);
    }
  }

  lemma NoStrangerOwns(s: State, sid: Sid, g: Worker)
    requires Ownership(s) && sid in s.states && !HasSid(PcOf(s, g))
    ensures s.states[sid].busy ==> s.states[sid].owner != g
    ensures s.states[sid].pending != [] && !s.stopping ==> s.states[sid].busy
  {
  }

  lemma PruningAndShutdown(s: State, a: Step)
    requires Ownership(s) && Can(s, a) && (a.Prune? || a.Shutdown?)
    ensures Ownership(Do(s, a))
  {
    assert forall sid :: Holders(Do(s, a), sid) == Holders(s, sid);
    hide Holders;
  }

  lemma OwnershipKept(s: State, a: Step)
    requires Ownership(s) && Can(s, a)
    ensures Ownership(Do(s, a))
  {
    match a {
      case Arrive(g, key, m, isCancel) =>
        Arriving(s, g, Acquiring(key, m, isCancel), s.tracks[m.arrival := Track(m, InHand(g))]);
      case Acquire(g, made) => AcquiringSession(s, g, made);
      case Prune(_) => PruningAndShutdown(s, a);
      case Shutdown => PruningAndShutdown(s, a);
      case _ => StepsInSession(s, a);
    }
  }

  // ---- Where every message is ----

  ghost predicate Tracked(s: State, m: Message, place: Place) { m.arrival in s.tracks && s.tracks[m.arrival] == Track(m, place) }

  ghost predicate NoRepeats(ms: seq<Message>) { forall m :: m in ms ==> multiset(ms)[m] == 1 }

  ghost predicate AllTracked(s: State, ms: seq<Message>, place: Place) { forall m :: m in ms ==> Tracked(s, m, place) }

  /** What a goroutine has in hand is where its tracks say. */
  ghost predicate PcTracked(s: State, g: Worker, pc: Pc) {
    (HasMessage(pc) ==> Tracked(s, pc.m, InHand(g)))
    && (pc.Cancelling? ==> NoRepeats(pc.dropped) && AllTracked(s, pc.dropped, DroppedBy(g)))
    && (HasBatch(pc) ==> AllTracked(s, pc.batch, InTurn(g)) && forall m :: m in pc.batch && RunsAlone(m) ==> pc.batch == [m])
  }

  ghost predicate QueueTracked(s: State, sid: Sid, pending: seq<Message>) {
    NoRepeats(pending) && AllTracked(s, pending, Queued(sid))
  }

  /** A message is where its track says. */
  ghost predicate IsAt(s: State, m: Message, place: Place) {
    match place
    case InHand(g) => g in s.pcs && HasMessage(s.pcs[g]) && s.pcs[g].m == m
    case Queued(sid) => sid in s.states && m in s.states[sid].pending
    case DroppedBy(g) => g in s.pcs && s.pcs[g].Cancelling? && m in s.pcs[g].dropped
    case InTurn(g) => g in s.pcs && HasBatch(s.pcs[g]) && m in s.pcs[g].batch
    case _ => true
  }

  /** Every message in the system is tracked to where it is, and only there. */
  ghost predicate TracksOk(s: State) {
    (forall x :: x in s.tracks ==> s.tracks[x].m.arrival == x && IsAt(s, s.tracks[x].m, s.tracks[x].place))
    && (forall g :: g in s.pcs ==> PcTracked(s, g, s.pcs[g]))
    && (forall sid :: sid in s.states ==> QueueTracked(s, sid, s.states[sid].pending))
    && forall x :: x in s.tracks && s.tracks[x].place.Lost? ==> s.stopping
  }

  ghost predicate OutOk(s: State) {
    (forall x :: x in s.tracks && Answerable(s.tracks[x].m) ==> RepliesTo(s.out, x) == if s.tracks[x].place.Settled? then 1 else 0)
    && forall x :: x !in s.tracks ==> RepliesTo(s.out, x) == 0
  }

  ghost predicate Inv(s: State) { Ownership(s) && TracksOk(s) && OutOk(s) }

  /** p is a place of g's or of the session sid. */
  ghost predicate Mine(p: Place, g: Worker, sid: Sid) {
    p == InHand(g) || p == Queued(sid) || p == DroppedBy(g) || p == InTurn(g)
  }

  /** Whatever g or the session had it still has, except ms. */
  ghost predicate KeepsRest(ms: seq<Message>, before: Pc, after: Pc, pending: seq<Message>, pending': seq<Message>) {
    (HasMessage(before) ==> before.m in ms || (HasMessage(after) && after.m == before.m))
    && (before.Cancelling? ==> forall m :: m in before.dropped ==> m in ms || (after.Cancelling? && m in after.dropped))
    && (HasBatch(before) ==> forall m :: m in before.batch ==> m in ms || (HasBatch(after) && m in after.batch))
    && forall m :: m in pending ==> m in ms || m in pending'
  }

  ghost predicate Relocates(s: State, s': State, g: Worker, sid: Sid, ms: seq<Message>, p: Place, p': Place) {
    g in s.pcs && g in s'.pcs && s'.pcs == s.pcs[g := s'.pcs[g]]
    && sid in s.states && sid in s'.states && s'.states == s.states[sid := s'.states[sid]]
    && s'.tracks == Move(s, ms, p').tracks && AllTracked(s, ms, p) && (ms != [] ==> Mine(p, g, sid))
    && KeepsRest(ms, s.pcs[g], s'.pcs[g], s.states[sid].pending, s'.states[sid].pending)
    && s'.stopping == s.stopping && (ms != [] && p'.Lost? ==> s.stopping)
  }

  lemma StaysTracked(s: State, s': State, ms: seq<Message>, p: Place, p': Place, m: Message, q: Place)
    requires s'.tracks == Move(s, ms, p').tracks && AllTracked(s, ms, p)
    ensures Tracked(s, m, q) && (ms == [] || q != p) ==> Tracked(s', m, q)
    ensures m in ms ==> Tracked(s', m, p')
  {
  }

  /** Moving ms disturbs nothing but what g and the session have. */
  lemma OthersStayTracked(s: State, s': State, g: Worker, sid: Sid, ms: seq<Message>, p: Place, p': Place)
    requires TracksOk(s) && Relocates(s, s', g, sid, ms, p, p')
    ensures forall h :: h in s.pcs && h != g ==> PcTracked(s', h, s'.pcs[h])
    ensures forall t :: t in s.states && t != sid ==> QueueTracked(s', t, s'.states[t].pending)
  {
    hide IsAt, KeepsRest, Move, NoRepeats, RunsAlone;
    forall h | h in s.pcs && h != g ensures PcTracked(s', h, s'.pcs[h]) {
      assert PcTracked(s, h, s.pcs[h]);
      forall m, q | Tracked(s, m, q) && (q == InHand(h) || q == DroppedBy(h) || q == InTurn(h)) ensures Tracked(s', m, q) {
        StaysTracked(s, s', ms, p, p', m, q);
      }
    }
    forall t | t in s.states && t != sid ensures QueueTracked(s', t, s'.states[t].pending) {
      assert QueueTracked(s, t, s.states[t].pending);
      forall m | Tracked(s, m, Queued(t)) ensures Tracked(s', m, Queued(t)) {
        StaysTracked(s, s', ms, p, p', m, Queued(t));
      }
    }
  }

  lemma RestIsAt(s: State, s': State, g: Worker, sid: Sid, ms: seq<Message>, p: Place, p': Place, x: int)
    requires TracksOk(s) && Relocates(s, s', g, sid, ms, p, p') && x in s.tracks && s.tracks[x].m !in ms
    ensures IsAt(s', s.tracks[x].m, s.tracks[x].place)
  {
    hide PcTracked, QueueTracked, AllTracked, Move;
  }

  lemma RelocationKeeps(s: State, s': State, g: Worker, sid: Sid, ms: seq<Message>, p: Place, p': Place)
    requires TracksOk(s) && Relocates(s, s', g, sid, ms, p, p')
    requires PcTracked(s', g, s'.pcs[g]) && QueueTracked(s', sid, s'.states[sid].pending)
    requires forall m :: m in ms ==> IsAt(s', m, p')
    ensures TracksOk(s')
  {
    OthersStayTracked(s, s', g, sid, ms, p, p');
    forall x | x in s'.tracks ensures s'.tracks[x].m.arrival == x && IsAt(s', s'.tracks[x].m, s'.tracks[x].place) {
      if s.tracks[x].m !in ms { RestIsAt(s, s', g, sid, ms, p, p', x); }
    }
    hide PcTracked, QueueTracked, IsAt, KeepsRest, AllTracked;
  }

  /** more answers the answerable among ms, once each, and nobody else. */
  ghost predicate Answers(s: State, ms: seq<Message>, more: seq<Outbound>, settles: bool) {
    (forall x :: x in s.tracks && Answerable(s.tracks[x].m) ==> RepliesTo(more, x) == if settles && s.tracks[x].m in ms then 1 else 0)
    && forall x :: x !in s.tracks ==> RepliesTo(more, x) == 0
  }

  lemma AnsweringKeeps(s: State, s': State, ms: seq<Message>, p: Place, p': Place, more: seq<Outbound>)
    requires OutOk(s) && AllTracked(s, ms, p) && !p.Settled? && s'.tracks == Move(s, ms, p').tracks && s'.out == s.out + more
    requires Answers(s, ms, more, p'.Settled?) && forall x :: x in s.tracks ==> s.tracks[x].m.arrival == x
    ensures OutOk(s')
  {
    forall x ensures RepliesTo(s'.out, x) == RepliesTo(s.out, x) + RepliesTo(more, x) { RepliesAdd(s.out, more, x); }
    hide RepliesTo, Answerable;
  }

  /** The reply to a batch's turn: whoever in the batch requires one is alone in it, and gets it. */
  lemma TurnAnswers(s: State, ms: seq<Message>, p: Place, more: seq<Outbound>, turn: Message)
    requires forall x :: x in s.tracks ==> s.tracks[x].m.arrival == x
    requires ms != [] && AllTracked(s, ms, p) && turn.arrival == ms[|ms| - 1].arrival
    requires forall m :: m in ms && Answerable(m) ==> ms == [m] && turn == m
    requires |more| <= 1 && (|more| == 1 ==> more[0].answers == turn.arrival)
    requires Answerable(turn) && turn in ms ==> |more| == 1
    ensures Answers(s, ms, more, true)
  {
    hide ReplyRequired, Ordinary;
    var last := ms[|ms| - 1];
    assert last in ms && Tracked(s, last, p);
    forall x ensures RepliesTo(more, x) == if |more| == 1 && x == last.arrival then 1 else 0 {
      if |more| == 1 { assert more[..0] == []; }
    }
    hide RepliesTo;
  }

  /** A step that answers nobody. */
  lemma SilentStep(s: State, s': State, ms: seq<Message>, p: Place, p': Place)
    requires OutOk(s) && TracksOk(s) && AllTracked(s, ms, p) && !p.Settled? && !p'.Settled?
    requires s'.tracks == Move(s, ms, p').tracks && s'.out == s.out
    ensures OutOk(s')
  {
    hide Answerable, PcTracked, QueueTracked, IsAt, RepliesTo;
  }

  lemma NothingMoves(s: State)
    ensures Move(s, [], Settled).tracks == s.tracks
  {
  }

  // ---- Step by step ----

  /** Steps that move no message. */
  lemma Standing(s: State, a: Step)
    requires Inv(s) && Can(s, a) && (a.GetSlot? || a.Return? || a.Release?)
    ensures TracksOk(Do(s, a)) && OutOk(Do(s, a))
  {
    var s', g, sid := Do(s, a), a.g, s.pcs[a.g].sid;
    NothingMoves(s);
    hide OutOk, Ownership, NoRepeats, RunsAlone;
    assert s'.states == s.states[sid := s'.states[sid]];
    assert PcTracked(s, g, s.pcs[g]) && QueueTracked(s, sid, s.states[sid].pending);
    RelocationKeeps(s, s', g, sid, [], Settled, Settled);
  }

  lemma Enqueueing(s: State, a: Step)
    requires Inv(s) && Can(s, a) && a.Enqueue?
    ensures TracksOk(Do(s, a)) && OutOk(Do(s, a))
  {
    var s', g, sid := Do(s, a), a.g, s.pcs[a.g].sid;
    var m := s.pcs[g].m;
    TrackFacts(s, g);
    hide OutOk, Ownership, Known, TracksOk, QueueTracked, RunsAlone, NoRepeats, Move;
    assert s'.states == s.states[sid := s'.states[sid]];
    MessageQueued(s, s', g, sid, m);
    SilentStep(s, s', [m], InHand(g), Queued(sid));
  }

  lemma MessageQueued(s: State, s': State, g: Worker, sid: Sid, m: Message)
    requires TracksOk(s) && g in s.pcs && s.pcs[g].Acquired? && s.pcs[g].sid == sid && s.pcs[g].m == m && sid in s.states
    requires PcTracked(s, g, s.pcs[g]) && QueueTracked(s, sid, s.states[sid].pending)
    requires sid in s'.states && s'.states == s.states[sid := s'.states[sid]] && s'.states[sid].pending == s.states[sid].pending + [m]
    requires g in s'.pcs && s'.pcs == s.pcs[g := s'.pcs[g]] && (s'.pcs[g] == Releasing(sid) || s'.pcs[g] == Draining(sid))
    requires s'.tracks == Move(s, [m], Queued(sid)).tracks && s'.stopping == s.stopping
    ensures TracksOk(s')
  {
    OneMoreNoRepeat(s.states[sid].pending, m);
    MovedTracked(s, s', [m], InHand(g), Queued(sid));
    hide TracksOk, RunsAlone, NoRepeats, Move;
    assert PcTracked(s', g, s'.pcs[g]) && QueueTracked(s', sid, s'.states[sid].pending);
    hide PcTracked, QueueTracked;
    RelocationKeeps(s, s', g, sid, [m], InHand(g), Queued(sid));
  }

  lemma CancellingQueue(s: State, a: Step)
    requires Inv(s) && Can(s, a) && a.CancelSession?
    ensures TracksOk(Do(s, a)) && OutOk(Do(s, a))
  {
    var s', g, sid := Do(s, a), a.g, s.pcs[a.g].sid;
    var q := s.states[sid].pending;
    TrackFacts(s, g);
    OneMoreNoRepeat([], s.pcs[g].m);
    MovedTracked(s, s', q, Queued(sid), DroppedBy(g));
    hide OutOk, Ownership, Known, TracksOk, RunsAlone, NoRepeats, Move;
    assert s'.states == s.states[sid := s'.states[sid]];
    RelocationKeeps(s, s', g, sid, q, Queued(sid), DroppedBy(g));
    SilentStep(s, s', q, Queued(sid), DroppedBy(g));
  }

  lemma HeadIsNoRepeat(ms: seq<Message>)
    requires ms != [] && NoRepeats(ms)
    ensures ms[0] !in ms[1..] && NoRepeats(ms[1..])
  {
    assert ms == [ms[0]] + ms[1..];
    assert ms[0] in ms;
    forall m | m in ms[1..] ensures m != ms[0] && multiset(ms[1..])[m] == 1 {
      assert m in multiset(ms[1..]) && multiset(ms)[m] == multiset([ms[0]])[m] + multiset(ms[1..])[m];
    }
  }

  lemma OneMoreNoRepeat(ms: seq<Message>, m: Message)
    requires NoRepeats(ms) && m !in ms
    ensures NoRepeats(ms + [m]) && NoRepeats([])
  {
  }

  /** Where ms and everything else are tracked once ms has moved. */
  lemma MovedTracked(s: State, s': State, ms: seq<Message>, p: Place, p': Place)
    requires AllTracked(s, ms, p) && s'.tracks == Move(s, ms, p').tracks
    ensures AllTracked(s', ms, p')
    ensures forall m, q :: Tracked(s, m, q) && m !in ms ==> Tracked(s', m, q)
  {
  }

  /** What the tracks say of a goroutine and its session. */
  lemma TrackFacts(s: State, g: Worker)
    requires Known(s) && TracksOk(s) && g in s.pcs && HasSid(s.pcs[g])
    ensures s.pcs[g].sid in s.states
    ensures PcTracked(s, g, s.pcs[g]) && QueueTracked(s, s.pcs[g].sid, s.states[s.pcs[g].sid].pending)
  {
  }

  lemma PublishingDropped(s: State, g: Worker)
    requires Inv(s) && g in s.pcs && s.pcs[g].Cancelling?
    ensures TracksOk(DroppedState(s, g)) && OutOk(DroppedState(s, g))
  {
    var s', sid, dropped := DroppedState(s, g), s.pcs[g].sid, s.pcs[g].dropped;
    TrackFacts(s, g);
    assert s'.states == s.states[sid := s.states[sid]];
    if dropped == [] {
      NothingMoves(s);
      hide OutOk, Ownership, RunsAlone;
      RelocationKeeps(s, s', g, sid, [], Settled, Settled);
    } else {
      HeadIsNoRepeat(dropped);
      DroppedAnswer(s, dropped[0], g);
      hide Known, TracksOk, Ownership, OutOk, RunsAlone, NoRepeats, CancelledReply, Move, Answers;
      HeadDropped(s, s', g, sid, dropped[0]);
      AnsweringKeeps(s, s', [dropped[0]], DroppedBy(g), Settled, CancelledReply(dropped[0]));
    }
  }

  lemma DroppedAnswer(s: State, m: Message, g: Worker)
    requires Inv(s) && Tracked(s, m, DroppedBy(g))
    ensures Answers(s, [m], CancelledReply(m), true) && forall x :: x in s.tracks ==> s.tracks[x].m.arrival == x
  {
    TurnAnswers(s, [m], DroppedBy(g), CancelledReply(m), m);
  }

  lemma HeadDropped(s: State, s': State, g: Worker, sid: Sid, m: Message)
    requires TracksOk(s) && g in s.pcs && s.pcs[g].Cancelling? && s.pcs[g].sid == sid && sid in s.states
    requires s.pcs[g].dropped != [] && m == s.pcs[g].dropped[0] && m !in s.pcs[g].dropped[1..] && NoRepeats(s.pcs[g].dropped[1..])
    requires PcTracked(s, g, s.pcs[g]) && QueueTracked(s, sid, s.states[sid].pending)
    requires s'.states == s.states && s'.pcs == s.pcs[g := s.pcs[g].(dropped := s.pcs[g].dropped[1..])]
    requires s'.tracks == Move(s, [m], Settled).tracks && s'.stopping == s.stopping
    ensures TracksOk(s')
  {
    MovedTracked(s, s', [m], DroppedBy(g), Settled);
    hide TracksOk, NoRepeats, RunsAlone, Move;
    assert s'.states == s.states[sid := s'.states[sid]];
    assert forall x :: x in s.pcs[g].dropped ==> x == m || x in s.pcs[g].dropped[1..];
    assert forall x :: x in s.pcs[g].dropped[1..] ==> x in s.pcs[g].dropped;
    assert PcTracked(s', g, s'.pcs[g]);
    assert QueueTracked(s', sid, s'.states[sid].pending);
    hide PcTracked, QueueTracked;
    RelocationKeeps(s, s', g, sid, [m], DroppedBy(g), Settled);
  }

  /** A batch and what it leaves behind share no message. */
  lemma TakingSplits(q: seq<Message>, eachAlone: bool)
    requires NoRepeats(q) && q != []
    ensures NoRepeats(Rest(q, eachAlone)) && Batch(q, eachAlone) != []
    ensures forall m :: m in q <==> m in Batch(q, eachAlone) || m in Rest(q, eachAlone)
    ensures forall m :: m in Batch(q, eachAlone) ==> m !in Rest(q, eachAlone)
    ensures forall m :: m in Batch(q, eachAlone) && RunsAlone(m) ==> Batch(q, eachAlone) == [m]
  {
    OldestComesFirst(q, eachAlone, |q|);
    NothingLost(q, eachAlone, |q|);
    forall m | m in Batch(q, eachAlone) && RunsAlone(m) ensures Batch(q, eachAlone) == [m] {
      AloneIsAlone(q, eachAlone, |q|, m);
    }
    assert q[..|q|] == q;
    var b, r := Batch(q, eachAlone), Rest(q, eachAlone);
    hide Batch, Rest, Chosen, RunsAlone;
    SplitMembers(q, b, r);
  }

  lemma SplitMembers(q: seq<Message>, b: seq<Message>, r: seq<Message>)
    requires NoRepeats(q) && multiset(b) + multiset(r) == multiset(q)
    ensures NoRepeats(r) && (forall m :: m in q <==> m in b || m in r) && forall m :: m in b ==> m !in r
  {
    forall m ensures (m in q <==> m in b || m in r) && (m in r ==> multiset(r)[m] == 1) && (m in b ==> m !in r) {
      assert multiset(q)[m] == multiset(b)[m] + multiset(r)[m];
      assert (m in q <==> m in multiset(q)) && (m in b <==> m in multiset(b)) && (m in r <==> m in multiset(r));
    }
  }

  lemma TakingBatch(s: State, g: Worker, eachAlone: bool)
    requires Inv(s) && g in s.pcs && s.pcs[g].Draining?
    ensures TracksOk(TakeState(s, g, eachAlone)) && OutOk(TakeState(s, g, eachAlone))
  {
    var s', sid := TakeState(s, g, eachAlone), s.pcs[g].sid;
    var q := s.states[sid].pending;
    TrackFacts(s, g);
    if q == [] {
      NothingMoves(s);
      hide OutOk, Ownership, RunsAlone;
      assert s'.states == s.states[sid := s'.states[sid]];
      RelocationKeeps(s, s', g, sid, [], Settled, Settled);
    } else {
      TakingSplits(q, eachAlone);
      hide OutOk, Ownership, Known, TracksOk, RunsAlone, NoRepeats, Batch, Rest, Move, PcTracked;
      BatchMoves(s, s', g, sid, Batch(q, eachAlone), if s.stopping then Lost else InTurn(g));
    }
  }

  lemma BatchMoves(s: State, s': State, g: Worker, sid: Sid, batch: seq<Message>, p': Place)
    requires TracksOk(s) && OutOk(s) && g in s.pcs && s.pcs[g] == Draining(sid) && sid in s.states
    requires PcTracked(s, g, s.pcs[g]) && QueueTracked(s, sid, s.states[sid].pending)
    requires batch != [] && sid in s'.states && s'.states == s.states[sid := s'.states[sid]] && NoRepeats(s'.states[sid].pending)
    requires forall m :: m in s.states[sid].pending <==> m in batch || m in s'.states[sid].pending
    requires forall m :: m in batch ==> m !in s'.states[sid].pending
    requires forall m :: m in batch && RunsAlone(m) ==> batch == [m]
    requires s'.tracks == Move(s, batch, p').tracks && s'.stopping == s.stopping && s'.out == s.out
    requires if s.stopping then p' == Lost && s'.pcs == s.pcs[g := Releasing(sid)]
             else p' == InTurn(g) && s'.pcs == s.pcs[g := Waiting(sid, batch)]
    ensures TracksOk(s') && OutOk(s')
  {
    MovedTracked(s, s', batch, Queued(sid), p');
    SilentStep(s, s', batch, Queued(sid), p');
    hide TracksOk, OutOk, NoRepeats, RunsAlone, Move;
    RelocationKeeps(s, s', g, sid, batch, Queued(sid), p');
  }

  ghost predicate HasTurn(pc: Pc) { pc.CancelTurn? || (HasBatch(pc) && pc.batch != []) }

  ghost function TurnPlace(g: Worker, pc: Pc): Place { if pc.CancelTurn? then InHand(g) else InTurn(g) }

  lemma TurnIsTracked(s: State, g: Worker)
    requires Inv(s) && g in s.pcs && HasTurn(s.pcs[g])
    ensures var ms, turn := TurnParts(s.pcs[g]), TurnMessage(s.pcs[g]);
      AllTracked(s, ms, TurnPlace(g, s.pcs[g])) && turn.arrival == ms[|ms| - 1].arrival
      && forall m :: m in ms && Answerable(m) ==> ms == [m] && turn == m
  {
    assert PcTracked(s, g, s.pcs[g]);
    var pc := s.pcs[g];
    if HasBatch(pc) && |pc.batch| == 1 {
      MergedAlone(pc.batch[0]);
      assert pc.batch == [pc.batch[0]];
    }
    hide TracksOk, OutOk, Ownership, HasCommandPrefix;
  }

  /** A turn ends, one way or another: its messages are settled, or lost to shutdown. */
  lemma TurnOver(s: State, s': State, g: Worker, p': Place, more: seq<Outbound>)
    requires Inv(s) && g in s.pcs && HasTurn(s.pcs[g]) && (p'.Settled? || (p'.Lost? && s.stopping))
    requires s' == Goto(Publish(Move(s, TurnParts(s.pcs[g]), p'), more), g, AfterTurnPc(s.pcs[g]))
    requires Answers(s, TurnParts(s.pcs[g]), more, p'.Settled?)
    ensures TracksOk(s') && OutOk(s')
  {
    var sid, ms := s.pcs[g].sid, TurnParts(s.pcs[g]);
    TurnIsTracked(s, g);
    assert QueueTracked(s, sid, s.states[sid].pending);
    hide Ownership, RunsAlone, NoRepeats, Answers, OutOk;
    assert s'.states == s.states[sid := s.states[sid]];
    RelocationKeeps(s, s', g, sid, ms, TurnPlace(g, s.pcs[g]), p');
    AnsweringKeeps(s, s', ms, TurnPlace(g, s.pcs[g]), p', more);
  }

  /** What a turn publishes at its end answers its messages, or it loses them to shutdown. */
  lemma TurnSettles(s: State, s': State, g: Worker, more: seq<Outbound>)
    requires Inv(s) && g in s.pcs && HasTurn(s.pcs[g])
    requires s' == Goto(Publish(Move(s, TurnParts(s.pcs[g]), Settled), more), g, AfterTurnPc(s.pcs[g]))
    requires |more| <= 1 && (|more| == 1 ==> more[0].answers == TurnMessage(s.pcs[g]).arrival)
    requires Answerable(TurnMessage(s.pcs[g])) ==> |more| == 1
    ensures TracksOk(s') && OutOk(s')
  {
    var pc := s.pcs[g];
    TurnIsTracked(s, g);
    TurnAnswers(s, TurnParts(pc), TurnPlace(g, pc), more, TurnMessage(pc));
    hide Ownership, OutOk, TracksOk, Answerable, Merged;
    TurnOver(s, s', g, Settled, more);
  }

  lemma TurnIsLost(s: State, s': State, g: Worker)
    requires Inv(s) && g in s.pcs && HasTurn(s.pcs[g]) && s.stopping
    requires s' == Goto(Move(s, TurnParts(s.pcs[g]), Lost), g, AfterTurnPc(s.pcs[g]))
    ensures TracksOk(s') && OutOk(s')
  {
    hide Ownership, OutOk, TracksOk, Answerable, Merged;
    assert s'.out == s.out + [];
    TurnOver(s, s', g, Lost, []);
  }

  lemma TurnEnds(s: State, a: Step)
    requires Inv(s) && Can(s, a) && (a.EndTurn? || a.NoSlot? || a.InterruptTurn?)
    ensures TracksOk(Do(s, a)) && OutOk(Do(s, a))
  {
    var g, turn := a.g, TurnMessage(s.pcs[a.g]);
    hide Ownership, OutOk, TracksOk, Merged;
    if a.EndTurn? {
      FinalReplyAnswers(turn, a.end, a.rendered, a.roundSent);
      if Answerable(turn) { RequiredIsAnsweredIff(turn, a.end, a.rendered, a.roundSent); }
      hide FinalReply, Answerable;
      TurnSettles(s, Do(s, a), g, FinalReply(turn, a.end, a.rendered, a.roundSent));
    } else if a.NoSlot? && a.byUser {
      CancelledReplyAnswers(turn);
      hide CancelledReply, Answerable;
      TurnSettles(s, Do(s, a), g, CancelledReply(turn));
    } else if a.InterruptTurn? && a.toPerson {
      ShutdownReplyAnswers(turn);
      hide ShutdownReply, Answerable;
      TurnSettles(s, Do(s, a), g, ShutdownReply(turn, true));
    } else {
      TurnIsLost(s, Do(s, a), g);
    }
  }

  lemma CancelledReplyAnswers(m: Message)
    ensures |CancelledReply(m)| <= 1 && (|CancelledReply(m)| == 1 ==> CancelledReply(m)[0].answers == m.arrival)
    ensures Answerable(m) ==> |CancelledReply(m)| == 1
  {
  }

  lemma ShutdownReplyAnswers(m: Message)
    ensures |ShutdownReply(m, true)| <= 1 && (|ShutdownReply(m, true)| == 1 ==> ShutdownReply(m, true)[0].answers == m.arrival)
    ensures Answerable(m) ==> |ShutdownReply(m, true)| == 1
  {
  }

  lemma FinalReplyAnswers(m: Message, end: TurnEnd, rendered: string, roundSent: bool)
    ensures var sent := FinalReply(m, end, rendered, roundSent); |sent| <= 1 && (|sent| == 1 ==> sent[0].answers == m.arrival)
  {
  }

  /** Nothing known of a message is forgotten. */
  ghost predicate TracksGrow(s: State, s': State) { forall m, p :: Tracked(s, m, p) ==> Tracked(s', m, p) }

  /** An idle goroutine takes up a message; nothing else moves. */
  lemma TakingUp(s: State, s': State, g: Worker)
    requires TracksOk(s) && TracksGrow(s, s') && g in s'.pcs && s'.pcs == s.pcs[g := s'.pcs[g]]
    requires s.states.Keys <= s'.states.Keys && s'.stopping == s.stopping
    requires forall sid :: sid in s'.states ==> s'.states[sid].pending == if sid in s.states then s.states[sid].pending else []
    requires (s'.pcs[g].Acquiring? || s'.pcs[g].Acquired?) && Tracked(s', s'.pcs[g].m, InHand(g))
    requires PcOf(s, g).Outside? || (HasMessage(PcOf(s, g)) && !PcOf(s, g).Cancelling? && s.pcs[g].m == s'.pcs[g].m)
    requires forall x :: x in s'.tracks && x !in s.tracks ==> s'.tracks[x] == Track(s'.pcs[g].m, InHand(g)) && x == s'.pcs[g].m.arrival
    ensures TracksOk(s')
  {
    forall h | h in s'.pcs ensures PcTracked(s', h, s'.pcs[h]) {
      if h != g { assert PcTracked(s, h, s.pcs[h]); }
    }
    forall sid | sid in s'.states ensures QueueTracked(s', sid, s'.states[sid].pending) {
      if sid in s.states { assert QueueTracked(s, sid, s.states[sid].pending); }
    }
    hide PcTracked, QueueTracked;
    forall x | x in s'.tracks
      ensures s'.tracks[x].m.arrival == x && IsAt(s', s'.tracks[x].m, s'.tracks[x].place) && (s'.tracks[x].place.Lost? ==> s'.stopping)
    {
      if x in s.tracks {
        assert Tracked(s, s.tracks[x].m, s.tracks[x].place);
        assert IsAt(s, s.tracks[x].m, s.tracks[x].place);
      }
    }
  }

  lemma MessageArrives(s: State, a: Step)
    requires Inv(s) && Can(s, a) && a.Arrive?
    ensures TracksOk(Do(s, a)) && OutOk(Do(s, a))
  {
    var s' := Do(s, a);
    assert TracksGrow(s, s');
    assert Tracked(s', a.m, InHand(a.g));
    assert OutOk(s') by { hide Ownership, TracksOk, Answerable; }
    hide TracksOk, OutOk, Ownership, TracksGrow;
    TakingUp(s, s', a.g);
  }

  lemma SessionAcquired(s: State, a: Step)
    requires Inv(s) && Can(s, a) && a.Acquire?
    ensures TracksOk(Do(s, a)) && OutOk(Do(s, a))
  {
    var s' := Do(s, a);
    assert s'.tracks == s.tracks && s'.out == s.out && s'.stopping == s.stopping;
    assert PcTracked(s, a.g, s.pcs[a.g]);
    hide TracksOk, OutOk, Ownership;
    TakingUp(s, s', a.g);
    AnswersStand(s, s');
  }

  lemma AnswersStand(s: State, s': State)
    requires OutOk(s) && s'.tracks == s.tracks && s'.out == s.out
    ensures OutOk(s')
  {
  }

  lemma OthersStep(s: State, a: Step)
    requires Inv(s) && Can(s, a) && (a.Prune? || a.Shutdown?)
    ensures TracksOk(Do(s, a)) && OutOk(Do(s, a))
  {
    hide Ownership, RepliesTo, RunsAlone, NoRepeats, Answerable;
  }

  /** No step of any goroutine breaks the invariant. */
  lemma StepKeepsInv(s: State, a: Step)
    requires Inv(s) && Can(s, a)
    ensures Inv(Do(s, a))
  {
    OwnershipKept(s, a);
    match a {
      case Arrive(_, _, _, _) => MessageArrives(s, a);
      case Acquire(_, _) => SessionAcquired(s, a);
      case Enqueue(_) => Enqueueing(s, a);
      case CancelSession(_) => CancellingQueue(s, a);
      case PublishDropped(g) => PublishingDropped(s, g);
      case Take(g, eachAlone) => TakingBatch(s, g, eachAlone);
      case EndTurn(_, _, _, _) => TurnEnds(s, a);
      case NoSlot(_, _) => TurnEnds(s, a);
      case InterruptTurn(_, _) => TurnEnds(s, a);
      case Prune(_) => OthersStep(s, a);
      case Shutdown => OthersStep(s, a);
      case _ => Standing(s, a);
    }
  }

  // ---- Whole runs ----

  ghost predicate Follows(s: State, s': State) { Known(s) && exists a :: Can(s, a) && s' == Do(s, a) }

  ghost predicate IsRun(run: seq<State>) {
    |run| > 0 && run[0] == Initial && forall i :: 0 <= i < |run| - 1 ==> Follows(run[i], run[i + 1])
  }

  lemma {:induction false} RunKeepsInv(run: seq<State>, i: nat)
    requires IsRun(run) && i < |run|
    ensures Inv(run[i])
  {
    if i > 0 {
      RunKeepsInv(run, i - 1);
      assert Follows(run[i - 1], run[i]);
      var a :| Can(run[i - 1], a) && run[i] == Do(run[i - 1], a);
      StepKeepsInv(run[i - 1], a);
    }
  }

  /** Two goroutines never drain the same key, however often its entry was pruned and made again. */
  lemma OneOwnerPerKey(run: seq<State>, i: nat, g: Worker, h: Worker, sid: Sid, sid': Sid)
    requires IsRun(run) && i < |run| && g in run[i].pcs && h in run[i].pcs
    requires Owns(run[i].pcs[g], sid) && Owns(run[i].pcs[h], sid') && sid in run[i].states && sid' in run[i].states
    requires run[i].states[sid].key == run[i].states[sid'].key
    ensures g == h && sid == sid'
  {
    RunKeepsInv(run, i);
    Facts(run[i], g);
    Facts(run[i], h);
  }

  /** While the run context is live, whatever is queued has an owner, in the session new arrivals join. */
  lemma NoLostWakeUp(run: seq<State>, i: nat, sid: Sid)
    requires IsRun(run) && i < |run| && sid in run[i].states && run[i].states[sid].pending != [] && !run[i].stopping
    ensures var ss := run[i].states[sid];
      ss.owner in run[i].pcs && Owns(run[i].pcs[ss.owner], sid) && ss.key in run[i].sessions && run[i].sessions[ss.key] == sid
  {
    RunKeepsInv(run, i);
    Facts(run[i], run[i].states[sid].owner);
  }

  /** A message that requires a reply from a chat never gets two. */
  lemma NeverTwoReplies(run: seq<State>, i: nat, x: int)
    requires IsRun(run) && i < |run| && x in run[i].tracks && Answerable(run[i].tracks[x].m)
    ensures RepliesTo(run[i].out, x) <= 1
  {
    RunKeepsInv(run, i);
  }

  /** Until it is answered, some goroutine is at work on it or on the session it is queued in, unless shutdown came first. */
  lemma UnansweredIsInHand(run: seq<State>, i: nat, x: int) returns (g: Worker)
    requires IsRun(run) && i < |run| && x in run[i].tracks && Answerable(run[i].tracks[x].m)
    requires RepliesTo(run[i].out, x) == 0 && !run[i].stopping
    ensures g in run[i].pcs && !run[i].pcs[g].Outside?
    ensures var place, pc := run[i].tracks[x].place, run[i].pcs[g];
      IsAt(run[i], run[i].tracks[x].m, place)
      && (place == InHand(g) || place == DroppedBy(g) || place == InTurn(g) || (place.Queued? && Owns(pc, place.sid)))
  {
    RunKeepsInv(run, i);
    var s := run[i];
    assert IsAt(s, s.tracks[x].m, s.tracks[x].place);
    match s.tracks[x].place {
      case InHand(h) => g := h;
      case DroppedBy(h) => g := h;
      case InTurn(h) => g := h;
      case Queued(sid) =>
        NoLostWakeUp(run, i, sid);
        g := s.states[sid].owner;
      case _ => g := 0;
    }
  }

  /** Once every goroutine is done, and without a shutdown, each has had exactly one. */
  lemma EveryoneIsAnsweredOnce(run: seq<State>, i: nat, x: int)
    requires IsRun(run) && i < |run| && x in run[i].tracks && Answerable(run[i].tracks[x].m)
    requires !run[i].stopping && forall g :: g in run[i].pcs ==> run[i].pcs[g].Outside?
    ensures RepliesTo(run[i].out, x) == 1
  {
    NeverTwoReplies(run, i, x);
    if RepliesTo(run[i].out, x) == 0 {
      var g := UnansweredIsInHand(run, i, x);
    }
  }

  /** A turn that ends publishes its reply to the chat of the last message it answers, and nothing else is published then. */
  lemma TurnReplies(s: State, g: Worker, end: TurnEnd, rendered: string, roundSent: bool)
    requires Inv(s) && Can(s, EndTurn(g, end, rendered, roundSent))
    ensures var parts, s' := TurnParts(s.pcs[g]), Do(s, EndTurn(g, end, rendered, roundSent));
      var last := parts[|parts| - 1];
      (end.err.None? && end.response != "" && end.outcome == "" && Ordinary(last) && !roundSent ==>
        s'.out == s.out + [Outbound(last.arrival, last.channel, last.chatId, last.messageId, end.response, OUTCOME_OK)])
      && (end.err.None? && end.response == "" && !ReplyRequired(last) ==> s'.out == s.out)
  {
    var pc := s.pcs[g];
    TurnIsTracked(s, g);
    TurnIsToTheLast(pc);
    hide Inv, TurnMessage, TurnParts, Decide, ReplyRequired, Move, Metadata, Known;
    hide FinalReply;
    if Ordinary(TurnMessage(pc)) && end.err.None? && end.response != "" && end.outcome == "" && !roundSent {
      PlainReply(TurnMessage(pc), end, rendered, roundSent);
    }
    if end.err.None? && end.response == "" && !ReplyRequired(TurnMessage(pc)) { NoReply(TurnMessage(pc), end, rendered, roundSent); }
  }

  /** A turn's message has the last of its messages' addresses, and requires what that does. */
  lemma TurnIsToTheLast(pc: Pc)
    requires HasTurn(pc)
    ensures TurnParts(pc) != []
    ensures var turn, last := TurnMessage(pc), TurnParts(pc)[|TurnParts(pc)| - 1];
      turn.arrival == last.arrival && turn.channel == last.channel && turn.chatId == last.chatId && turn.messageId == last.messageId
      && (ReplyRequired(turn) <==> ReplyRequired(last))
  {
    hide Lines, AllMedia, AllInternal;
  }

  lemma PlainReply(m: Message, end: TurnEnd, rendered: string, roundSent: bool)
    requires Ordinary(m) && end.err.None? && end.response != "" && end.outcome == "" && !roundSent
    ensures FinalReply(m, end, rendered, roundSent) == To(m, end.response, OUTCOME_OK)
  {
    AnsweredTurn(m, end, rendered, roundSent);
    hide FinalReply;
  }

  lemma NoReply(m: Message, end: TurnEnd, rendered: string, roundSent: bool)
    requires end.err.None? && end.response == "" && !ReplyRequired(m)
    ensures FinalReply(m, end, rendered, roundSent) == []
  {
    hide ReplyRequired;
  }

  // ---- A session's queue, over a run and its steps ----

  ghost predicate IsTrace(run: seq<State>, steps: seq<Step>) {
    |run| == |steps| + 1 && run[0] == Initial
    && forall i :: 0 <= i < |steps| ==> Takes(run[i], steps[i], run[i + 1])
  }

  ghost predicate Takes(s: State, a: Step, s': State) { Known(s) && Can(s, a) && s' == Do(s, a) }

  lemma {:induction false} TraceKeepsInv(run: seq<State>, steps: seq<Step>, n: nat)
    requires IsTrace(run, steps) && n < |run|
    ensures Inv(run[n])
  {
    forall i | 0 <= i < |run| - 1 ensures Follows(run[i], run[i + 1]) { assert Takes(run[i], steps[i], run[i + 1]); }
    hide Can, Do;
    assert IsRun(run);
    RunKeepsInv(run, n);
  }

  /** The step is one of a goroutine in the session sid. */
  ghost predicate On(s: State, a: Step, sid: Sid)
    requires Known(s) && Can(s, a)
  {
    InSession(a) && s.pcs[a.g].sid == sid
  }

  ghost function PendingOf(s: State, sid: Sid): seq<Message> { if sid in s.states then s.states[sid].pending else [] }

  /** What a step adds to a session's queue. */
  ghost function Joining(s: State, a: Step, sid: Sid): seq<Message>
    requires Known(s) && Can(s, a)
  {
    if a.Enqueue? && On(s, a, sid) then [s.pcs[a.g].m] else []
  }

  /** What a step does to a session's queue: a message joins at the end, a batch is taken, or /cancel empties it. */
  ghost function PendingAfter(s: State, a: Step, sid: Sid): seq<Message>
    requires Known(s) && Can(s, a)
  {
    var q := PendingOf(s, sid);
    if a.Take? && On(s, a, sid) then Rest(q, a.eachAlone)
    else if a.CancelSession? && On(s, a, sid) then []
    else q + Joining(s, a, sid)
  }

  lemma PendingElsewhere(s: State, a: Step, sid: Sid)
    requires Ownership(s) && Can(s, a) && InSession(a) && !On(s, a, sid)
    ensures PendingOf(Do(s, a), sid) == PendingOf(s, sid)
  {
    MovesOne(s, a);
    hide Ownership, Do, Can;
  }

  lemma PendingHere(s: State, a: Step, sid: Sid)
    requires Ownership(s) && Can(s, a) && On(s, a, sid)
    ensures PendingOf(Do(s, a), sid) == PendingAfter(s, a, sid)
  {
    assert sid in s.states;
    hide RefsOk, MapOk, OwnersOk, PendingOk, Move, Batch, Merged, FinalReply, CancelledReply, ShutdownReply, Failed, Answerable, Rest;
    if a.Take? && s.states[sid].pending == [] { NothingRests(a.eachAlone); }
  }

  lemma NothingRests(eachAlone: bool)
    ensures Rest([], eachAlone) == []
  {
  }

  lemma PendingOutside(s: State, a: Step, sid: Sid)
    requires Ownership(s) && Can(s, a) && !InSession(a)
    ensures PendingOf(Do(s, a), sid) == PendingOf(s, sid)
  {
    hide RefsOk, MapOk, OwnersOk, PendingOk;
  }

  lemma QueueMoves(s: State, a: Step, sid: Sid)
    requires Ownership(s) && Can(s, a)
    ensures PendingOf(Do(s, a), sid) == PendingAfter(s, a, sid)
  {
    assert Known(s);
    hide Ownership, Known, Do, Can, PendingOf;
    if !InSession(a) {
      PendingOutside(s, a, sid);
    } else if On(s, a, sid) {
      PendingHere(s, a, sid);
    } else {
      PendingElsewhere(s, a, sid);
    }
  }

  /** What was enqueued in the session in the first n steps. */
  ghost function Entered(run: seq<State>, steps: seq<Step>, sid: Sid, n: nat): seq<Message>
    requires IsTrace(run, steps) && n <= |steps|
  {
    if n == 0 then []
    else
      assert Takes(run[n - 1], steps[n - 1], run[n]);
      Entered(run, steps, sid, n - 1) + Joining(run[n - 1], steps[n - 1], sid)
  }

  /** Messages that left a queue together: a batch for a turn, or what /cancel dropped. */
  datatype Departure = Departure(ms: seq<Message>, dropped: bool)

  ghost function Departures(s: State, a: Step, sid: Sid): seq<Departure>
    requires Known(s) && Can(s, a)
  {
    if a.Take? && On(s, a, sid) then [Departure(Batch(PendingOf(s, sid), a.eachAlone), false)]
    else if a.CancelSession? && On(s, a, sid) then [Departure(PendingOf(s, sid), true)]
    else []
  }

  /** What left the session's queue in the first n steps. */
  ghost function Departed(run: seq<State>, steps: seq<Step>, sid: Sid, n: nat): seq<Departure>
    requires IsTrace(run, steps) && n <= |steps|
  {
    if n == 0 then []
    else
      assert Takes(run[n - 1], steps[n - 1], run[n]);
      Departed(run, steps, sid, n - 1) + Departures(run[n - 1], steps[n - 1], sid)
  }

  ghost function All(ds: seq<Departure>): seq<Message> {
    if ds == [] then [] else All(ds[..|ds| - 1]) + ds[|ds| - 1].ms
  }

  lemma AllAppends(ds: seq<Departure>, d: Departure)
    ensures All(ds + [d]) == All(ds) + d.ms && ds + [] == ds
  {
    assert (ds + [d])[..|ds|] == ds;
  }

  /** What a step takes out of the queue, and leaves in it, is what was there and what it enqueues, chat by chat. */
  lemma StepKeepsChat(s: State, a: Step, sid: Sid, chat: string)
    requires Known(s) && Can(s, a)
    ensures OfChat(All(Departures(s, a, sid)), chat) + OfChat(PendingAfter(s, a, sid), chat)
      == OfChat(PendingOf(s, sid), chat) + OfChat(Joining(s, a, sid), chat)
  {
    hide Can, Do, OfChat, Chosen, Batch, Rest, Known, All, PendingOf, InSession;
    var q := PendingOf(s, sid);
    NoneOfChat(chat);
    if a.Take? && On(s, a, sid) {
      AllOfOne(Departure(Batch(q, a.eachAlone), false));
      ChatOfRest(q, a.eachAlone, chat);
    } else if a.CancelSession? && On(s, a, sid) {
      AllOfOne(Departure(q, true));
    } else {
      OfChatJoins(q, Joining(s, a, sid), chat);
    }
  }

  lemma AllOfOne(d: Departure)
    ensures All([d]) == d.ms
  {
    assert [d] == [] + [d];
    AllAppends([], d);
  }

  lemma ChatOfRest(q: seq<Message>, eachAlone: bool, chat: string)
    ensures OfChat(Batch(q, eachAlone), chat) + OfChat(Rest(q, eachAlone), chat) == OfChat(q, chat)
  {
    ChatOrderIsKept(q, eachAlone, |q|, chat);
    assert q[..|q|] == q;
  }

  lemma NoneOfChat(chat: string)
    ensures OfChat([], chat) == [] && All([]) == []
  {
  }

  lemma {:induction false} AllJoins(a: seq<Departure>, b: seq<Departure>)
    ensures All(a + b) == All(a) + All(b)
  {
    if b == [] {
      assert a + b == a;
    } else {
      var init, last := b[..|b| - 1], b[|b| - 1];
      assert a + b == (a + init) + [last] && b == init + [last];
      AllJoins(a, init);
      AllAppends(a + init, last);
      AllAppends(init, last);
    }
  }

  /** In every session, each chat's messages leave in the order they were queued, in batches or dropped, and the rest wait in that order. */
  lemma {:induction false} ChatsStayInOrder(run: seq<State>, steps: seq<Step>, sid: Sid, n: nat, chat: string)
    requires IsTrace(run, steps) && n <= |steps|
    ensures OfChat(All(Departed(run, steps, sid, n)), chat) + OfChat(PendingOf(run[n], sid), chat) == OfChat(Entered(run, steps, sid, n), chat)
  {
    hide IsTrace, Inv, Ownership, Known, Can, Do, Takes, Entered, Departed, PendingOf, All, OfChat;
    assert |run| == |steps| + 1 by { TraceIsLonger(run, steps); }
    if n == 0 {
      NothingYet(run, steps, sid, chat);
    } else {
      ChatsStayInOrder(run, steps, sid, n - 1, chat);
      TraceKeepsInv(run, steps, n - 1);
      OneStepMore(run, steps, sid, n);
      OneStepInOrder(run[n - 1], steps[n - 1], sid, Departed(run, steps, sid, n - 1), Entered(run, steps, sid, n - 1), chat);
    }
  }

  lemma TraceIsLonger(run: seq<State>, steps: seq<Step>)
    requires IsTrace(run, steps)
    ensures |run| == |steps| + 1
  {
    hide Takes;
  }

  lemma NothingYet(run: seq<State>, steps: seq<Step>, sid: Sid, chat: string)
    requires IsTrace(run, steps)
    ensures OfChat(All(Departed(run, steps, sid, 0)), chat) + OfChat(PendingOf(run[0], sid), chat) == OfChat(Entered(run, steps, sid, 0), chat)
  {
    hide Takes, OfChat, All;
    NoneOfChat(chat);
  }

  lemma OneStepMore(run: seq<State>, steps: seq<Step>, sid: Sid, n: nat)
    requires IsTrace(run, steps) && 0 < n <= |steps|
    ensures Takes(run[n - 1], steps[n - 1], run[n]) && Known(run[n - 1]) && Can(run[n - 1], steps[n - 1])
    ensures run[n] == Do(run[n - 1], steps[n - 1])
    ensures Entered(run, steps, sid, n) == Entered(run, steps, sid, n - 1) + Joining(run[n - 1], steps[n - 1], sid)
    ensures Departed(run, steps, sid, n) == Departed(run, steps, sid, n - 1) + Departures(run[n - 1], steps[n - 1], sid)
  {
    assert Takes(run[n - 1], steps[n - 1], run[n]);
    hide Known, Can, Do, Joining, Departures;
  }

  lemma OneStepInOrder(s: State, a: Step, sid: Sid, gone: seq<Departure>, was: seq<Message>, chat: string)
    requires Inv(s) && Known(s) && Can(s, a) && OfChat(All(gone), chat) + OfChat(PendingOf(s, sid), chat) == OfChat(was, chat)
    ensures OfChat(All(gone + Departures(s, a, sid)), chat) + OfChat(PendingOf(Do(s, a), sid), chat)
      == OfChat(was + Joining(s, a, sid), chat)
  {
    QueueMoves(s, a, sid);
    hide Inv, Ownership, Known, Can, Do, OfChat, PendingOf, PendingAfter, Departures, Joining, All;
    StepKeepsChat(s, a, sid, chat);
    var leave, joins := Departures(s, a, sid), Joining(s, a, sid);
    AllJoins(gone, leave);
    OfChatJoins(All(gone), All(leave), chat);
    OfChatJoins(was, joins, chat);
    Regrouped(OfChat(All(gone), chat), OfChat(PendingOf(s, sid), chat), OfChat(was, chat),
              OfChat(All(leave), chat), OfChat(PendingAfter(s, a, sid), chat), OfChat(joins, chat));
  }

  lemma Regrouped(gone: seq<Message>, wait: seq<Message>, was: seq<Message>, leave: seq<Message>, wait': seq<Message>, joins: seq<Message>)
    requires gone + wait == was && leave + wait' == wait + joins
    ensures (gone + leave) + wait' == was + joins
  {
    assert (gone + leave) + wait' == gone + (leave + wait');
    assert gone + (wait + joins) == (gone + wait) + joins;
  }

  /** The batch taken is what the owner goes on to run, unless the run context has ended. */
  lemma TakenIsRun(s: State, g: Worker, eachAlone: bool)
    requires Known(s) && Can(s, Take(g, eachAlone)) && !s.stopping && PendingOf(s, s.pcs[g].sid) != []
    ensures var sid, s' := s.pcs[g].sid, Do(s, Take(g, eachAlone));
      g in s'.pcs && s'.pcs[g] == Waiting(sid, Batch(PendingOf(s, sid), eachAlone))
  {
    hide Batch, Rest, Move;
  }

  /** How many takes of the session's batches the steps from i to j hold. */
  ghost function TakesOf(run: seq<State>, steps: seq<Step>, sid: Sid, i: nat, j: nat): nat
    requires IsTrace(run, steps) && i <= j <= |steps|
    decreases j - i
  {
    if i == j then 0
    else
      assert Takes(run[i], steps[i], run[i + 1]);
      TakesOf(run, steps, sid, i + 1, j) + if steps[i].Take? && On(run[i], steps[i], sid) then 1 else 0
  }

  /** m leaves the session's queue by the step. */
  ghost predicate LeavesBy(s: State, a: Step, sid: Sid, m: Message)
    requires Known(s) && Can(s, a)
  {
    exists d :: d in Departures(s, a, sid) && m in d.ms
  }

  lemma StaysOrLeaves(s: State, a: Step, sid: Sid, p: nat) returns (next: int)
    requires Known(s) && Can(s, a) && p < |PendingOf(s, sid)|
    ensures next < 0 ==> LeavesBy(s, a, sid, PendingOf(s, sid)[p])
    ensures next >= 0 ==> next < |PendingAfter(s, a, sid)| && PendingAfter(s, a, sid)[next] == PendingOf(s, sid)[p]
    ensures next >= 0 ==> if a.Take? && On(s, a, sid) then next < p else next <= p
  {
    var q := PendingOf(s, sid);
    next := p;
    if a.Take? && On(s, a, sid) {
      if Joins(q, a.eachAlone, p) {
        JoinerIsTaken(q, a.eachAlone, p, |q|);
        assert Departures(s, a, sid)[0].ms == Batch(q, a.eachAlone);
        next := -1;
      } else {
        MovesUp(q, a.eachAlone, p, |q|);
        next := |Chosen(q, a.eachAlone, false, p)|;
      }
    } else if a.CancelSession? && On(s, a, sid) {
      assert Departures(s, a, sid)[0].ms == q;
      next := -1;
    }
    hide Can, Joins, Chosen, PendingOf;
  }

  /** Whatever arrives meanwhile, a message at index p has left by the session's (p + 1)-th take: at step k, in a batch or dropped. */
  lemma {:induction false} LeavesWithin(run: seq<State>, steps: seq<Step>, sid: Sid, i: nat, j: nat, p: nat) returns (k: nat)
    requires IsTrace(run, steps) && i <= j <= |steps| && p < |PendingOf(run[i], sid)| && TakesOf(run, steps, sid, i, j) > p
    ensures i <= k < j && Takes(run[k], steps[k], run[k + 1]) && LeavesBy(run[k], steps[k], sid, PendingOf(run[i], sid)[p])
    decreases j - i
  {
    assert Takes(run[i], steps[i], run[i + 1]);
    TraceKeepsInv(run, steps, i);
    QueueMoves(run[i], steps[i], sid);
    var next := StaysOrLeaves(run[i], steps[i], sid, p);
    hide Inv, Can, Do, PendingOf, PendingAfter, LeavesBy, On;
    if next < 0 {
      k := i;
    } else {
      k := LeavesWithin(run, steps, sid, i + 1, j, next);
    }
  }

  // ---- One sessionState in place ----

  class SessionState {
    const queue: Queue                 // pending
    var busy: bool
    var turnCancel: bool
    var cancelledRunning: bool         // for the /cancel reply
    var skipCount: nat
    ghost var model: Session

    /** The fields are the model's. */
    ghost predicate Valid()
      reads this, queue
    {
      model.pending == queue.pending && model.busy == busy && model.turnCancel == turnCancel
    }

    constructor (key: Key)
      ensures Valid() && model == Session(key, 0, false, 0, [], false, false) && fresh(queue)
      ensures !cancelledRunning && skipCount == 0
    {
      queue := new Queue();
      busy, turnCancel, cancelledRunning, skipCount := false, false, false, 0;
      model := Session(key, 0, false, 0, [], false, false);
    }

    /** processSessionMessage, the queueing section: whether g goes on to drain. */
    method Enqueue(m: Message, ghost g: Worker) returns (owns: bool)
      requires Valid()
      modifies this, queue
      ensures Valid() && model == Enqueued(old(model), m, g) && owns == !old(busy)
      ensures queue.pending == old(queue.pending) + [m] && busy && turnCancel == old(turnCancel)
      ensures skipCount == old(skipCount) && cancelledRunning == old(cancelledRunning)
    {
      queue.pending := queue.pending + [m];
      model := Enqueued(model, m, g);
      if busy {
        return false;
      }
      busy := true;
      return true;
    }

    /** cancel: the dropped messages. */
    method Cancel() returns (dropped: seq<Message>)
      requires Valid()
      modifies this, queue
      ensures Valid() && model == Cancelled(old(model)) && dropped == old(queue.pending)
      ensures queue.pending == [] && !turnCancel && busy == old(busy) && model.cancelled == (old(model).cancelled || old(turnCancel))
      ensures skipCount == old(skipCount) + |dropped| && cancelledRunning == (old(cancelledRunning) || old(model.turnCancel))
    {
      dropped := queue.pending;
      skipCount := skipCount + |queue.pending|;
      queue.pending := [];
      if turnCancel {
        turnCancel := false;
        cancelledRunning := true;
      }
      model := Cancelled(model);
    }

    /** takeCancelResult: what /cancel did since the last call. */
    method TakeCancelResult() returns (running: bool, skipped: nat)
      requires Valid()
      modifies this
      ensures Valid() && model == old(model) && running == old(cancelledRunning) && skipped == old(skipCount)
      ensures !cancelledRunning && skipCount == 0
    {
      running, skipped := cancelledRunning, skipCount;
      cancelledRunning, skipCount := false, 0;
    }

    /** The take of drainSession: the next turn's message, or none and the session is idle. */
    method TakeNext(eachAlone: bool, ended: bool) returns (turn: Option<Message>)
      requires Valid()
      modifies this, queue
      ensures Valid() && model == Taken(old(model), eachAlone, ended)
      ensures skipCount == old(skipCount) && cancelledRunning == old(cancelledRunning)
      ensures queue.pending == Rest(old(queue.pending), eachAlone)
      ensures busy == (old(busy) && turn.Some?) && turnCancel == (old(turnCancel) || turn.Some?)
      ensures turn.Some? ==> !model.cancelled
      ensures turn.Some? <==> old(model.pending) != [] && !ended
      ensures turn.Some? ==> Batch(old(model.pending), eachAlone) != [] && turn.value == Merged(Batch(old(model.pending), eachAlone))
    {
      var batch, ok := queue.TakeBatch(eachAlone);
      model := Taken(model, eachAlone, ended);
      if !ok || ended {
        busy := false;
        return None;
      }
      turnCancel := true;
      return Some(batch);
    }
  }
}
