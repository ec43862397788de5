/**
 * One channel's outbound text messages across reloads: the dispatcher, the
 * channel's workers old and new, the hold while the channel starts, and the
 * reload that replaces one worker by another.
 *
 * Messages are numbered in the order the dispatcher receives them, so "in
 * order" is "increasing".
 */
module Outbound {
  import opened Common

  type Msg = int
  type WorkerId = int

  const MAX_HELD := 1000
  const QUEUE_SIZE := 16

  /**
   * A channelWorker. leaving: its goroutine has found nothing more to do and
   * returns; done: the deferred close of its done channel has run after that.
   * cancelled: its context has ended.
   */
  datatype Worker = Worker(
    backlog: seq<Msg>, queue: seq<Msg>, sending: Option<Msg>,
    closed: bool, leaving: bool, done: bool, cancelled: bool)

  datatype Dispatcher =
    | Idle
    | Looking(m: Msg)                  // look the channel up
    | Found(m: Msg, w: WorkerId)       // lock its worker against closing
    | Pushing(m: Msg, w: WorkerId)     // queue it, holding the lock for reading
    | Stopped

  datatype Reloader =
    | Steady
    | Draining(w: WorkerId, rebuild: bool)
    | Building
    | Starting

  /** Where a message is. */
  datatype Place = Hand | Held | In(w: WorkerId) | Sending(w: WorkerId) | Reported

  datatype State = State(
    known: bool,                       // in Manager.channels
    held: Option<seq<Msg>>,
    heldMedia: int,                    // media held with it, counted against the same limit
    current: Option<WorkerId>,
    retrying: bool,
    reloader: Reloader,
    stopped: bool,                     // the dispatchers' context has ended
    dispatcher: Dispatcher,
    workers: map<WorkerId, Worker>,
    next: Msg,
    attempted: seq<Msg>,               // sends begun on a live context
    reported: seq<Msg>,
    place: map<Msg, Place>)

  const Initial := State(false, None, 0, None, false, Steady, false, Idle, map[], 0, [], [], map[])

  datatype Step =
    | Subscribe
    | Look(ended: bool)
    | Lock
    | Push
    | Bounce                           // the worker's done channel is closed
    | GiveUp                           // the context ended while the queue was full
    | HoldMedia
    | Take(w: WorkerId)                // begin the next message
    | Report(w: WorkerId)              // it is over: tell its sender
    | Leave(w: WorkerId)               // the last look at the queue finds nothing: return
    | CloseDone(w: WorkerId)
    | Detach(rebuild: bool)
    | Add
    | CloseQueues
    | DrainTimeout
    | DrainDone
    | Build(ok: bool)
    | Started(ok: bool, w: WorkerId)
    | AbandonStart
    | RetrySucceeds(w: WorkerId)
    | ContextEnds

  // ---- Steps ----

  function HeldSeq(s: State): seq<Msg> { if s.held.Some? then s.held.value else [] }

  function Pending(w: Worker): seq<Msg> { w.backlog + w.queue }

  ghost predicate HasMessage(d: Dispatcher) { d.Looking? || d.Found? || d.Pushing? }

  ghost predicate AtWorker(d: Dispatcher) { d.Found? || d.Pushing? }

  ghost predicate Can(s: State, a: Step) {
    match a
    case Subscribe => s.dispatcher.Idle?
    case Look(ended) => s.dispatcher.Looking? && (ended ==> s.stopped)
    case Lock => s.dispatcher.Found? && s.dispatcher.w in s.workers
    case Push => s.dispatcher.Pushing? && s.dispatcher.w in s.workers && |s.workers[s.dispatcher.w].queue| < QUEUE_SIZE
    case Bounce => s.dispatcher.Pushing? && s.dispatcher.w in s.workers && s.workers[s.dispatcher.w].done
    case GiveUp => s.dispatcher.Pushing? && s.stopped
    case HoldMedia => s.held.Some?
    case Take(w) => w in s.workers && !s.workers[w].leaving && s.workers[w].sending.None? && Pending(s.workers[w]) != []
    case Report(w) => w in s.workers && s.workers[w].sending.Some?
    case Leave(w) =>
      w in s.workers && !s.workers[w].leaving && s.workers[w].sending.None? && Pending(s.workers[w]) == []
      && (s.workers[w].closed || s.workers[w].cancelled)
    case CloseDone(w) => w in s.workers && s.workers[w].leaving && !s.workers[w].done
    case Detach(_) => s.reloader.Steady? && s.known && (s.current.Some? ==> s.current.value in s.workers)
    case Add => s.reloader.Steady? && !s.known
    case CloseQueues =>
      s.reloader.Draining? && s.reloader.w in s.workers && !(s.dispatcher.Pushing? && s.dispatcher.w == s.reloader.w)
    case DrainTimeout => s.reloader.Draining? && s.reloader.w in s.workers && s.workers[s.reloader.w].closed
    case DrainDone =>
      s.reloader.Draining? && s.reloader.w in s.workers && s.workers[s.reloader.w].closed
      && (s.workers[s.reloader.w].done || s.workers[s.reloader.w].cancelled)
    case Build(_) => s.reloader.Building?
    case Started(_, w) => s.reloader.Starting? && w !in s.workers
    case AbandonStart => s.reloader.Starting?
    case RetrySucceeds(w) => s.retrying && w !in s.workers
    case ContextEnds => true
  }

  ghost function Put(s: State, w: WorkerId, v: Worker): State { s.(workers := s.workers[w := v]) }

  ghost function Moved(place: map<Msg, Place>, xs: seq<Msg>, p: Place): map<Msg, Place> {
    map x | x in place :: if x in xs then p else place[x]
  }

  ghost function Move(s: State, xs: seq<Msg>, p: Place): State { s.(place := Moved(s.place, xs, p)) }

  /** reportDelivery for each of xs. */
  ghost function Tell(s: State, xs: seq<Msg>): State { Move(s, xs, Reported).(reported := s.reported + xs) }

  function Taken(w: Worker): Worker
    requires Pending(w) != []
  {
    if w.backlog != [] then w.(backlog := w.backlog[1..], sending := Some(w.backlog[0]))
    else w.(queue := w.queue[1..], sending := Some(w.queue[0]))
  }

  ghost function LookState(s: State, ended: bool): State
    requires s.dispatcher.Looking?
  {
    var m := s.dispatcher.m;
    if ended then Tell(s.(dispatcher := Stopped), [m])
    else if s.held.Some? then
      if |s.held.value| + s.heldMedia < MAX_HELD then Move(s.(dispatcher := Idle, held := Some(s.held.value + [m])), [m], Held)
      else Tell(s.(dispatcher := Idle), [m])
    else if !s.known || s.current.None? then Tell(s.(dispatcher := Idle), [m])
    else s.(dispatcher := Found(m, s.current.value))
  }

  /** The hold ends and what it held is dropped. */
  ghost function DropHeld(s: State): State { Tell(s.(held := None), HeldSeq(s)) }

  ghost function NewWorker(s: State, backlog: seq<Msg>): Worker { Worker(backlog, [], None, false, false, false, s.stopped) }

  ghost function Do(s: State, a: Step): State
    requires Can(s, a)
  {
    match a
    case Subscribe => s.(dispatcher := Looking(s.next), next := s.next + 1, place := s.place[s.next := Hand])
    case Look(ended) => LookState(s, ended)
    case Lock =>
      var m, w := s.dispatcher.m, s.dispatcher.w;
      s.(dispatcher := if s.workers[w].closed then Looking(m) else Pushing(m, w))
    case Push =>
      var m, w := s.dispatcher.m, s.dispatcher.w;
      Move(Put(s.(dispatcher := Idle), w, s.workers[w].(queue := s.workers[w].queue + [m])), [m], In(w))
    case Bounce => s.(dispatcher := Looking(s.dispatcher.m))
    case GiveUp => Tell(s.(dispatcher := Stopped), [s.dispatcher.m])
    case HoldMedia => if |s.held.value| + s.heldMedia < MAX_HELD then s.(heldMedia := s.heldMedia + 1) else s
    case Take(w) =>
      var v := Taken(s.workers[w]);
      var t := Move(Put(s, w, v), [v.sending.value], Sending(w));
      if v.cancelled then t else t.(attempted := s.attempted + [v.sending.value])
    case Report(w) => Tell(Put(s, w, s.workers[w].(sending := None)), [s.workers[w].sending.value])
    case Leave(w) => Put(s, w, s.workers[w].(leaving := true))
    case CloseDone(w) => Put(s, w, s.workers[w].(done := true))
    case Detach(rebuild) =>
      var t := s.(current := None, retrying := false, known := rebuild, held := if rebuild then Some([]) else None, heldMedia := 0);
      if s.current.Some? then t.(reloader := Draining(s.current.value, rebuild))
      else t.(reloader := if rebuild then Building else Steady)
    case Add => s.(held := Some([]), heldMedia := 0, reloader := Building)
    case CloseQueues => Put(s, s.reloader.w, s.workers[s.reloader.w].(closed := true))
    case DrainTimeout => Put(s, s.reloader.w, s.workers[s.reloader.w].(cancelled := true))
    case DrainDone =>
      Put(s, s.reloader.w, s.workers[s.reloader.w].(cancelled := true)).(reloader := if s.reloader.rebuild then Building else Steady)
    case Build(ok) => if ok then s.(known := true, reloader := Starting) else DropHeld(s).(known := false, reloader := Steady)
    case Started(ok, w) =>
      if ok then Move(Put(s.(held := None, current := Some(w), reloader := Steady), w, NewWorker(s, HeldSeq(s))), HeldSeq(s), In(w))
      else DropHeld(s).(reloader := Steady, retrying := !s.stopped)
    case AbandonStart => DropHeld(s).(reloader := Steady)
    case RetrySucceeds(w) => Put(s.(current := Some(w), retrying := false), w, NewWorker(s, []))
    case ContextEnds =>
      s.(stopped := true, retrying := false, workers := map w | w in s.workers :: s.workers[w].(cancelled := true))
  }

  // ---- Order ----

  ghost predicate Increasing(xs: seq<Msg>) { forall i, j :: 0 <= i < j < |xs| ==> xs[i] < xs[j] }

  ghost predicate Before(xs: seq<Msg>, ys: seq<Msg>) { forall x, y :: x in xs && y in ys ==> x < y }

  /** Attempted, then waiting in a worker, then held: all below the message the dispatcher has next. */
  ghost predicate Chain(a: seq<Msg>, p: seq<Msg>, h: seq<Msg>, limit: Msg) {
    Increasing(a) && Increasing(p) && Increasing(h) && Before(a, p) && Before(a, h) && Before(p, h)
    && Before(a, [limit]) && Before(p, [limit]) && Before(h, [limit])
  }

  lemma OneMore(xs: seq<Msg>, x: Msg)
    requires Increasing(xs) && Before(xs, [x])
    ensures Increasing(xs + [x])
  {
    assert x in [x];
    assert forall i :: 0 <= i < |xs| ==> xs[i] in xs;
  }

  lemma ChainTake(a: seq<Msg>, p: seq<Msg>, h: seq<Msg>, limit: Msg)
    requires Chain(a, p, h, limit) && p != []
    ensures Chain(a + [p[0]], p[1..], h, limit)
  {
    assert p[0] in p && limit in [limit];
    OneMore(a, p[0]);
    forall x | x in p[1..] ensures x in p && p[0] < x {
      var i :| 0 <= i < |p[1..]| && p[1..][i] == x;
      assert p[i + 1] == x;
    }
  }

  lemma ChainPush(a: seq<Msg>, p: seq<Msg>, limit: Msg)
    requires Chain(a, p, [], limit)
    ensures Chain(a, p + [limit], [], limit + 1)
  {
    assert limit in [limit];
    OneMore(p, limit);
  }

  lemma ChainHold(a: seq<Msg>, p: seq<Msg>, h: seq<Msg>, limit: Msg)
    requires Chain(a, p, h, limit)
    ensures Chain(a, p, h + [limit], limit + 1) && Chain(a, p, h, limit + 1)
  {
    assert limit in [limit];
    OneMore(h, limit);
  }

  /** What is held becomes the new worker's backlog. */
  lemma ChainStart(a: seq<Msg>, h: seq<Msg>, limit: Msg)
    requires Chain(a, [], h, limit)
    ensures Chain(a, h, [], limit)
  {
  }

  lemma ChainForget(a: seq<Msg>, p: seq<Msg>, h: seq<Msg>, limit: Msg)
    requires Chain(a, p, h, limit)
    ensures Chain(a, [], h, limit) && Chain(a, p, [], limit) && Chain(a, [], [], limit)
  {
  }

  lemma TakenIsFirst(w: Worker)
    requires Pending(w) != []
    ensures Taken(w).sending == Some(Pending(w)[0]) && Pending(Taken(w)) == Pending(w)[1..]
  {
  }

  // ---- Who is who ----

  /** The worker that still feeds the channel: the current one, or the one being drained. */
  ghost function Feeding(s: State): Option<WorkerId> {
    if s.current.Some? then s.current else if s.reloader.Draining? then Some(s.reloader.w) else None
  }

  ghost function Waiting(s: State): seq<Msg> {
    if Feeding(s).Some? && Feeding(s).value in s.workers && !s.workers[Feeding(s).value].cancelled
    then Pending(s.workers[Feeding(s).value]) else []
  }

  ghost function Limit(s: State): Msg { if HasMessage(s.dispatcher) then s.dispatcher.m else s.next }

  ghost predicate WorkerOk(v: Worker) {
    (v.leaving ==> v.sending.None? && v.backlog == [] && (v.closed || v.cancelled) && (v.cancelled || v.queue == []))
    && (v.done ==> v.leaving)
  }

  /** Which combinations of worker, hold and reload there are. */
  ghost predicate Control(s: State) {
    (s.current.Some? ==> s.reloader.Steady? && s.known && s.current.value in s.workers && !s.workers[s.current.value].closed)
    && (s.reloader.Draining? ==> s.reloader.w in s.workers && s.held.Some? == s.reloader.rebuild)
    && (s.reloader.Steady? ==> s.held.None?)
    && (s.reloader.Building? || s.reloader.Starting? ==> s.held.Some?)
    && (s.reloader.Starting? ==> s.known)
    && (s.retrying ==> s.reloader.Steady? && s.known && s.current.None?)
    && (AtWorker(s.dispatcher) ==> s.dispatcher.w in s.workers && HeldSeq(s) == [])
    && (s.dispatcher.Pushing? ==> !s.workers[s.dispatcher.w].closed)
    && (HasMessage(s.dispatcher) ==> s.dispatcher.m == s.next - 1)
  }

  /** Every worker but the one feeding the channel is cancelled. */
  ghost predicate WorkersOk(s: State) {
    forall w :: w in s.workers ==> WorkerOk(s.workers[w]) && (Feeding(s) == Some(w) || s.workers[w].cancelled)
  }

  ghost predicate OrderOk(s: State) { Chain(s.attempted, Waiting(s), HeldSeq(s), Limit(s)) }

  ghost predicate Order(s: State) { Control(s) && WorkersOk(s) && OrderOk(s) }

  // ---- Every step keeps the order ----

  /** A step that leaves the workers and the reload alone. */
  lemma SameWorkers(s: State, s': State)
    requires s'.workers == s.workers && s'.current == s.current && s'.reloader == s.reloader
    ensures Waiting(s') == Waiting(s) && (WorkersOk(s) ==> WorkersOk(s'))
  {
  }

  lemma LookKeepsOrder(s: State, a: Step)
    requires Order(s) && Can(s, a) && a.Look?
    ensures Order(Do(s, a))
  {
    ChainHold(s.attempted, Waiting(s), HeldSeq(s), Limit(s));
    SameWorkers(s, Do(s, a));
    hide Chain, WorkersOk, Waiting, Feeding, Moved;
  }

  lemma DispatcherKeepsOrder(s: State, a: Step)
    requires Order(s) && Can(s, a) && (a.Subscribe? || a.Lock? || a.Bounce? || a.GiveUp? || a.HoldMedia?)
    ensures Order(Do(s, a))
  {
    ChainHold(s.attempted, Waiting(s), HeldSeq(s), Limit(s));
    SameWorkers(s, Do(s, a));
    hide Chain, WorkersOk, Waiting, Feeding, Moved;
  }

  lemma PushKeepsOrder(s: State)
    requires Order(s) && Can(s, Push)
    ensures Order(Do(s, Push))
  {
    var w, m := s.dispatcher.w, s.dispatcher.m;
    ChainHold(s.attempted, Waiting(s), [], m);
    ChainPush(s.attempted, Waiting(s), m);
    hide Chain, Moved;
    assert Pending(Do(s, Push).workers[w]) == Pending(s.workers[w]) + [m];
  }

  /** What a take leaves as it was. */
  lemma TakeKeepsControl(s: State, w: WorkerId)
    requires Control(s) && Can(s, Take(w))
    ensures var v, s' := Taken(s.workers[w]), Do(s, Take(w));
      Control(s') && Limit(s') == Limit(s) && HeldSeq(s') == HeldSeq(s) && s'.current == s.current && s'.reloader == s.reloader
      && v.closed == s.workers[w].closed && v.cancelled == s.workers[w].cancelled && v.leaving == s.workers[w].leaving && v.done == s.workers[w].done
      && s'.workers == s.workers[w := v]
      && s'.attempted == if v.cancelled then s.attempted else s.attempted + [v.sending.value]
  {
    hide Moved;
  }

  lemma TakeKeepsOrder(s: State, w: WorkerId)
    requires Order(s) && Can(s, Take(w))
    ensures Order(Do(s, Take(w)))
  {
    TakenIsFirst(s.workers[w]);
    if Feeding(s) == Some(w) && !s.workers[w].cancelled {
      ChainTake(s.attempted, Waiting(s), HeldSeq(s), Limit(s));
    }
    TakeKeepsControl(s, w);
    hide Control, Chain, Taken, Pending, Limit, HeldSeq, Do;
  }

  /** A step that changes one worker, but neither what is pending there nor what goes before it. */
  lemma WorkerChanges(s: State, s': State, w: WorkerId, v: Worker)
    requires Order(s) && w in s.workers && s'.workers == s.workers[w := v] && WorkerOk(v) && Pending(v) == Pending(s.workers[w])
    requires s.workers[w].cancelled ==> v.cancelled
    requires s'.current == s.current && s'.reloader == s.reloader && s'.attempted == s.attempted
    requires Control(s') && Limit(s') == Limit(s) && HeldSeq(s') == HeldSeq(s)
    ensures Order(s')
  {
    ChainForget(s.attempted, Waiting(s), HeldSeq(s), Limit(s));
    hide Control, Chain, Pending, Limit, HeldSeq, WorkerOk;
  }

  lemma WorkerStepDoes(s: State, a: Step)
    requires Control(s) && Can(s, a) && (a.Report? || a.Leave? || a.CloseDone?) && WorkerOk(s.workers[a.w])
    ensures var s' := Do(s, a);
      a.w in s'.workers && s'.workers == s.workers[a.w := s'.workers[a.w]] && WorkerOk(s'.workers[a.w])
      && Pending(s'.workers[a.w]) == Pending(s.workers[a.w]) && s'.workers[a.w].cancelled == s.workers[a.w].cancelled
      && s'.current == s.current && s'.reloader == s.reloader && s'.attempted == s.attempted
      && Control(s') && Limit(s') == Limit(s) && HeldSeq(s') == HeldSeq(s)
  {
    hide Moved;
  }

  lemma WorkerKeepsOrder(s: State, a: Step)
    requires Order(s) && Can(s, a) && (a.Report? || a.Leave? || a.CloseDone?)
    ensures Order(Do(s, a))
  {
    WorkerStepDoes(s, a);
    hide Order, Do;
    WorkerChanges(s, Do(s, a), a.w, Do(s, a).workers[a.w]);
  }

  lemma DrainStepDoes(s: State, a: Step)
    requires Control(s) && Can(s, a) && (a.CloseQueues? || a.DrainTimeout?) && WorkerOk(s.workers[s.reloader.w])
    ensures var s', w := Do(s, a), s.reloader.w;
      w in s'.workers && s'.workers == s.workers[w := s'.workers[w]] && WorkerOk(s'.workers[w])
      && Pending(s'.workers[w]) == Pending(s.workers[w]) && (s.workers[w].cancelled ==> s'.workers[w].cancelled)
      && s'.current == s.current && s'.reloader == s.reloader && s'.attempted == s.attempted
      && Control(s') && Limit(s') == Limit(s) && HeldSeq(s') == HeldSeq(s)
  {
  }

  lemma DrainKeepsOrder(s: State, a: Step)
    requires Order(s) && Can(s, a) && (a.CloseQueues? || a.DrainTimeout?)
    ensures Order(Do(s, a))
  {
    DrainStepDoes(s, a);
    hide Order, Do;
    WorkerChanges(s, Do(s, a), s.reloader.w, Do(s, a).workers[s.reloader.w]);
  }

  lemma DrainDoneKeepsOrder(s: State, a: Step)
    requires Order(s) && Can(s, a) && a.DrainDone?
    ensures Order(Do(s, a))
  {
    var s' := Do(s, a);
    ChainForget(s.attempted, Waiting(s), HeldSeq(s), Limit(s));
    assert Control(s') && Limit(s') == Limit(s) && HeldSeq(s') == HeldSeq(s) && Waiting(s') == [] by { hide WorkersOk, OrderOk, Pending; }
    assert s'.current == None by { hide WorkersOk, OrderOk, Pending; }
    assert s'.attempted == s.attempted;
    assert WorkersOk(s') by { hide OrderOk, Pending, Control; }
    hide Control, Chain, Pending, Limit, HeldSeq, Waiting, WorkersOk, Do, Can;
  }

  lemma DetachKeepsOrder(s: State, a: Step)
    requires Order(s) && Can(s, a) && (a.Detach? || a.Add?)
    ensures Order(Do(s, a))
  {
    ChainForget(s.attempted, Waiting(s), HeldSeq(s), Limit(s));
    hide Chain, WorkerOk;
    var s' := Do(s, a);
    assert Control(s');
    assert WorkersOk(s');
    assert HeldSeq(s') == [];
    assert Waiting(s') == Waiting(s);
    assert OrderOk(s');
  }

  lemma DropKeepsOrder(s: State, a: Step)
    requires Order(s) && Can(s, a) && (a.Build? || (a.Started? && !a.ok) || a.AbandonStart?)
    ensures Order(Do(s, a))
  {
    ChainForget(s.attempted, Waiting(s), HeldSeq(s), Limit(s));
    hide Chain, Moved, WorkerOk;
  }

  lemma StartKeepsOrder(s: State, a: Step)
    requires Order(s) && Can(s, a) && a.Started? && a.ok
    ensures Order(Do(s, a))
  {
    var s' := Do(s, a);
    ChainForget(s.attempted, Waiting(s), HeldSeq(s), Limit(s));
    ChainStart(s.attempted, HeldSeq(s), Limit(s));
    assert Pending(NewWorker(s, HeldSeq(s))) == HeldSeq(s);
    assert Control(s') && Limit(s') == Limit(s) && HeldSeq(s') == [] by { hide WorkersOk, OrderOk, Pending, Moved; }
    hide Control, Chain, Moved, Pending, Limit, HeldSeq;
  }

  /** A retry gives the channel a worker with nothing to send, and it had none. */
  lemma RetryKeepsWorkers(s: State, a: Step)
    requires Control(s) && WorkersOk(s) && Can(s, a) && a.RetrySucceeds?
    ensures Control(Do(s, a)) && WorkersOk(Do(s, a)) && Waiting(Do(s, a)) == []
  {
    assert Pending(NewWorker(s, [])) == [];
    hide Pending;
  }

  lemma RetryKeepsOrder(s: State, a: Step)
    requires Order(s) && Can(s, a) && a.RetrySucceeds?
    ensures Order(Do(s, a))
  {
    var s' := Do(s, a);
    ChainForget(s.attempted, Waiting(s), HeldSeq(s), Limit(s));
    RetryKeepsWorkers(s, a);
    assert s'.attempted == s.attempted && s'.held == s.held && s'.dispatcher == s.dispatcher && s'.next == s.next;
    hide Control, WorkersOk, Waiting, Chain, Do, Can;
  }

  lemma EndKeepsOrder(s: State, a: Step)
    requires Order(s) && Can(s, a) && a.ContextEnds?
    ensures Order(Do(s, a))
  {
    ChainForget(s.attempted, Waiting(s), HeldSeq(s), Limit(s));
    hide Chain;
  }

  lemma OrderKept(s: State, a: Step)
    requires Order(s) && Can(s, a)
    ensures Order(Do(s, a))
  {
    match a {
      case Push => PushKeepsOrder(s);
      case Look(_) => LookKeepsOrder(s, a);
      case Take(w) => TakeKeepsOrder(s, w);
      case Report(_) => WorkerKeepsOrder(s, a);
      case Leave(_) => WorkerKeepsOrder(s, a);
      case CloseDone(_) => WorkerKeepsOrder(s, a);
      case Detach(_) => DetachKeepsOrder(s, a);
      case Add => DetachKeepsOrder(s, a);
      case CloseQueues => DrainKeepsOrder(s, a);
      case DrainTimeout => DrainKeepsOrder(s, a);
      case DrainDone => DrainDoneKeepsOrder(s, a);
      case Build(_) => DropKeepsOrder(s, a);
      case Started(ok, _) => if ok { StartKeepsOrder(s, a); } else { DropKeepsOrder(s, a); }
      case AbandonStart => DropKeepsOrder(s, a);
      case RetrySucceeds(_) => RetryKeepsOrder(s, a);
      case ContextEnds => EndKeepsOrder(s, a);
      case _ => DispatcherKeepsOrder(s, a);
    }
  }

  // ---- Where every message is ----

  ghost function HandSeq(s: State): seq<Msg> { if HasMessage(s.dispatcher) then [s.dispatcher.m] else [] }

  ghost function SendingSeq(s: State, w: WorkerId): seq<Msg> {
    if w in s.workers && s.workers[w].sending.Some? then [s.workers[w].sending.value] else []
  }

  ghost function PendingSeq(s: State, w: WorkerId): seq<Msg> { if w in s.workers then Pending(s.workers[w]) else [] }

  /** What is in a place. */
  ghost function Contents(s: State, p: Place): seq<Msg> {
    match p
    case Hand => HandSeq(s)
    case Held => HeldSeq(s)
    case In(w) => PendingSeq(s, w)
    case Sending(w) => SendingSeq(s, w)
    case Reported => s.reported
  }

  ghost predicate NoRepeats(xs: seq<Msg>) { forall x :: x in xs ==> multiset(xs)[x] == 1 }

  /** The contents of p are the messages whose place it is, once each. */
  ghost predicate PlaceOk(s: State, p: Place) {
    NoRepeats(Contents(s, p)) && forall x :: x in Contents(s, p) <==> x in s.place && s.place[x] == p
  }

  /** Every message received is in exactly one place; the numbers below next are the messages received. */
  ghost predicate Places(s: State) {
    (forall p :: PlaceOk(s, p)) && (forall x :: x in s.place <==> 0 <= x < s.next) && s.next >= 0
  }

  /** Moving xs from p to p' changes those two contents by xs, and no other. */
  lemma Relocates(s: State, s': State, xs: seq<Msg>, p: Place, p': Place)
    requires Places(s) && s'.next == s.next && s'.place == Moved(s.place, xs, p') && p != p'
    requires forall x :: x in xs ==> x in Contents(s, p)
    requires NoRepeats(Contents(s', p)) && forall x :: x in Contents(s', p) <==> x in Contents(s, p) && x !in xs
    requires Contents(s', p') == Contents(s, p') + xs && NoRepeats(xs)
    requires forall q :: q != p && q != p' ==> Contents(s', q) == Contents(s, q)
    ensures Places(s')
  {
    assert PlaceOk(s, p) && PlaceOk(s, p') && (forall x :: x in s.place <==> 0 <= x < s.next);
    assert s'.place.Keys == s.place.Keys;
    Leaves(s, s', xs, p, p');
    Arrives(s, s', xs, p, p');
    forall q ensures PlaceOk(s', q) {
      if q != p && q != p' {
        assert PlaceOk(s, q);
        ElsewhereTheSame(s, s', xs, p, p', q);
      }
    }
    hide PlaceOk, Contents, Moved;
  }

  lemma Leaves(s: State, s': State, xs: seq<Msg>, p: Place, p': Place)
    requires PlaceOk(s, p) && p != p' && s'.place == Moved(s.place, xs, p')
    requires NoRepeats(Contents(s', p)) && forall x :: x in Contents(s', p) <==> x in Contents(s, p) && x !in xs
    ensures PlaceOk(s', p)
  {
    hide Contents, NoRepeats;
  }

  lemma Arrives(s: State, s': State, xs: seq<Msg>, p: Place, p': Place)
    requires PlaceOk(s, p) && PlaceOk(s, p') && p != p' && s'.place == Moved(s.place, xs, p') && NoRepeats(xs)
    requires Contents(s', p') == Contents(s, p') + xs && forall x :: x in xs ==> x in Contents(s, p)
    ensures PlaceOk(s', p')
  {
    ArrivesAmong(s.place, Contents(s, p), Contents(s, p'), xs, p, p');
    hide Contents, NoRepeats, Moved;
  }

  lemma ArrivesAmong(place: map<Msg, Place>, there: seq<Msg>, here: seq<Msg>, xs: seq<Msg>, p: Place, p': Place)
    requires p != p' && NoRepeats(here) && NoRepeats(xs) && forall x :: x in xs ==> x in there
    requires forall x :: x in there <==> x in place && place[x] == p
    requires forall x :: x in here <==> x in place && place[x] == p'
    ensures NoRepeats(here + xs)
    ensures forall x :: x in here + xs <==> x in Moved(place, xs, p') && Moved(place, xs, p')[x] == p'
  {
    JoinsNoRepeat(here, xs);
    hide NoRepeats;
  }

  lemma ElsewhereTheSame(s: State, s': State, xs: seq<Msg>, p: Place, p': Place, q: Place)
    requires PlaceOk(s, p) && PlaceOk(s, q) && q != p && q != p' && Contents(s', q) == Contents(s, q)
    requires s'.place == Moved(s.place, xs, p') && forall x :: x in xs ==> x in Contents(s, p)
    ensures PlaceOk(s', q)
  {
    hide Contents, NoRepeats;
  }

  lemma JoinsNoRepeat(xs: seq<Msg>, ys: seq<Msg>)
    requires NoRepeats(xs) && NoRepeats(ys) && forall y :: y in ys ==> y !in xs
    ensures NoRepeats(xs + ys)
  {
    forall x | x in xs + ys ensures multiset(xs + ys)[x] == 1 {
      assert multiset(xs + ys)[x] == multiset(xs)[x] + multiset(ys)[x];
      assert x in xs <==> x in multiset(xs);
      assert x in ys <==> x in multiset(ys);
    }
  }

  /** Nothing moves. */
  lemma StaysPut(s: State, s': State)
    requires Places(s) && s'.next == s.next && s'.place == s.place && forall q :: Contents(s', q) == Contents(s, q)
    ensures Places(s')
  {
    forall q ensures PlaceOk(s', q) { assert PlaceOk(s, q); }
  }

  ghost predicate AttemptsKnown(s: State) { forall x :: x in s.attempted ==> x in s.place }

  ghost predicate Inv(s: State) { Order(s) && Places(s) && AttemptsKnown(s) }

  lemma QuietStep(s: State, a: Step)
    requires Inv(s) && Can(s, a)
    requires a.Lock? || a.Bounce? || a.HoldMedia? || a.Leave? || a.CloseDone? || a.CloseQueues? || a.DrainTimeout? || a.DrainDone? || a.Detach? || a.Add?
    ensures Places(Do(s, a))
  {
    hide Places, WorkersOk, OrderOk;
    StaysPut(s, Do(s, a));
  }

  lemma QuietWorkers(s: State, a: Step)
    requires Inv(s) && Can(s, a) && (a.RetrySucceeds? || a.ContextEnds?)
    ensures Places(Do(s, a))
  {
    hide Places, WorkersOk, OrderOk, Control;
    StaysPut(s, Do(s, a));
  }

  lemma Receives(s: State)
    requires Inv(s) && Can(s, Subscribe)
    ensures Places(Do(s, Subscribe))
  {
    hide Order;
    OneNoRepeats(s.next);
    ReceivesOne(s, Do(s, Subscribe));
  }

  lemma ReceivesOne(s: State, s': State)
    requires Places(s) && !HasMessage(s.dispatcher) && s' == s.(dispatcher := Looking(s.next), next := s.next + 1, place := s.place[s.next := Hand])
    requires NoRepeats([s.next])
    ensures Places(s')
  {
    assert forall q :: q != Hand ==> Contents(s', q) == Contents(s, q);
    assert Contents(s', Hand) == [s.next] && Contents(s, Hand) == [];
    hide Contents, NoRepeats;
    forall q ensures PlaceOk(s', q) {
      assert PlaceOk(s, q);
    }
  }

  /** The dispatcher's message goes to p'. */
  lemma HandMoves(s: State, s': State, p': Place)
    requires Places(s) && HasMessage(s.dispatcher) && !HasMessage(s'.dispatcher) && p' != Hand
    requires s'.next == s.next && s'.place == Moved(s.place, HandSeq(s), p')
    requires Contents(s', p') == Contents(s, p') + HandSeq(s)
    requires forall q :: q != Hand && q != p' ==> Contents(s', q) == Contents(s, q)
    ensures Places(s')
  {
    hide Places;
    Relocates(s, s', HandSeq(s), Hand, p');
  }

  lemma PushMoves(s: State)
    requires Inv(s) && Can(s, Push)
    ensures Places(Do(s, Push))
  {
    var s' := Do(s, Push);
    hide Order, Places, Moved;
    assert PendingSeq(s', s.dispatcher.w) == PendingSeq(s, s.dispatcher.w) + HandSeq(s);
    HandMoves(s, s', In(s.dispatcher.w));
  }

  lemma LookMoves(s: State, ended: bool)
    requires Inv(s) && s.dispatcher.Looking?
    ensures Places(LookState(s, ended))
  {
    var s' := LookState(s, ended);
    hide Order, Places, Moved;
    if s'.dispatcher.Found? {
      StaysPut(s, s');
    } else if ended || s.held.None? || |s.held.value| + s.heldMedia >= MAX_HELD {
      HandMoves(s, s', Reported);
    } else {
      HandMoves(s, s', Held);
    }
  }

  lemma GiveUpMoves(s: State)
    requires Inv(s) && Can(s, GiveUp)
    ensures Places(Do(s, GiveUp))
  {
    hide Order, Places, Moved;
    HandMoves(s, Do(s, GiveUp), Reported);
  }

  lemma HeadLeaves(xs: seq<Msg>)
    requires NoRepeats(xs) && xs != []
    ensures NoRepeats(xs[1..]) && forall x :: x in xs[1..] <==> x in xs && x !in [xs[0]]
  {
    assert xs == [xs[0]] + xs[1..];
    assert xs[0] in xs;
    forall x | x in xs[1..] ensures x != xs[0] && multiset(xs[1..])[x] == 1 {
      assert x in multiset(xs[1..]) && multiset(xs)[x] == multiset([xs[0]])[x] + multiset(xs[1..])[x];
    }
  }

  lemma OneNoRepeats(x: Msg)
    ensures NoRepeats([x])
  {
  }

  lemma TakeMoves(s: State, w: WorkerId)
    requires Inv(s) && Can(s, Take(w))
    ensures Places(Do(s, Take(w)))
  {
    var s', v := Do(s, Take(w)), s.workers[w];
    TakenIsFirst(v);
    HeadMoves(s, s', w, v, Taken(v), Pending(v)[0]);
  }

  lemma HeadMoves(s: State, s': State, w: WorkerId, v: Worker, v': Worker, x: Msg)
    requires Places(s) && w in s.workers && s.workers[w] == v && v.sending.None? && s'.workers == s.workers[w := v']
    requires s'.dispatcher == s.dispatcher && s'.held == s.held && s'.reported == s.reported && s'.next == s.next
    requires s'.place == Moved(s.place, [x], Sending(w))
    requires Pending(v) != [] && x == Pending(v)[0] && v'.sending == Some(x) && Pending(v') == Pending(v)[1..]
    ensures Places(s')
  {
    TakeChanges(s, s', w, v, v');
    assert PlaceOk(s, In(w));
    HeadLeaves(Pending(v));
    OneNoRepeats(x);
    hide Places, Moved, Pending, NoRepeats, Contents;
    Relocates(s, s', [x], In(w), Sending(w));
  }

  lemma TakeChanges(s: State, s': State, w: WorkerId, v: Worker, v': Worker)
    requires w in s.workers && s.workers[w] == v && v.sending.None? && s'.workers == s.workers[w := v']
    requires s'.dispatcher == s.dispatcher && s'.held == s.held && s'.reported == s.reported
    requires Pending(v) != [] && v'.sending == Some(Pending(v)[0]) && Pending(v') == Pending(v)[1..]
    ensures Contents(s', In(w)) == Pending(v)[1..] && Contents(s, In(w)) == Pending(v)
    ensures Contents(s', Sending(w)) == [Pending(v)[0]] == Contents(s, Sending(w)) + [Pending(v)[0]]
    ensures forall q :: q != In(w) && q != Sending(w) ==> Contents(s', q) == Contents(s, q)
  {
    hide Pending;
  }

  lemma ReportMoves(s: State, w: WorkerId)
    requires Inv(s) && Can(s, Report(w))
    ensures Places(Do(s, Report(w)))
  {
    hide Order, Places, Moved;
    Relocates(s, Do(s, Report(w)), SendingSeq(s, w), Sending(w), Reported);
  }

  lemma StartMoves(s: State, w: WorkerId)
    requires Inv(s) && Can(s, Started(true, w))
    ensures Places(Do(s, Started(true, w)))
  {
    var s' := Do(s, Started(true, w));
    assert PlaceOk(s, Held);
    hide Order, Places, Moved;
    assert PendingSeq(s', w) == PendingSeq(s, w) + HeldSeq(s);
    Relocates(s, s', HeldSeq(s), Held, In(w));
  }

  lemma HeldMoves(s: State, a: Step)
    requires Inv(s) && Can(s, a) && (a.Build? || (a.Started? && !a.ok) || a.AbandonStart?)
    ensures Places(Do(s, a))
  {
    var s' := Do(s, a);
    assert PlaceOk(s, Held);
    hide Order, Places, Moved;
    if a.Build? && a.ok {
      StaysPut(s, s');
    } else {
      Relocates(s, s', HeldSeq(s), Held, Reported);
    }
  }

  /** No worker begins or ends a message: whatever is not with the dispatcher or held stays where it is. */
  ghost predicate WorkersUntouched(s: State, s': State) {
    s'.attempted == s.attempted && s.workers.Keys <= s'.workers.Keys
    && (forall w :: w in s.workers && s.workers[w].leaving ==> s'.workers[w].leaving)
    && forall x :: x in s.place ==> x in s'.place && (s.place[x] == Hand || s.place[x] == Held || s'.place[x] == s.place[x])
  }

  lemma QuietUntouched(s: State, a: Step)
    requires Inv(s) && Can(s, a)
    requires a.Lock? || a.Bounce? || a.HoldMedia? || a.Leave? || a.CloseDone? || a.CloseQueues? || a.DrainTimeout? || a.DrainDone? || a.Detach? || a.Add?
    ensures WorkersUntouched(s, Do(s, a))
  {
    hide Inv;
  }

  lemma OthersUntouched(s: State, a: Step)
    requires Inv(s) && Can(s, a) && (a.RetrySucceeds? || a.ContextEnds? || a.Subscribe?)
    ensures WorkersUntouched(s, Do(s, a))
  {
    assert s.next !in s.place;
    hide Inv;
  }

  lemma LookUntouched(s: State, ended: bool)
    requires Inv(s) && s.dispatcher.Looking?
    ensures WorkersUntouched(s, LookState(s, ended))
  {
    assert PlaceOk(s, Hand) && s.dispatcher.m in Contents(s, Hand);
    hide Inv, PlaceOk, Contents;
  }

  lemma HandUntouched(s: State, a: Step)
    requires Inv(s) && Can(s, a) && (a.Push? || a.GiveUp?)
    ensures WorkersUntouched(s, Do(s, a))
  {
    assert PlaceOk(s, Hand) && s.dispatcher.m in Contents(s, Hand);
    hide Inv, PlaceOk, Contents;
  }

  lemma DropUntouched(s: State, s': State)
    requires Inv(s) && s'.place == Moved(s.place, HeldSeq(s), Reported) && s'.attempted == s.attempted && s'.workers == s.workers
    ensures WorkersUntouched(s, s')
  {
    assert PlaceOk(s, Held) && Contents(s, Held) == HeldSeq(s);
    hide Inv, Contents, NoRepeats, HeldSeq;
  }

  lemma StartedUntouched(s: State, w: WorkerId)
    requires Inv(s) && Can(s, Started(true, w))
    ensures WorkersUntouched(s, Do(s, Started(true, w)))
  {
    assert PlaceOk(s, Held) && Contents(s, Held) == HeldSeq(s);
    hide Inv, Contents, NoRepeats, HeldSeq, NewWorker;
  }

  lemma HeldUntouched(s: State, a: Step)
    requires Inv(s) && Can(s, a) && (a.Build? || a.Started? || a.AbandonStart?)
    ensures WorkersUntouched(s, Do(s, a))
  {
    if a.Started? && a.ok {
      StartedUntouched(s, a.w);
    } else if a.Build? && a.ok {
      hide Inv, HeldSeq;
    } else {
      hide Inv, HeldSeq, WorkersUntouched, Moved;
      DropUntouched(s, Do(s, a));
    }
  }

  lemma Untouched(s: State, a: Step)
    requires Inv(s) && Can(s, a) && !a.Take? && !a.Report?
    ensures WorkersUntouched(s, Do(s, a))
  {
    hide Inv, WorkersUntouched, LookState;
    match a {
      case Look(ended) => LookUntouched(s, ended);
      case Push => HandUntouched(s, a);
      case GiveUp => HandUntouched(s, a);
      case Build(_) => HeldUntouched(s, a);
      case Started(_, _) => HeldUntouched(s, a);
      case AbandonStart => HeldUntouched(s, a);
      case RetrySucceeds(_) => OthersUntouched(s, a);
      case ContextEnds => OthersUntouched(s, a);
      case Subscribe => OthersUntouched(s, a);
      case _ => QuietUntouched(s, a);
    }
  }

  lemma AttemptsStayKnown(s: State, a: Step)
    requires Inv(s) && Can(s, a)
    ensures AttemptsKnown(Do(s, a))
  {
    if a.Take? {
      TakenIsFirst(s.workers[a.w]);
      assert PlaceOk(s, In(a.w));
      PendingIsKnown(s, a.w, Pending(s.workers[a.w])[0]);
      hide Order, Places, PlaceOk, Taken, Pending;
    } else if a.Report? {
      hide Order, Places, PlaceOk;
    } else {
      Untouched(s, a);
      hide Order, Places, PlaceOk, Do, Can;
    }
  }

  lemma PendingIsKnown(s: State, w: WorkerId, x: Msg)
    requires PlaceOk(s, In(w)) && w in s.workers && x in Pending(s.workers[w])
    ensures x in s.place
  {
  }

  /** No step breaks the invariant. */
  lemma StepKeepsInv(s: State, a: Step)
    requires Inv(s) && Can(s, a)
    ensures Inv(Do(s, a))
  {
    OrderKept(s, a);
    AttemptsStayKnown(s, a);
    match a {
      case Subscribe => Receives(s);
      case Look(ended) => LookMoves(s, ended);
      case Push => PushMoves(s);
      case GiveUp => GiveUpMoves(s);
      case Take(w) => TakeMoves(s, w);
      case Report(w) => ReportMoves(s, w);
      case Build(_) => HeldMoves(s, a);
      case Started(ok, w) => if ok { StartMoves(s, w); } else { HeldMoves(s, a); }
      case AbandonStart => HeldMoves(s, a);
      case RetrySucceeds(_) => QuietWorkers(s, a);
      case ContextEnds => QuietWorkers(s, a);
      case _ => QuietStep(s, a);
    }
  }

  // ---- Whole runs ----

  ghost predicate Follows(s: State, s': State) { exists a :: Can(s, a) && s' == Do(s, a) }

  ghost predicate IsRun(run: seq<State>) {
    |run| > 0 && run[0] == Initial && forall i :: 0 <= i < |run| - 1 ==> Follows(run[i], run[i + 1])
  }

  lemma {:induction false} RunKeepsInv(run: seq<State>, i: nat)
    requires IsRun(run) && i < |run|
    ensures Inv(run[i])
  {
    if i == 0 {
      forall q ensures PlaceOk(Initial, q) { assert Contents(Initial, q) == []; }
    } else {
      RunKeepsInv(run, i - 1);
      assert Follows(run[i - 1], run[i]);
      var a :| Can(run[i - 1], a) && run[i] == Do(run[i - 1], a);
      StepKeepsInv(run[i - 1], a);
    }
  }

  /** Across any reloads, what is attempted is an in-order part of what was routed to the channel. */
  lemma AttemptsInOrder(run: seq<State>, i: nat)
    requires IsRun(run) && i < |run|
    ensures Increasing(run[i].attempted) && forall x :: x in run[i].attempted ==> 0 <= x < run[i].next
  {
    RunKeepsInv(run, i);
    hide WorkersOk, Control;
  }

  /** No message's sender is told twice. */
  lemma ReportedOnceAtMost(run: seq<State>, i: nat, x: Msg)
    requires IsRun(run) && i < |run|
    ensures multiset(run[i].reported)[x] <= 1
  {
    RunKeepsInv(run, i);
    assert PlaceOk(run[i], Reported);
    assert x in multiset(run[i].reported) <==> x in run[i].reported;
  }

  /** Nothing is ever sent on a closed queue. */
  lemma NeverOnAClosedQueue(run: seq<State>, i: nat)
    requires IsRun(run) && i < |run| && run[i].dispatcher.Pushing?
    ensures run[i].dispatcher.w in run[i].workers && !run[i].workers[run[i].dispatcher.w].closed
  {
    RunKeepsInv(run, i);
  }

  ghost predicate Stays(s: State, s': State, x: Msg, w: WorkerId) {
    w in s.workers && w in s'.workers && x in s.place && x in s'.place
    && (s.place[x] == Reported ==> s'.place[x] == Reported)
    && (s.place[x] == Sending(w) ==> s'.place[x] in {Sending(w), Reported})
    && (s.place[x] == In(w) ==> s'.place[x] in {In(w), Sending(w)} && (s.workers[w].leaving ==> s'.place[x] == In(w)))
    && (s.workers[w].leaving ==> s'.workers[w].leaving)
  }

  lemma StaysWhenTaking(s: State, v: WorkerId, x: Msg, w: WorkerId)
    requires Inv(s) && Can(s, Take(v)) && x in s.place && w in s.workers
    ensures Stays(s, Do(s, Take(v)), x, w)
  {
    var head := Pending(s.workers[v])[0];
    TakenIsFirst(s.workers[v]);
    HeadIsIn(s, v, head);
    TakeDoes(s, v);
    hide Inv, Pending, Taken, Stays, Moved, Do;
    HeadTaken(s, Do(s, Take(v)), v, head, Taken(s.workers[v]), x, w);
  }

  lemma TakeDoes(s: State, v: WorkerId)
    requires Can(s, Take(v))
    ensures var taken, s' := Taken(s.workers[v]), Do(s, Take(v));
      taken.sending.Some? && s'.workers == s.workers[v := taken] && s'.place == Moved(s.place, [taken.sending.value], Sending(v))
  {
    hide Moved;
  }

  lemma HeadIsIn(s: State, v: WorkerId, x: Msg)
    requires Inv(s) && v in s.workers && x in Pending(s.workers[v])
    ensures x in s.place && s.place[x] == In(v)
  {
    assert PlaceOk(s, In(v)) && Contents(s, In(v)) == Pending(s.workers[v]);
    hide Inv, Contents, Pending;
  }

  lemma HeadTaken(s: State, s': State, v: WorkerId, head: Msg, taken: Worker, x: Msg, w: WorkerId)
    requires v in s.workers && w in s.workers && x in s.place && head in s.place && s.place[head] == In(v)
    requires s'.workers == s.workers[v := taken] && !s.workers[v].leaving && s'.place == Moved(s.place, [head], Sending(v))
    ensures Stays(s, s', x, w)
  {
  }

  lemma StaysWhenReporting(s: State, v: WorkerId, x: Msg, w: WorkerId)
    requires Inv(s) && Can(s, Report(v)) && x in s.place && w in s.workers
    ensures Stays(s, Do(s, Report(v)), x, w)
  {
    assert PlaceOk(s, Sending(v)) && Contents(s, Sending(v)) == [s.workers[v].sending.value];
    hide Inv, NoRepeats, Contents;
  }

  /** A message with a worker stays with it until it is reported; one left with a worker that leaves stays there. */
  lemma WorkerKeepsIt(s: State, a: Step, x: Msg, w: WorkerId)
    requires Inv(s) && Can(s, a) && x in s.place && w in s.workers
    ensures Stays(s, Do(s, a), x, w)
  {
    if a.Take? {
      StaysWhenTaking(s, a.w, x, w);
    } else if a.Report? {
      StaysWhenReporting(s, a.w, x, w);
    } else {
      Untouched(s, a);
      hide Inv, Do, Can;
    }
  }

  lemma {:induction false} FromWorkerToReport(run: seq<State>, i: nat, j: nat, x: Msg, w: WorkerId)
    requires IsRun(run) && i <= j < |run| && w in run[i].workers && x in run[i].place
    requires run[i].place[x] in {In(w), Sending(w), Reported}
    ensures w in run[j].workers && x in run[j].place && run[j].place[x] in {In(w), Sending(w), Reported}
    ensures run[i].place[x] == In(w) && run[i].workers[w].leaving ==> run[j].place[x] == In(w) && run[j].workers[w].leaving
  {
    hide Can, Do, Inv;
    if i < j {
      FromWorkerToReport(run, i, j - 1, x, w);
      RunKeepsInv(run, j - 1);
      assert Follows(run[j - 1], run[j]);
      var a :| Can(run[j - 1], a) && run[j] == Do(run[j - 1], a);
      WorkerKeepsIt(run[j - 1], a, x, w);
    }
  }

  /** Whatever a worker was given has been reported, exactly once, when the worker ends before its context does. */
  lemma CleanEndReportsAll(run: seq<State>, i: nat, j: nat, x: Msg, w: WorkerId)
    requires IsRun(run) && i <= j < |run| && w in run[i].workers && x in run[i].place
    requires run[i].place[x] == In(w) || run[i].place[x] == Sending(w)
    requires w in run[j].workers && run[j].workers[w].leaving && !run[j].workers[w].cancelled
    ensures multiset(run[j].reported)[x] == 1
  {
    FromWorkerToReport(run, i, j, x, w);
    RunKeepsInv(run, j);
    var s := run[j];
    assert PlaceOk(s, In(w)) && PlaceOk(s, Sending(w)) && PlaceOk(s, Reported);
    assert WorkerOk(s.workers[w]);
  }

  /** A message in the queue of a worker that is leaving is never reported, however the run goes on; only a cancelled worker leaves one. */
  lemma StrandedForGood(run: seq<State>, i: nat, j: nat, x: Msg, w: WorkerId)
    requires IsRun(run) && i <= j < |run| && w in run[i].workers && run[i].workers[w].leaving
    requires x in run[i].place && run[i].place[x] == In(w)
    ensures run[i].workers[w].cancelled && multiset(run[j].reported)[x] == 0
  {
    StrandedHere(run, i, x, w);
    FromWorkerToReport(run, i, j, x, w);
    RunKeepsInv(run, j);
    assert PlaceOk(run[j], Reported);
    hide IsRun, Inv;
    assert x in multiset(run[j].reported) <==> x in run[j].reported;
  }

  // ---- What is attempted ----

  /** Unless w is cancelled, the message waits with it or has been attempted, and one it sends has been. */
  ghost predicate Tended(s: State, x: Msg, w: WorkerId) {
    w in s.workers && x in s.place && (!s.workers[w].cancelled ==> s.place[x] == In(w) || x in s.attempted)
  }

  /** Cancelled workers stay so, and attempts are not taken back. */
  ghost predicate Onward(s: State, s': State, w: WorkerId) {
    w in s.workers && w in s'.workers && (s.workers[w].cancelled ==> s'.workers[w].cancelled) && forall x :: x in s.attempted ==> x in s'.attempted
  }

  /** A step of the dispatcher or the reload that leaves every worker as it is. */
  ghost predicate Aside(a: Step) {
    a.Subscribe? || a.Look? || a.Lock? || a.Bounce? || a.GiveUp? || a.HoldMedia? || a.Detach? || a.Add? || a.Build? || a.AbandonStart?
  }

  lemma DispatcherStepsAside(s: State, a: Step)
    requires Can(s, a) && (a.Subscribe? || a.Look? || a.Lock? || a.Bounce? || a.GiveUp? || a.HoldMedia?)
    ensures Do(s, a).workers == s.workers && Do(s, a).attempted == s.attempted
  {
    hide Moved, HeldSeq;
  }

  lemma StepsAside(s: State, a: Step)
    requires Can(s, a) && Aside(a)
    ensures Do(s, a).workers == s.workers && Do(s, a).attempted == s.attempted
  {
    if a.Detach? || a.Add? || a.Build? || a.AbandonStart? { hide Moved, HeldSeq; } else { hide Do; DispatcherStepsAside(s, a); }
  }

  lemma WorkerStepGoesOn(s: State, a: Step, w: WorkerId)
    requires Can(s, a) && w in s.workers && (a.Take? || a.Report? || a.Push? || a.Leave? || a.CloseDone?)
    requires a.Take? ==> Taken(s.workers[a.w]).cancelled == s.workers[a.w].cancelled
    ensures Onward(s, Do(s, a), w)
  {
    hide Moved, Pending, Taken;
  }

  lemma ReloadStepGoesOn(s: State, a: Step, w: WorkerId)
    requires Can(s, a) && w in s.workers && !Aside(a) && !(a.Take? || a.Report? || a.Push? || a.Leave? || a.CloseDone?)
    ensures Onward(s, Do(s, a), w)
  {
    hide Moved, Pending, HeldSeq;
  }

  lemma GoesOn(s: State, a: Step, w: WorkerId)
    requires Can(s, a) && w in s.workers
    ensures Onward(s, Do(s, a), w)
  {
    if Aside(a) {
      StepsAside(s, a);
      hide Do;
    } else {
      hide Onward, Do;
      if a.Take? || a.Report? || a.Push? || a.Leave? || a.CloseDone? { WorkerStepGoesOn(s, a, w); } else { ReloadStepGoesOn(s, a, w); }
    }
  }

  /** A live worker's message leaves its queue by being attempted. */
  lemma TakingAttempts(s: State, v: WorkerId, x: Msg, w: WorkerId)
    requires Inv(s) && Can(s, Take(v)) && x in s.place && w in s.workers && s.place[x] == In(w) && !s.workers[w].cancelled
    ensures var s' := Do(s, Take(v)); x in s'.place && (s'.place[x] == In(w) || x in s'.attempted)
  {
    var head := Pending(s.workers[v])[0];
    TakenIsFirst(s.workers[v]);
    HeadIsIn(s, v, head);
    TakeDoes(s, v);
    hide Inv, Pending, Taken;
  }

  lemma StaysWhenOthersReport(s: State, v: WorkerId, x: Msg, w: WorkerId)
    requires Inv(s) && Can(s, Report(v)) && x in s.place && s.place[x] == In(w)
    ensures var s' := Do(s, Report(v)); x in s'.place && s'.place[x] == In(w)
  {
    assert PlaceOk(s, Sending(v)) && Contents(s, Sending(v)) == [s.workers[v].sending.value];
    hide Inv, NoRepeats, Contents;
  }

  lemma TendedStep(s: State, a: Step, x: Msg, w: WorkerId)
    requires Inv(s) && Can(s, a) && Tended(s, x, w)
    ensures Tended(Do(s, a), x, w)
  {
    GoesOn(s, a, w);
    WorkerKeepsIt(s, a, x, w);
    if a.Take? {
      if s.place[x] == In(w) && !s.workers[w].cancelled { TakingAttempts(s, a.w, x, w); }
      hide Inv, Can, Do;
    } else if a.Report? {
      if s.place[x] == In(w) { StaysWhenOthersReport(s, a.w, x, w); }
      hide Inv, Can, Do;
    } else {
      Untouched(s, a);
      hide Inv, Can, Do;
    }
  }

  lemma {:induction false} TendedInRun(run: seq<State>, i: nat, j: nat, x: Msg, w: WorkerId)
    requires IsRun(run) && i <= j < |run| && Tended(run[i], x, w)
    ensures Tended(run[j], x, w)
  {
    hide Can, Do, Inv, Tended;
    if i < j {
      TendedInRun(run, i, j - 1, x, w);
      RunKeepsInv(run, j - 1);
      assert Follows(run[j - 1], run[j]);
      var a :| Can(run[j - 1], a) && run[j] == Do(run[j - 1], a);
      TendedStep(run[j - 1], a, x, w);
    }
  }

  /** Whatever a worker was given has been attempted when it leaves before its context ends. */
  lemma CleanEndAttemptsAll(run: seq<State>, i: nat, j: nat, x: Msg, w: WorkerId)
    requires IsRun(run) && i <= j < |run| && w in run[i].workers && x in run[i].place && run[i].place[x] == In(w)
    requires w in run[j].workers && run[j].workers[w].leaving && !run[j].workers[w].cancelled
    ensures x in run[j].attempted
  {
    TendedInRun(run, i, j, x, w);
    RunKeepsInv(run, j);
    var s := run[j];
    assert PlaceOk(s, In(w)) && WorkerOk(s.workers[w]);
  }

  /** A start that succeeds gives its worker everything held, to be attempted before anything else, and reports nothing. */
  lemma StartGivesBacklog(s: State, w: WorkerId)
    requires Inv(s) && Can(s, Started(true, w))
    ensures var s' := Do(s, Started(true, w));
      w in s'.workers && Pending(s'.workers[w]) == HeldSeq(s) && s'.current == Some(w) && s'.reported == s.reported
      && forall x :: x in HeldSeq(s) ==> x in s'.place && s'.place[x] == In(w)
  {
    assert PlaceOk(s, Held) && Contents(s, Held) == HeldSeq(s);
    hide Inv, NoRepeats, HeldSeq, Contents;
  }

  /** A drain that has waited long enough can be ended: its worker's context is cancelled. */
  lemma TimeoutEndsDrain(s: State)
    requires Can(s, DrainTimeout)
    ensures Can(Do(s, DrainTimeout), DrainDone) && Do(s, DrainTimeout).workers[s.reloader.w].cancelled
  {
  }

  /** A hold begins empty, when a channel is to be rebuilt or added, and grows by one text or medium at a time. */
  lemma HoldBeginsEmpty(s: State, a: Step)
    requires Can(s, a) && (a == Detach(true) || a == Add)
    ensures Do(s, a).held == Some([]) && Do(s, a).heldMedia == 0 && Do(s, a).reported == s.reported
  {
  }

  lemma HoldGrows(s: State, a: Step)
    requires Can(s, a) && s.held.Some? && (a == Look(false) || a == HoldMedia)
    ensures var s', room := Do(s, a), |s.held.value| + s.heldMedia < 1000;
      (a.HoldMedia? ==> s'.held == s.held && s'.heldMedia == s.heldMedia + if room then 1 else 0)
      && (a.Look? ==> s'.heldMedia == s.heldMedia && s'.held == Some(s.held.value + if room then [s.dispatcher.m] else []))
  {
    assert s.held.value + [] == s.held.value;
    hide Moved;
  }

  /** So what was held has been attempted when that worker leaves before its context ends. */
  lemma HeldIsAttempted(run: seq<State>, i: nat, j: nat, x: Msg, w: WorkerId)
    requires IsRun(run) && i < j < |run| && x in HeldSeq(run[i])
    requires Can(run[i], Started(true, w)) && run[i + 1] == Do(run[i], Started(true, w))
    requires w in run[j].workers && run[j].workers[w].leaving && !run[j].workers[w].cancelled
    ensures x in run[j].attempted
  {
    RunKeepsInv(run, i);
    StartGivesBacklog(run[i], w);
    hide Do, Can, Pending, HeldSeq, Inv;
    CleanEndAttemptsAll(run, i + 1, j, x, w);
  }

  /** What a live worker is sending has been attempted. */
  ghost predicate SendingTried(s: State) {
    forall w :: w in s.workers && s.workers[w].sending.Some? && !s.workers[w].cancelled ==> s.workers[w].sending.value in s.attempted
  }

  lemma TakingKeepsTried(s: State, w: WorkerId)
    requires SendingTried(s) && Can(s, Take(w))
    ensures SendingTried(Do(s, Take(w))) && forall x :: x in s.attempted ==> x in Do(s, Take(w)).attempted
  {
    hide Moved, Pending;
  }

  lemma WorkerStepKeepsTried(s: State, a: Step)
    requires SendingTried(s) && Can(s, a) && (a.Report? || a.Push? || a.Leave? || a.CloseDone?)
    ensures SendingTried(Do(s, a)) && Do(s, a).attempted == s.attempted
  {
    hide Moved, Pending;
  }

  lemma ReloadStepKeepsTried(s: State, a: Step)
    requires SendingTried(s) && Can(s, a) && !Aside(a) && !(a.Take? || a.Report? || a.Push? || a.Leave? || a.CloseDone?)
    ensures SendingTried(Do(s, a)) && Do(s, a).attempted == s.attempted
  {
    hide Moved, Pending, HeldSeq;
  }

  lemma SameWorkersTried(s: State, s': State)
    requires SendingTried(s) && s'.workers == s.workers && s'.attempted == s.attempted
    ensures SendingTried(s')
  {
  }

  lemma StepKeepsTried(s: State, a: Step)
    requires SendingTried(s) && Can(s, a)
    ensures SendingTried(Do(s, a)) && forall x :: x in s.attempted ==> x in Do(s, a).attempted
  {
    hide SendingTried, Do;
    if a.Take? {
      TakingKeepsTried(s, a.w);
    } else if a.Report? || a.Push? || a.Leave? || a.CloseDone? {
      WorkerStepKeepsTried(s, a);
    } else if Aside(a) {
      StepsAside(s, a);
      SameWorkersTried(s, Do(s, a));
    } else {
      ReloadStepKeepsTried(s, a);
    }
  }

  /** Why a message is reported undelivered: shutdown, a full hold, no channel or worker, a failed build or start, or a cancelled worker. */
  ghost predicate Refuses(s: State, a: Step) {
    match a
    case Look(ended) =>
      ended || (s.held.Some? && |s.held.value| + s.heldMedia >= MAX_HELD) || (s.held.None? && (!s.known || s.current.None?))
    case GiveUp => true
    case Report(w) => w in s.workers && s.workers[w].cancelled
    case Build(ok) => !ok
    case Started(ok, _) => !ok
    case AbandonStart => true
    case _ => false
  }

  lemma DispatcherReportsForAReason(s: State, a: Step)
    requires Can(s, a) && (a.Look? || a.Push? || a.GiveUp? || a.Subscribe? || a.Lock? || a.Bounce? || a.HoldMedia?)
    ensures Refuses(s, a) || Do(s, a).reported == s.reported
  {
    hide Moved;
  }

  lemma WorkersReportForAReason(s: State, a: Step)
    requires Can(s, a) && !a.Report? && !(a.Look? || a.Push? || a.GiveUp? || a.Subscribe? || a.Lock? || a.Bounce? || a.HoldMedia?)
    ensures Refuses(s, a) || Do(s, a).reported == s.reported
  {
    hide Moved, Taken, Pending, HeldSeq;
  }

  /** A step reports only what has been attempted, or it refuses. */
  lemma ReportsForAReason(s: State, a: Step, x: Msg)
    requires SendingTried(s) && Can(s, a) && x in Do(s, a).reported && x !in s.reported
    ensures x in s.attempted || Refuses(s, a)
  {
    if a.Report? {
      hide Moved;
    } else if a.Look? || a.Push? || a.GiveUp? || a.Subscribe? || a.Lock? || a.Bounce? || a.HoldMedia? {
      hide Do;
      DispatcherReportsForAReason(s, a);
    } else {
      hide Do;
      WorkersReportForAReason(s, a);
    }
  }

  /** The k-th step of the run reports x, and for one of those reasons. */
  ghost predicate RefusedAt(run: seq<State>, k: nat, x: Msg)
    requires k + 1 < |run|
  {
    x !in run[k].reported && x in run[k + 1].reported
    && exists a :: Can(run[k], a) && run[k + 1] == Do(run[k], a) && Refuses(run[k], a)
  }

  /** Nothing is given up in vain: what is reported has been attempted, or was refused for a reason. */
  lemma {:induction false} ReportedWasTried(run: seq<State>, i: nat, x: Msg)
    requires IsRun(run) && i < |run|
    ensures SendingTried(run[i])
    ensures x in run[i].reported ==> x in run[i].attempted || exists k: nat :: k < i && RefusedAt(run, k, x)
  {
    hide Can, Do, SendingTried, Refuses;
    if i == 0 {
      NoneSending();
    } else {
      ReportedWasTried(run, i - 1, x);
      assert Follows(run[i - 1], run[i]);
      var a :| Can(run[i - 1], a) && run[i] == Do(run[i - 1], a);
      StepKeepsTried(run[i - 1], a);
      if x in run[i].reported && x !in run[i - 1].reported {
        ReportsForAReason(run[i - 1], a, x);
        if Refuses(run[i - 1], a) { assert RefusedAt(run, i - 1, x); }
      }
    }
  }

  lemma NoneSending()
    ensures SendingTried(Initial)
  {
  }

  lemma StrandedHere(run: seq<State>, i: nat, x: Msg, w: WorkerId)
    requires IsRun(run) && i < |run| && w in run[i].workers && run[i].workers[w].leaving
    requires x in run[i].place && run[i].place[x] == In(w)
    ensures run[i].workers[w].cancelled
  {
    RunKeepsInv(run, i);
    assert PlaceOk(run[i], In(w)) && WorkerOk(run[i].workers[w]);
  }

  /** The goroutine of w looks at its queue for the last time by this step. */
  ghost predicate Ends(s: State, s': State, w: WorkerId) {
    w in s.workers && !s.workers[w].leaving && w in s'.workers && s'.workers[w].leaving
  }

  lemma OwnStepEnds(s: State, a: Step, w: WorkerId)
    requires Can(s, a) && (a.Take? || a.Report? || a.Push? || a.CloseQueues? || a.DrainTimeout? || a.DrainDone?)
    ensures !Ends(s, Do(s, a), w)
  {
    hide Moved, Pending;
  }

  lemma StartStepEnds(s: State, a: Step, w: WorkerId)
    requires Can(s, a) && (a.Build? || a.Started? || a.AbandonStart? || a.RetrySucceeds? || a.ContextEnds?)
    ensures !Ends(s, Do(s, a), w)
  {
    hide Moved;
  }

  lemma OnlyLeaveEnds(s: State, a: Step, w: WorkerId)
    requires Can(s, a) && Ends(s, Do(s, a), w)
    ensures a == Leave(w)
  {
    if a.Take? || a.Report? || a.Push? || a.CloseQueues? || a.DrainTimeout? || a.DrainDone? {
      OwnStepEnds(s, a, w);
    } else if a.Build? || a.Started? || a.AbandonStart? || a.RetrySucceeds? || a.ContextEnds? {
      StartStepEnds(s, a, w);
    } else {
      hide Moved, Pending;
    }
  }

  /** A worker leaves with nothing pending and nothing being sent. */
  lemma EndsWithNothing(s: State, a: Step, x: Msg, w: WorkerId)
    requires Inv(s) && Can(s, a) && x in s.place && Ends(s, Do(s, a), w)
    ensures s.place[x] != In(w) && s.place[x] != Sending(w)
  {
    OnlyLeaveEnds(s, a, w);
    assert PlaceOk(s, In(w)) && PlaceOk(s, Sending(w));
    hide Inv, NoRepeats, Do, Ends;
  }

  ghost predicate GivenOk(s: State, x: Msg, w: WorkerId) {
    w in s.workers && x in s.place && s.place[x] in {In(w), Sending(w), Reported} && (s.workers[w].leaving ==> s.place[x] == Reported)
  }

  lemma GivenStep(s: State, a: Step, x: Msg, w: WorkerId)
    requires Inv(s) && Can(s, a) && GivenOk(s, x, w)
    ensures GivenOk(Do(s, a), x, w)
  {
    hide Inv, Can, Do;
    WorkerKeepsIt(s, a, x, w);
    if Ends(s, Do(s, a), w) { EndsWithNothing(s, a, x, w); }
  }

  /** Given to a worker that is not leaving, a message is reported by the time it is. */
  lemma {:induction false} GivenInTime(run: seq<State>, i: nat, j: nat, x: Msg, w: WorkerId)
    requires IsRun(run) && i <= j < |run| && GivenOk(run[i], x, w)
    ensures GivenOk(run[j], x, w)
  {
    hide Can, Do, Inv, GivenOk;
    if i < j {
      GivenInTime(run, i, j - 1, x, w);
      RunKeepsInv(run, j - 1);
      assert Follows(run[j - 1], run[j]);
      var a :| Can(run[j - 1], a) && run[j] == Do(run[j - 1], a);
      GivenStep(run[j - 1], a, x, w);
    }
  }

  /**
   * What a worker's end is worth, however it came about: a message given to it
   * is reported, exactly once, if it had not begun to leave by then, and never
   * if it had. The enqueue's select sees only its done channel, closed later.
   */
  lemma ReportedIff(run: seq<State>, i: nat, j: nat, x: Msg, w: WorkerId)
    requires IsRun(run) && i <= j < |run| && w in run[i].workers && x in run[i].place && run[i].place[x] == In(w)
    requires w in run[j].workers && run[j].workers[w].leaving
    ensures multiset(run[j].reported)[x] == if run[i].workers[w].leaving then 0 else 1
  {
    if run[i].workers[w].leaving {
      StrandedForGood(run, i, j, x, w);
    } else {
      GivenInTime(run, i, j, x, w);
      RunKeepsInv(run, j);
      assert PlaceOk(run[j], Reported);
      hide IsRun, Inv;
    }
  }

  // ---- A message that is stranded ----

  ghost predicate Reachable(s: State) { exists run :: IsRun(run) && run[|run| - 1] == s }

  lemma Start()
    ensures Reachable(Initial)
  {
    assert IsRun([Initial]) && [Initial][|[Initial]| - 1] == Initial;
  }

  lemma Then(s: State, a: Step)
    requires Reachable(s) && Can(s, a)
    ensures Reachable(Do(s, a))
  {
    var run :| IsRun(run) && run[|run| - 1] == s;
    assert Follows(s, Do(s, a));
    assert IsRun(run + [Do(s, a)]);
  }

  lemma ChannelStarts() returns (s: State)
    ensures Reachable(s) && s == Initial.(known := true, current := Some(0), workers := map[0 := Worker([], [], None, false, false, false, false)])
  {
    Start();
    s := Initial;
    hide Reachable;
    Then(s, Add);
    s := Do(s, Add);
    Then(s, Build(true));
    s := Do(s, Build(true));
    Then(s, Started(true, 0));
    s := Do(s, Started(true, 0));
    assert s.place == map[];
  }

  lemma MessageFindsWorker() returns (s: State)
    ensures Reachable(s) && s.dispatcher == Pushing(0, 0) && s.workers == map[0 := Worker([], [], None, false, false, false, false)]
    ensures 0 in s.place
  {
    s := ChannelStarts();
    hide Reachable;
    Then(s, Subscribe);
    s := Do(s, Subscribe);
    Then(s, Look(false));
    s := Do(s, Look(false));
    Then(s, Lock);
    s := Do(s, Lock);
  }

  lemma WorkerIsLeaving() returns (s: State)
    ensures Reachable(s) && s.dispatcher == Pushing(0, 0) && s.workers == map[0 := Worker([], [], None, false, true, false, true)]
    ensures 0 in s.place
  {
    s := MessageFindsWorker();
    hide Reachable;
    Then(s, ContextEnds);
    s := Do(s, ContextEnds);
    Then(s, Leave(0));
    s := Do(s, Leave(0));
  }

  /** Both contexts end, the worker leaves and closes done, and the dispatcher's select still picks the queue's free place. */
  lemma OneIsStranded() returns (s: State)
    ensures Reachable(s) && 0 in s.workers && s.workers[0].done && 0 in s.place && s.place[0] == In(0)
  {
    s := WorkerIsLeaving();
    hide Reachable;
    Then(s, CloseDone(0));
    s := Do(s, CloseDone(0));
    Then(s, Push);
    s := Do(s, Push);
  }

  /** Nor does an open done channel help: queued after the worker's last look and before the close, a message is just as lost. */
  lemma OpenDoneIsNotEnough() returns (s: State)
    ensures Reachable(s) && Can(s, Push) && s.dispatcher.w == 0 && !s.workers[0].done
    ensures var given := Do(s, Push);
      Reachable(given) && given.workers[0].leaving && 0 in given.place && given.place[0] == In(0)
      && Can(given, CloseDone(0)) && Do(given, CloseDone(0)).place[0] == In(0)
  {
    s := WorkerIsLeaving();
    hide Reachable;
    Then(s, Push);
  }

  // ---- In place ----

  /** heldOutbound: text and media held for a channel that is starting, together at most MAX_HELD. */
  class HeldOutbound {
    var text: seq<Msg>
    var media: seq<Msg>
    var overflowed: bool

    ghost predicate Valid()
      reads this
    {
      |text| + |media| <= MAX_HELD && (overflowed ==> |text| + |media| == MAX_HELD)
    }

    constructor ()
      ensures Valid() && text == [] && media == [] && !overflowed
    {
      text, media, overflowed := [], [], false;
    }

    /** holdText: refused exactly when the hold is full; the first refusal is told apart. */
    method HoldText(m: Msg) returns (held: bool, firstOverflow: bool)
      requires Valid()
      modifies this
      ensures Valid() && media == old(media)
      ensures held <==> |old(text)| + |old(media)| < MAX_HELD
      ensures text == if held then old(text) + [m] else old(text)
      ensures firstOverflow <==> !held && !old(overflowed)
      ensures overflowed <==> old(overflowed) || !held
    {
      if |text| + |media| >= MAX_HELD {
        firstOverflow := !overflowed;
        overflowed := true;
        return false, firstOverflow;
      }
      text := text + [m];
      return true, false;
    }
  }

  datatype Enqueued = Queued | WorkerClosed | ContextOver | Blocks

  /** channelWorker, as the dispatcher and the reload see it. */
  class ChannelWorker {
    var queue: seq<Msg>
    var done: bool
    var closed: bool
    ghost var model: Worker

    ghost predicate Valid()
      reads this
    {
      model.queue == queue && model.done == done && model.closed == closed && |queue| <= QUEUE_SIZE
    }

    constructor (backlog: seq<Msg>)
      ensures Valid() && model == Worker(backlog, [], None, false, false, false, false)
    {
      queue, done, closed := [], false, false;
      model := Worker(backlog, [], None, false, false, false, false);
    }

    /** enqueueOn, on its worker's queue and done channel: one round of its select, any ready case of which may be chosen. */
    method Enqueue(m: Msg, ended: bool) returns (r: Enqueued)
      requires Valid()
      modifies this
      ensures Valid() && (old(closed) ==> r == WorkerClosed)
      ensures model == if r == Queued then old(model).(queue := old(queue) + [m]) else old(model)
      ensures r == Queued ==> |old(queue)| < QUEUE_SIZE
      ensures r == WorkerClosed ==> closed || done
      ensures r == ContextOver ==> ended
      ensures r == Blocks ==> |queue| == QUEUE_SIZE && !done && !ended
    {
      if closed {
        return WorkerClosed;
      }
      if
      case |queue| < QUEUE_SIZE =>
        queue := queue + [m];
        model := model.(queue := queue);
        r := Queued;
      case done => r := WorkerClosed;
      case ended => r := ContextOver;
      case |queue| == QUEUE_SIZE && !done && !ended => r := Blocks;
    }

    /** closeQueues */
    method CloseQueues()
      requires Valid()
      modifies this
      ensures Valid() && model == old(model).(closed := true)
    {
      if closed { return; }
      closed := true;
      model := model.(closed := true);
    }
  }
}
