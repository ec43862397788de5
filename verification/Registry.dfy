/**
 * The life of agent instances in the registry: creation, turns, deletion now
 * or when idle, sweeps, reloads, orphans and shutdown, in every interleaving
 * of their atomic actions and lock-held sections.
 *
 * What goroutines are about to do is kept as counts: how many of them have
 * a given action on a given entry (or agent id) as their next one.
 */
module Registry {
  import opened Common

  /** Config ids are normalized configuration ids; temporary ids are UUIDs, so the two never meet. */
  datatype AgentId = Config(name: int) | Temp(uuid: int)

  /** An entry together with the one instance built for it. */
  type Entry = int

  /** Everything about one entry: its flags, and how many goroutines are about to do what with it. */
  datatype Life = Life(
    id: AgentId,
    busy: int,          // a config entry's turn count; a temporary agent's is shared by id (Agent)
    replaced: bool,     // a reload has taken this config entry out of the map
    retireWhenIdle: bool,
    retiring: bool,
    orphaned: int,      // occurrences in the orphan list
    closes: int,        // times closed
      // no instance in hand
    turns: int,         // turns running on it
    endChecks: int,     // a turn that left it idle: read retireWhenIdle
    toMark: int,        // Reload: set retireWhenIdle
    looks: int,         // retireIfIdle: read retireWhenIdle
    busyReads: int,     // retireIfIdle: read the turn count
    swaps: int,         // retireIfIdle: compare-and-swap retiring
      // the instance in hand
    built: int,         // create: insert it
    toDelete: int,      // deleteEntry, dispose: call the retire hook
    toPutBack: int,     // refused: put it back
    toRetire: int,      // closeReplaced, retryOrphans: call the retire hook
    toKeep: int,        // refused: keep it as an orphan
    toClose: int,       // close it
    shutting: int)      // Registry.Close: close it

  /** Everything kept per agent id. */
  datatype Agent = Agent(
    creating: Option<Entry>,  // its creation is in flight: the entry is not inserted yet
    busy: int,          // a temporary agent's turn count, shared by its rebuilt entries
    deleteWhenIdle: bool,
    refused: bool,      // the last deletion tried was refused by the retire hook
    endChecks: int,     // a turn that left it idle: read deleteWhenIdle
    spawns: int,        // marked: start the deletion in the background
    attempts: int)      // deleteEntry's locked section

  datatype Reload =
    | NoReload
    | Reloading(config: map<AgentId, Entry>, rebuilt: map<AgentId, Entry>, doomed: set<AgentId>)

  datatype State = State(
    entries: map<AgentId, Entry>,
    closed: bool,
    reload: Reload,               // at most one: reloadMu
    life: map<Entry, Life>,       // every entry ever built
    agents: map<AgentId, Agent>)  // every id ever used

  const Initial := State(map[], false, NoReload, map[], map[])

  function Newborn(id: AgentId): Life {
    Life(id, 0, false, false, false, 0, 0, 0, 0, 0, 0, 0, 0, 0, 0, 0, 0, 0, 0, 0)
  }

  function NewAgent(creating: Option<Entry>): Agent { Agent(creating, 0, false, false, 0, 0, 0) }

  /** Actions that concern one entry alone. */
  datatype Action =
    | DeleteHook(ok: bool)         // deleteEntry, dispose: the retire hook answers
    | TurnEndRetireCheck
    | MarkRetire
    | RetireLook
    | RetireBusy
    | RetireSwap
    | RetireHook(ok: bool)         // closeReplaced, retryOrphans: the retire hook answers
    | KeepOrphan
    | CloseInstance
    | ShutInstance

  datatype Step =
    | Own(e: Entry, action: Action)
    | Create(e: Entry, id: AgentId)          // build a temporary agent
    | Insert(e: Entry, inTurn: bool)
    | BeginTurn(e: Entry)
    | EndTurn(e: Entry)
    | DeleteWhenIdle(id: AgentId)
    | RequestDelete(id: AgentId)             // Delete, or a sweep's victim
    | TurnEndCheck(id: AgentId)
    | SpawnDelete(id: AgentId)
    | DeleteAttempt(id: AgentId)
    | PutBack(e: Entry)
    | RetryOrphans
    | CloseRegistry
    | ReloadStart
    | ReloadBuildConfig(e: Entry, id: AgentId)
    | ReloadBuildTemp(e: Entry, id: AgentId)
    | ReloadDoom(id: AgentId)
    | ReloadCommit
    | ReloadAbandon

  // ---- Reading the state ----

  ghost predicate At(m: map<AgentId, Entry>, id: AgentId, e: Entry) { id in m && m[id] == e }

  ghost predicate InMap(s: State, e: Entry)
    requires e in s.life
  {
    At(s.entries, s.life[e].id, e)
  }

  ghost predicate InReload(r: Reload, id: AgentId, e: Entry) {
    r.Reloading? && (At(r.config, id, e) || At(r.rebuilt, id, e))
  }

  /** A replaced config instance nobody has yet undertaken to close. */
  ghost predicate Waiting(l: Life) { l.replaced && !l.retiring }

  ghost function Hands(l: Life): int {
    l.built + l.toDelete + l.toPutBack + l.toRetire + l.toKeep + l.toClose + l.shutting
  }

  function One(b: bool): int { if b then 1 else 0 }

  /** How many places the entry is in, counting each of its closes as one. After Close the map is no place. */
  ghost function Places(l: Life, closed: bool, inMap: bool, inReload: bool): int {
    One(!closed && inMap) + One(inReload) + One(Waiting(l)) + l.orphaned + Hands(l) + l.closes
  }

  ghost function AgentBusy(s: State, id: AgentId): int { if id in s.agents then s.agents[id].busy else 0 }

  /** entry.meta.busy */
  ghost function Busy(s: State, e: Entry): int
    requires e in s.life
  {
    if s.life[e].id.Temp? then AgentBusy(s, s.life[e].id) else s.life[e].busy
  }

  // ---- Steps ----

  ghost function Put(s: State, e: Entry, l: Life): State { s.(life := s.life[e := l]) }

  ghost function PutAgent(s: State, id: AgentId, a: Agent): State { s.(agents := s.agents[id := a]) }

  ghost predicate KnownEntry(s: State, e: Entry) { e in s.life && s.life[e].id in s.agents }

  /** A turn on e starts (d is 1) or ends (d is -1); the one that leaves the agent idle goes on to look at both marks. */
  ghost function MoveTurn(s: State, e: Entry, d: int): State
    requires KnownEntry(s, e)
  {
    var l, a := s.life[e], s.agents[s.life[e].id];
    var idle := One(d < 0 && Busy(s, e) + d == 0);
    PutAgent(Put(s, e, l.(turns := l.turns + d, busy := if l.id.Temp? then l.busy else l.busy + d,
                          endChecks := l.endChecks + idle)),
             l.id, a.(busy := if l.id.Temp? then a.busy + d else a.busy, endChecks := a.endChecks + idle))
  }

  ghost predicate MayOwn(l: Life, action: Action) {
    match action
    case DeleteHook(_) => l.toDelete > 0
    case TurnEndRetireCheck => l.endChecks > 0
    case MarkRetire => l.toMark > 0
    case RetireLook => l.looks > 0
    case RetireBusy => l.busyReads > 0
    case RetireSwap => l.swaps > 0
    case RetireHook(_) => l.toRetire > 0
    case KeepOrphan => l.toKeep > 0
    case CloseInstance => l.toClose > 0
    case ShutInstance => l.shutting > 0
  }

  ghost function OwnAction(l: Life, action: Action, closed: bool, busy: int): (r: Life)
    ensures r.id == l.id && r.busy == l.busy
  {
    match action
    case DeleteHook(ok) =>
      if ok then l.(toDelete := l.toDelete - 1, toClose := l.toClose + 1)
      else l.(toDelete := l.toDelete - 1, toPutBack := l.toPutBack + 1)
    case TurnEndRetireCheck =>
      l.(endChecks := l.endChecks - 1, looks := l.looks + One(l.retireWhenIdle))
    case MarkRetire => l.(toMark := l.toMark - 1, retireWhenIdle := true, looks := l.looks + 1)
    case RetireLook => l.(looks := l.looks - 1, busyReads := l.busyReads + One(l.retireWhenIdle))
    case RetireBusy => l.(busyReads := l.busyReads - 1, swaps := l.swaps + One(busy <= 0))
    case RetireSwap =>
      l.(swaps := l.swaps - 1, retiring := true, toRetire := l.toRetire + One(!l.retiring))
    case RetireHook(ok) =>
      if ok then l.(toRetire := l.toRetire - 1, toClose := l.toClose + 1)
      else l.(toRetire := l.toRetire - 1, toKeep := l.toKeep + 1)
    case KeepOrphan =>
      if closed then l.(toKeep := l.toKeep - 1, toClose := l.toClose + 1)
      else l.(toKeep := l.toKeep - 1, orphaned := l.orphaned + 1)
    case CloseInstance => l.(toClose := l.toClose - 1, closes := l.closes + 1)
    case ShutInstance => l.(shutting := l.shutting - 1, closes := l.closes + 1)
  }

  ghost predicate Can(s: State, a: Step) {
    match a
    case Own(e, action) => KnownEntry(s, e) && MayOwn(s.life[e], action)
    case Create(e, id) => e !in s.life && id.Temp? && id !in s.agents
    case Insert(e, _) => KnownEntry(s, e) && s.life[e].built > 0
    case BeginTurn(e) => KnownEntry(s, e) && InMap(s, e)
    case EndTurn(e) => KnownEntry(s, e) && s.life[e].turns > 0
    case DeleteWhenIdle(id) => id in s.agents
    case RequestDelete(id) => id in s.agents
    case TurnEndCheck(id) => id in s.agents && s.agents[id].endChecks > 0
    case SpawnDelete(id) => id in s.agents && s.agents[id].spawns > 0
    case DeleteAttempt(id) => id in s.agents && s.agents[id].attempts > 0 && (id in s.entries ==> s.entries[id] in s.life)
    case PutBack(e) => KnownEntry(s, e) && s.life[e].toPutBack > 0
    case RetryOrphans => true
    case CloseRegistry => true
    case ReloadStart => s.reload.NoReload?
    case ReloadBuildConfig(e, id) => s.reload.Reloading? && e !in s.life && id.Config? && id !in s.reload.config
    case ReloadBuildTemp(e, id) =>
      s.reload.Reloading? && e !in s.life && id.Temp? && id in s.agents && id !in s.reload.rebuilt
    case ReloadDoom(id) => s.reload.Reloading?
    case ReloadCommit => s.reload.Reloading? && !s.closed
    case ReloadAbandon => s.reload.Reloading?
  }

  ghost function Do(s: State, a: Step): State
    requires Can(s, a)
  {
    match a
    case Own(e, action) => Put(s, e, OwnAction(s.life[e], action, s.closed, Busy(s, e)))
    case Create(e, id) => PutAgent(Put(s, e, Newborn(id).(built := 1)), id, NewAgent(Some(e)))
    case Insert(e, inTurn) => InsertState(s, e, inTurn)
    case BeginTurn(e) => MoveTurn(s, e, 1)
    case EndTurn(e) => MoveTurn(s, e, -1)
    case DeleteWhenIdle(id) =>
      if s.closed || id !in s.entries || !id.Temp? then s
      else PutAgent(s, id, s.agents[id].(deleteWhenIdle := true, refused := false, attempts := s.agents[id].attempts + 1))
    case RequestDelete(id) => PutAgent(s, id, s.agents[id].(attempts := s.agents[id].attempts + 1))
    case TurnEndCheck(id) =>
      var a := s.agents[id].(endChecks := s.agents[id].endChecks - 1);
      PutAgent(s, id, if a.deleteWhenIdle then a.(spawns := a.spawns + 1) else a)
    case SpawnDelete(id) =>
      var a := s.agents[id].(spawns := s.agents[id].spawns - 1);
      PutAgent(s, id, if s.closed then a else a.(refused := false, attempts := a.attempts + 1))
    case DeleteAttempt(id) =>
      var t := PutAgent(s, id, s.agents[id].(attempts := s.agents[id].attempts - 1));
      if s.closed || id !in s.entries || !id.Temp? || AgentBusy(s, id) > 0 then t
      else
        var e := s.entries[id];
        Put(t.(entries := s.entries - {id}), e, s.life[e].(toDelete := s.life[e].toDelete + 1))
    case PutBack(e) =>
      var l := s.life[e].(toPutBack := s.life[e].toPutBack - 1);
      if s.closed || l.id in s.entries then Put(s, e, l.(toClose := l.toClose + 1))
      else PutAgent(Put(s.(entries := s.entries[l.id := e]), e, l), l.id, s.agents[l.id].(refused := true))
    case RetryOrphans => s.(life := map e | e in s.life :: TakenFromOrphans(s.life[e]))
    case CloseRegistry => if s.closed then s else
      s.(closed := true, life := map e | e in s.life :: TakenByClose(s.life[e], InMap(s, e)))
    case ReloadStart => s.(reload := Reloading(map[], map[], {}))
    case ReloadBuildConfig(e, id) =>
      var t := Put(s.(reload := s.reload.(config := s.reload.config[id := e])), e, Newborn(id));
      if id in s.agents then t else PutAgent(t, id, NewAgent(None))
    case ReloadBuildTemp(e, id) =>
      Put(s.(reload := s.reload.(rebuilt := s.reload.rebuilt[id := e])), e, Newborn(id))
    case ReloadDoom(id) => s.(reload := s.reload.(doomed := s.reload.doomed + {id}))
    case ReloadCommit => CommitState(s)
    case ReloadAbandon =>
      s.(reload := NoReload, life := map e | e in s.life :: Abandoned(s.life[e], InReload(s.reload, s.life[e].id, e)))
  }

  ghost function InsertState(s: State, e: Entry, inTurn: bool): State
    requires KnownEntry(s, e)
  {
    var l := s.life[e].(built := s.life[e].built - 1);
    if s.closed then Put(s, e, l.(toClose := l.toClose + 1))
    else
      var t := PutAgent(Put(s.(entries := s.entries[l.id := e]), e, l), l.id, s.agents[l.id].(creating := None));
      if inTurn then MoveTurn(t, e, 1) else t
  }

  /** A sweep takes the whole orphan list. */
  ghost function TakenFromOrphans(l: Life): Life { l.(orphaned := 0, toRetire := l.toRetire + l.orphaned) }

  /** Close takes the map's entries and the orphans. */
  ghost function TakenByClose(l: Life, inMap: bool): Life {
    l.(orphaned := 0, shutting := l.shutting + l.orphaned + One(inMap))
  }

  ghost function Abandoned(l: Life, inReload: bool): Life { l.(toClose := l.toClose + One(inReload)) }

  // ---- Reload's commit ----

  /** The temporary agent id gets its rebuilt instance. */
  ghost predicate Takes(s: State, id: AgentId)
    requires s.reload.Reloading?
  {
    id.Temp? && id in s.entries && id in s.reload.rebuilt && AgentBusy(s, id) <= 0
  }

  /** The temporary agent id can no longer be built and is deleted. */
  ghost predicate Drops(s: State, id: AgentId)
    requires s.reload.Reloading?
  {
    id.Temp? && id in s.entries && !Takes(s, id) && id in s.reload.doomed && AgentBusy(s, id) <= 0
  }

  ghost function CommittedEntries(s: State): map<AgentId, Entry>
    requires s.reload.Reloading?
  {
    map id | id in s.reload.config.Keys + s.entries.Keys
           && (id in s.reload.config || (id.Temp? && id in s.entries && !Drops(s, id))) ::
      if id.Temp? && id in s.entries then if Takes(s, id) then s.reload.rebuilt[id] else s.entries[id]
      else if id in s.reload.config then s.reload.config[id] else 0
  }

  /** What the commit leaves to be done with e. */
  ghost function CommittedLife(s: State, e: Entry): (r: Life)
    requires s.reload.Reloading? && e in s.life
    ensures r.id == s.life[e].id && r.orphaned == s.life[e].orphaned && r.busy == s.life[e].busy
  {
    var l := s.life[e];
    if InMap(s, e) && l.id.Config? then l.(replaced := true, toMark := l.toMark + 1)
    else if InMap(s, e) && Takes(s, l.id) then l.(toRetire := l.toRetire + 1)
    else if InMap(s, e) && Drops(s, l.id) then l.(toDelete := l.toDelete + 1)
    else if At(s.reload.rebuilt, l.id, e) && !Takes(s, l.id) then l.(toClose := l.toClose + 1)
    else l
  }

  ghost function CommitState(s: State): State
    requires s.reload.Reloading?
  {
    s.(entries := CommittedEntries(s), reload := NoReload, life := map e | e in s.life :: CommittedLife(s, e))
  }

  // ---- The invariant ----

  ghost predicate MapKnown(m: map<AgentId, Entry>, life: map<Entry, Life>) {
    forall id :: id in m ==> m[id] in life && life[m[id]].id == id
  }

  ghost predicate ReloadKnown(r: Reload, life: map<Entry, Life>) {
    r.Reloading? ==>
      MapKnown(r.config, life) && MapKnown(r.rebuilt, life)
      && (forall id :: id in r.config ==> id.Config?) && (forall id :: id in r.rebuilt ==> id.Temp?)
  }

  ghost predicate Nonnegative(l: Life) {
    l.orphaned >= 0 && l.closes >= 0 && l.turns >= 0 && l.endChecks >= 0 && l.toMark >= 0 && l.looks >= 0
    && l.busyReads >= 0 && l.swaps >= 0 && l.built >= 0 && l.toDelete >= 0 && l.toPutBack >= 0 && l.toRetire >= 0
    && l.toKeep >= 0 && l.toClose >= 0 && l.shutting >= 0
  }

  /** Retirement: only a replaced entry is retired, with no turn on it, and one left waiting has somebody still to look. */
  ghost predicate RetirementOk(l: Life) {
    (l.retireWhenIdle || l.retiring || l.toMark + l.looks + l.busyReads + l.swaps > 0 ==> l.replaced)
    && (l.swaps > 0 ==> l.turns == 0)
    && (Waiting(l) ==> if l.retireWhenIdle then l.turns + l.endChecks + l.looks + l.busyReads + l.swaps > 0
                       else l.toMark > 0)
  }

  /** What is true of every entry e ever built; creating is its agent's. */
  ghost predicate LifeOk(l: Life, e: Entry, closed: bool, inMap: bool, inReload: bool, busy: int, creating: Option<Entry>) {
    Nonnegative(l) && RetirementOk(l)
    && Places(l, closed, inMap, inReload) == 1
    && (closed ==> l.orphaned == 0 && (inMap ==> l.shutting + l.closes > 0))
      // turns run only on instances in the map or waiting for them, and busy counts them
    && (l.turns > 0 ==> inMap || Waiting(l))
    && (inMap || l.id.Config? ==> busy == l.turns)
      // a replaced entry is a config entry and never comes back
    && (l.replaced ==> l.id.Config? && !inMap && !inReload)
      // only temporary agents are created and deleted, and only once created can they be deleted
    && (l.built > 0 ==> creating == Some(e) && l.id.Temp?)
    && (l.toDelete + l.toPutBack > 0 ==> creating == None && l.id.Temp?)
  }

  ghost predicate EntryOk(s: State, e: Entry) {
    KnownEntry(s, e)
    && LifeOk(s.life[e], e, s.closed, InMap(s, e), InReload(s.reload, s.life[e].id, e), Busy(s, e),
              s.agents[s.life[e].id].creating)
  }

  /** A marked temporary agent that is registered and idle is being deleted, or its last deletion was refused. */
  ghost predicate DeletionOk(s: State, id: AgentId)
    requires id in s.agents
  {
    var a := s.agents[id];
    !s.closed && id.Temp? && id in s.entries && a.deleteWhenIdle && a.busy == 0 && !a.refused
    ==> a.endChecks + a.spawns + a.attempts > 0
  }

  ghost predicate AgentOk(s: State, id: AgentId)
    requires id in s.agents
  {
    var a := s.agents[id];
    a.endChecks >= 0 && a.spawns >= 0 && a.attempts >= 0 && DeletionOk(s, id)
    && (id.Temp? && id !in s.entries ==> a.busy == 0)
    && (a.creating.Some? ==> id.Temp? && id !in s.entries && !a.deleteWhenIdle)
  }

  ghost predicate Known(s: State) {
    MapKnown(s.entries, s.life) && ReloadKnown(s.reload, s.life)
  }

  ghost predicate Inv(s: State) {
    Known(s) && (forall e :: e in s.life ==> EntryOk(s, e)) && (forall id :: id in s.agents ==> AgentOk(s, id))
  }

  // ---- One entry's facts, step by step ----

  /** busy matters only where the entry is registered or has a count of its own. */
  lemma LifeFrame(l: Life, e: Entry, closed: bool, inMap: bool, inReload: bool, busy: int, c: Option<Entry>, busy': int, c': Option<Entry>)
    requires LifeOk(l, e, closed, inMap, inReload, busy, c)
    requires inMap || l.id.Config? ==> busy' == busy
    requires c' == c || (c' == None && c != Some(e))
    ensures LifeOk(l, e, closed, inMap, inReload, busy', c')
  {
  }

  lemma RetirementKeepsLife(l: Life, e: Entry, action: Action, closed: bool, inMap: bool, inReload: bool, busy: int, c: Option<Entry>)
    requires LifeOk(l, e, closed, inMap, inReload, busy, c) && MayOwn(l, action)
    requires action.TurnEndRetireCheck? || action.MarkRetire? || action.RetireLook? || action.RetireBusy? || action.RetireSwap?
    ensures LifeOk(OwnAction(l, action, closed, busy), e, closed, inMap, inReload, busy, c)
  {
  }

  lemma OwnKeepsLife(l: Life, e: Entry, action: Action, closed: bool, inMap: bool, inReload: bool, busy: int, c: Option<Entry>)
    requires LifeOk(l, e, closed, inMap, inReload, busy, c) && MayOwn(l, action)
    ensures LifeOk(OwnAction(l, action, closed, busy), e, closed, inMap, inReload, busy, c)
  {
    if action.TurnEndRetireCheck? || action.MarkRetire? || action.RetireLook? || action.RetireBusy? || action.RetireSwap? {
      RetirementKeepsLife(l, e, action, closed, inMap, inReload, busy, c);
    }
  }

  lemma TurnMovesLife(l: Life, e: Entry, closed: bool, inMap: bool, inReload: bool, busy: int, c: Option<Entry>, d: int, b: int)
    requires LifeOk(l, e, closed, inMap, inReload, busy, c)
    requires (d == 1 && inMap) || (d == -1 && l.turns > 0)
    ensures LifeOk(l.(turns := l.turns + d, busy := b, endChecks := l.endChecks + One(d < 0 && busy + d == 0)),
                   e, closed, inMap, inReload, busy + d, c)
  {
  }

  lemma InsertKeepsLife(l: Life, e: Entry, closed: bool, inReload: bool, c: Option<Entry>, inTurn: bool)
    requires LifeOk(l, e, closed, false, inReload, 0, c) && l.built > 0
    ensures !closed ==> LifeOk(l.(built := l.built - 1, turns := l.turns + One(inTurn)), e, closed, true, inReload, One(inTurn), None)
    ensures closed ==> LifeOk(l.(built := l.built - 1, toClose := l.toClose + 1), e, closed, false, inReload, 0, c)
  {
  }

  lemma DeleteKeepsLife(l: Life, e: Entry, inReload: bool)
    requires LifeOk(l, e, false, true, inReload, 0, None) && l.id.Temp?
    ensures LifeOk(l.(toDelete := l.toDelete + 1), e, false, false, inReload, 0, None)
  {
  }

  lemma PutBackKeepsLife(l: Life, e: Entry, closed: bool, inMap: bool, inReload: bool, busy: int, c: Option<Entry>)
    requires LifeOk(l, e, closed, inMap, inReload, busy, c) && l.toPutBack > 0
    ensures LifeOk(l.(toPutBack := l.toPutBack - 1, toClose := l.toClose + 1), e, closed, inMap, inReload, busy, c)
    ensures !closed && busy == 0 ==> LifeOk(l.(toPutBack := l.toPutBack - 1), e, closed, true, inReload, busy, c)
  {
  }

  /** What the invariant says of one entry, without its definition. */
  lemma Facts(s: State, e: Entry)
    requires Inv(s) && e in s.life
    ensures EntryOk(s, e) && AgentOk(s, s.life[e].id)
    ensures var l := s.life[e];
      (l.built > 0 ==> l.id.Temp? && s.agents[l.id].creating == Some(e))
      && (l.toPutBack > 0 ==> l.id.Temp? && s.agents[l.id].creating == None)
      && (l.turns > 0 ==> InMap(s, e) || l.id.Config?)
      && (InMap(s, e) ==> Busy(s, e) == l.turns >= 0)
  {
  }

  lemma EntryKeptByOwn(s: State, a: Step, x: Entry)
    requires Inv(s) && Can(s, a) && x in Do(s, a).life && a.Own?
    ensures EntryOk(Do(s, a), x)
  {
    hide LifeOk, OwnAction, MayOwn;
    var e := a.e;
    Facts(s, e);
    OwnKeepsLife(s.life[e], e, a.action, s.closed, InMap(s, e), InReload(s.reload, s.life[e].id, e), Busy(s, e), s.agents[s.life[e].id].creating);
  }

  lemma EntryKeptByOthers(s: State, s': State, x: Entry)
    requires Inv(s) && KnownEntry(s', x) && x in s.life && s'.life[x] == s.life[x] && s'.closed == s.closed
    requires InMap(s', x) == InMap(s, x) && InReload(s'.reload, s.life[x].id, x) == InReload(s.reload, s.life[x].id, x)
    requires InMap(s, x) || s.life[x].id.Config? ==> Busy(s', x) == Busy(s, x)
    requires var c, c' := s.agents[s.life[x].id].creating, s'.agents[s.life[x].id].creating; c' == c || (c' == None && c != Some(x))
    ensures EntryOk(s', x)
  {
    hide LifeOk;
    Facts(s, x);
    var l := s.life[x];
    LifeFrame(l, x, s.closed, InMap(s, x), InReload(s.reload, l.id, x), Busy(s, x), s.agents[l.id].creating, Busy(s', x), s'.agents[l.id].creating);
  }

  lemma EntryKeptByTurns(s: State, a: Step, x: Entry)
    requires Inv(s) && Can(s, a) && x in Do(s, a).life && (a.BeginTurn? || a.EndTurn?)
    ensures EntryOk(Do(s, a), x)
  {
    hide LifeOk;
    var e, s' := a.e, Do(s, a);
    var l := s.life[x];
    Facts(s, e);
    if x == e {
      TurnMovesLife(l, x, s.closed, InMap(s, x), InReload(s.reload, l.id, x), Busy(s, x), s.agents[l.id].creating,
                    if a.BeginTurn? then 1 else -1, s'.life[x].busy);
    } else {
      EntryKeptByOthers(s, s', x);
    }
  }

  lemma EntryKeptByInsert(s: State, a: Step, x: Entry)
    requires Inv(s) && Can(s, a) && x in Do(s, a).life && a.Insert?
    ensures EntryOk(Do(s, a), x)
  {
    hide LifeOk;
    var e, s' := a.e, Do(s, a);
    var l := s.life[x];
    Facts(s, e);
    if x == e {
      InsertKeepsLife(l, x, s.closed, InReload(s.reload, l.id, x), s.agents[l.id].creating, a.inTurn);
    } else {
      EntryKeptByOthers(s, s', x);
    }
  }

  lemma EntryKeptByDelete(s: State, a: Step, x: Entry)
    requires Inv(s) && Can(s, a) && x in Do(s, a).life && a.DeleteAttempt?
    ensures EntryOk(Do(s, a), x)
  {
    hide LifeOk;
    var s' := Do(s, a);
    var l := s.life[x];
    Facts(s, x);
    if At(s.entries, a.id, x) && s'.entries != s.entries {
      DeleteKeepsLife(l, x, InReload(s.reload, l.id, x));
    } else {
      EntryKeptByOthers(s, s', x);
    }
  }

  lemma EntryKeptByPutBack(s: State, a: Step, x: Entry)
    requires Inv(s) && Can(s, a) && x in Do(s, a).life && a.PutBack?
    ensures EntryOk(Do(s, a), x)
  {
    hide LifeOk;
    var s', e := Do(s, a), a.e;
    var l := s.life[x];
    Facts(s, e);
    if x == e {
      PutBackKeepsLife(l, x, s.closed, InMap(s, x), InReload(s.reload, l.id, x), Busy(s, x), s.agents[l.id].creating);
    } else {
      EntryKeptByOthers(s, s', x);
    }
  }

  lemma SweepKeepsLife(l: Life, e: Entry, closed: bool, inMap: bool, inReload: bool, busy: int, c: Option<Entry>)
    requires LifeOk(l, e, closed, inMap, inReload, busy, c)
    ensures LifeOk(TakenFromOrphans(l), e, closed, inMap, inReload, busy, c)
  {
  }

  lemma CloseKeepsLife(l: Life, e: Entry, inMap: bool, inReload: bool, busy: int, c: Option<Entry>)
    requires LifeOk(l, e, false, inMap, inReload, busy, c)
    ensures LifeOk(TakenByClose(l, inMap), e, true, inMap, inReload, busy, c)
  {
  }

  lemma AbandonKeepsLife(l: Life, e: Entry, closed: bool, inMap: bool, inReload: bool, busy: int, c: Option<Entry>)
    requires LifeOk(l, e, closed, inMap, inReload, busy, c)
    ensures LifeOk(Abandoned(l, inReload), e, closed, inMap, false, busy, c)
  {
  }

  lemma EntryKeptByBulk(s: State, a: Step, x: Entry)
    requires Inv(s) && Can(s, a) && x in Do(s, a).life && (a.RetryOrphans? || a.CloseRegistry? || a.ReloadAbandon?)
    ensures EntryOk(Do(s, a), x)
  {
    hide LifeOk;
    var l := s.life[x];
    Facts(s, x);
    var inMap, inReload, busy, c := InMap(s, x), InReload(s.reload, l.id, x), Busy(s, x), s.agents[l.id].creating;
    SweepKeepsLife(l, x, s.closed, inMap, inReload, busy, c);
    AbandonKeepsLife(l, x, s.closed, inMap, inReload, busy, c);
    if !s.closed { CloseKeepsLife(l, x, inMap, inReload, busy, c); }
  }

  /** What a commit does with one entry, wherever it finds it. */
  lemma CommitKeepsLife(l: Life, e: Entry, inMap: bool, inReload: bool, busy: int, c: Option<Entry>)
    requires LifeOk(l, e, false, inMap, inReload, busy, c)
    ensures inMap && l.id.Config? ==>
      LifeOk(l.(replaced := true, toMark := l.toMark + 1), e, false, false, inReload, busy, c)
    ensures inMap && busy == 0 ==> LifeOk(l.(toRetire := l.toRetire + 1), e, false, false, inReload, busy, c)
    ensures inMap && busy == 0 && l.id.Temp? && c == None ==>
      LifeOk(l.(toDelete := l.toDelete + 1), e, false, false, inReload, busy, c)
    ensures inReload && (l.id.Temp? ==> busy == 0) ==> LifeOk(l, e, false, true, false, busy, c)
    ensures inReload ==> LifeOk(l.(toClose := l.toClose + 1), e, false, inMap, false, busy, c)
    ensures !(inMap && inReload)
  {
  }

  lemma CommittedAt(s: State, x: Entry)
    requires Inv(s) && s.reload.Reloading? && !s.closed && x in s.life
    ensures var id := s.life[x].id;
      InMap(CommitState(s), x) <==>
        (At(s.reload.config, id, x) || (At(s.reload.rebuilt, id, x) && Takes(s, id))
         || (InMap(s, x) && id.Temp? && !Takes(s, id) && !Drops(s, id)))
  {
  }

  lemma EntryKeptByCommit(s: State, x: Entry)
    requires Inv(s) && s.reload.Reloading? && !s.closed && x in s.life
    ensures EntryOk(CommitState(s), x)
  {
    hide LifeOk;
    var l, s' := s.life[x], CommitState(s);
    Facts(s, x);
    CommittedAt(s, x);
    if l.id in s.entries { Facts(s, s.entries[l.id]); }
    CommitKeepsLife(l, x, InMap(s, x), InReload(s.reload, l.id, x), Busy(s, x), s.agents[l.id].creating);
  }

  lemma EntryKept(s: State, a: Step, x: Entry)
    requires Inv(s) && Can(s, a) && x in Do(s, a).life
    ensures EntryOk(Do(s, a), x)
  {
    if a.ReloadCommit? { CommitIsCommitState(s); }
    hide Inv, Do, EntryOk;
    if x !in s.life {
      NewEntryOk(s, a, x);
      return;
    }
    match a
    case Own(_, _) => EntryKeptByOwn(s, a, x);
    case BeginTurn(_) => EntryKeptByTurns(s, a, x);
    case EndTurn(_) => EntryKeptByTurns(s, a, x);
    case Insert(_, _) => EntryKeptByInsert(s, a, x);
    case DeleteAttempt(_) => EntryKeptByDelete(s, a, x);
    case PutBack(_) => EntryKeptByPutBack(s, a, x);
    case RetryOrphans => EntryKeptByBulk(s, a, x);
    case CloseRegistry => EntryKeptByBulk(s, a, x);
    case ReloadAbandon => EntryKeptByBulk(s, a, x);
    case ReloadCommit => EntryKeptByCommit(s, x);
    case Create(_, _) => EntryKeptByBuild(s, a, x);
    case ReloadBuildConfig(_, _) => EntryKeptByBuild(s, a, x);
    case ReloadBuildTemp(_, _) => EntryKeptByBuild(s, a, x);
    case _ => EntryKeptByRest(s, a, x);
  }

  lemma EntryKeptByRest(s: State, a: Step, x: Entry)
    requires Inv(s) && Can(s, a) && x in Do(s, a).life
    requires a.DeleteWhenIdle? || a.RequestDelete? || a.TurnEndCheck? || a.SpawnDelete? || a.ReloadStart? || a.ReloadDoom?
    ensures EntryOk(Do(s, a), x)
  {
    hide LifeOk;
    Facts(s, x);
    EntryKeptByOthers(s, Do(s, a), x);
  }

  lemma NewbornOk(id: AgentId, e: Entry, closed: bool, busy: int, c: Option<Entry>)
    ensures id.Config? ==> LifeOk(Newborn(id), e, closed, false, true, 0, c)
    ensures id.Temp? ==> LifeOk(Newborn(id), e, closed, false, true, busy, c)
    ensures id.Temp? ==> LifeOk(Newborn(id).(built := 1), e, closed, false, false, 0, Some(e))
  {
  }

  lemma EntryKeptByBuild(s: State, a: Step, x: Entry)
    requires Inv(s) && Can(s, a) && x in s.life
    requires a.Create? || a.ReloadBuildConfig? || a.ReloadBuildTemp?
    ensures EntryOk(Do(s, a), x)
  {
    hide LifeOk;
    Facts(s, x);
    EntryKeptByOthers(s, Do(s, a), x);
  }

  lemma CreatedOk(s: State, a: Step)
    requires Inv(s) && Can(s, a) && a.Create?
    ensures EntryOk(Do(s, a), a.e)
  {
    assert Known(s);
    hide LifeOk, Inv;
    NewbornOk(a.id, a.e, s.closed, 0, Some(a.e));
  }

  lemma RebuiltOk(s: State, a: Step)
    requires Inv(s) && Can(s, a) && (a.ReloadBuildConfig? || a.ReloadBuildTemp?)
    ensures EntryOk(Do(s, a), a.e)
  {
    assert Known(s);
    hide LifeOk, Inv;
    NewbornOk(a.id, a.e, s.closed, Busy(Do(s, a), a.e), Do(s, a).agents[a.id].creating);
  }

  lemma NewEntryOk(s: State, a: Step, x: Entry)
    requires Inv(s) && Can(s, a) && x in Do(s, a).life && x !in s.life
    ensures EntryOk(Do(s, a), x)
  {
    OnlyBuildsAdd(s, a, x);
    hide Inv, Do, EntryOk;
    if a.Create? { CreatedOk(s, a); } else { RebuiltOk(s, a); }
  }

  lemma OnlyBuildsAdd(s: State, a: Step, x: Entry)
    requires Can(s, a) && x in Do(s, a).life && x !in s.life
    ensures (a.Create? || a.ReloadBuildConfig? || a.ReloadBuildTemp?) && a.e == x
  {
    hide MayOwn, OwnAction;
  }

  // ---- One agent's facts, and the maps ----

  /** A registered temporary agent's turn count is never negative. */
  lemma BusyIsCount(s: State, id: AgentId)
    requires Inv(s)
    ensures id in s.entries ==> id in s.agents && s.agents[id].creating == None && (id.Temp? ==> s.agents[id].busy >= 0)
  {
    if id in s.entries { Facts(s, s.entries[id]); }
  }

  lemma AgentKeptByTurns(s: State, a: Step, id: AgentId)
    requires Inv(s) && Can(s, a) && id in Do(s, a).agents
    requires a.BeginTurn? || a.EndTurn?
    ensures AgentOk(Do(s, a), id)
  {
    hide LifeOk;
    BusyIsCount(s, id);
    Facts(s, a.e);
  }

  lemma AgentKeptByMoves(s: State, a: Step, id: AgentId)
    requires Inv(s) && Can(s, a) && id in Do(s, a).agents
    requires a.Insert? || a.DeleteAttempt? || a.PutBack?
    ensures AgentOk(Do(s, a), id)
  {
    hide LifeOk;
    BusyIsCount(s, id);
    if !a.DeleteAttempt? { Facts(s, a.e); }
  }

  lemma AgentKept(s: State, a: Step, id: AgentId)
    requires Inv(s) && Can(s, a) && id in Do(s, a).agents
    ensures AgentOk(Do(s, a), id)
  {
    hide LifeOk;
    if a.BeginTurn? || a.EndTurn? {
      AgentKeptByTurns(s, a, id);
    } else if a.Insert? || a.DeleteAttempt? || a.PutBack? {
      AgentKeptByMoves(s, a, id);
    } else {
      BusyIsCount(s, id);
      assert id in s.agents ==> AgentOk(s, id);
    }
  }

  /** Entries keep their ids, and the maps lose entries or gain known ones at most. */
  ghost predicate SameIds(life: map<Entry, Life>, life': map<Entry, Life>) {
    life.Keys <= life'.Keys && forall e :: e in life ==> life'[e].id == life[e].id
  }

  lemma MapKnownStays(m: map<AgentId, Entry>, life: map<Entry, Life>, life': map<Entry, Life>)
    requires MapKnown(m, life) && SameIds(life, life')
    ensures MapKnown(m, life')
  {
    forall id | id in m ensures m[id] in life' && life'[m[id]].id == id {
      var e: Entry := m[id];
      assert e in life && life'[e].id == life[e].id;
    }
  }

  lemma KnownStays(s: State, s': State)
    requires Known(s) && SameIds(s.life, s'.life) && (s'.reload == s.reload || s'.reload.NoReload?) && s'.entries == s.entries
    ensures Known(s')
  {
    MapKnownStays(s.entries, s.life, s'.life);
    if s.reload.Reloading? {
      MapKnownStays(s.reload.config, s.life, s'.life);
      MapKnownStays(s.reload.rebuilt, s.life, s'.life);
    }
    hide MapKnown, SameIds;
  }

  lemma KnownWithOneMore(s: State, id: AgentId, e: Entry)
    requires Known(s) && e in s.life && s.life[e].id == id
    ensures Known(s.(entries := s.entries[id := e]))
  {
  }

  lemma KnownKeptByTurns(s: State, a: Step)
    requires Inv(s) && Can(s, a) && (a.BeginTurn? || a.EndTurn? || a.DeleteAttempt? || a.Create?)
    ensures Known(Do(s, a))
  {
    hide EntryOk, AgentOk;
  }

  lemma KnownKeptByInsert(s: State, a: Step)
    requires Inv(s) && Can(s, a) && a.Insert?
    ensures Known(Do(s, a))
  {
    var s', id := Do(s, a), s.life[a.e].id;
    KnownWithOneMore(s, id, a.e);
    assert SameIds(s.life, s'.life) && s'.reload == s.reload;
    hide Inv, Known, SameIds;
    if s'.entries == s.entries { KnownStays(s, s'); } else { KnownStays(s.(entries := s.entries[id := a.e]), s'); }
  }

  lemma KnownKeptByPutBack(s: State, a: Step)
    requires Inv(s) && Can(s, a) && (a.PutBack?)
    ensures Known(Do(s, a))
  {
    hide EntryOk, AgentOk;
  }

  lemma MapKnownGrows(m: map<AgentId, Entry>, life: map<Entry, Life>, e: Entry, l: Life)
    requires MapKnown(m, life) && e !in life
    ensures MapKnown(m, life[e := l]) && MapKnown(m[l.id := e], life[e := l])
  {
  }

  lemma KnownKeptByBuild(s: State, a: Step)
    requires Inv(s) && Can(s, a) && (a.ReloadBuildConfig? || a.ReloadBuildTemp?)
    ensures Known(Do(s, a))
  {
    var m := if a.ReloadBuildConfig? then s.reload.config else s.reload.rebuilt;
    MapKnownGrows(m, s.life, a.e, Newborn(a.id));
    MapKnownGrows(if a.ReloadBuildConfig? then s.reload.rebuilt else s.reload.config, s.life, a.e, Newborn(a.id));
    MapKnownGrows(s.entries, s.life, a.e, Newborn(a.id));
    hide EntryOk, AgentOk, MapKnown;
  }

  lemma KnownKeptByRest(s: State, a: Step)
    requires Inv(s) && Can(s, a)
    requires a.DeleteWhenIdle? || a.RequestDelete? || a.TurnEndCheck? || a.SpawnDelete? || a.ReloadStart? || a.ReloadDoom?
    ensures Known(Do(s, a))
  {
    hide EntryOk, AgentOk;
  }

  lemma KnownKeptByBulk(s: State, a: Step)
    requires Inv(s) && Can(s, a) && (a.Own? || a.RetryOrphans? || a.CloseRegistry? || a.ReloadAbandon?)
    ensures Known(Do(s, a))
  {
    var s' := Do(s, a);
    assert Known(s);
    hide Inv, Known, MayOwn, OwnAction;
    assert SameIds(s.life, s'.life);
    hide SameIds;
    KnownStays(s, s');
  }

  lemma KnownKeptByCommit(s: State)
    requires Inv(s) && s.reload.Reloading?
    ensures Known(CommitState(s))
  {
    hide EntryOk, AgentOk;
  }

  /** No step breaks the invariant. */
  lemma StepKeepsInv(s: State, a: Step)
    requires Inv(s) && Can(s, a)
    ensures Inv(Do(s, a))
  {
    hide EntryOk, AgentOk, Known, Do, Can;
    assert Known(Do(s, a)) by {
      match a
      case BeginTurn(_) => KnownKeptByTurns(s, a);
      case EndTurn(_) => KnownKeptByTurns(s, a);
      case DeleteAttempt(_) => KnownKeptByTurns(s, a);
      case Create(_, _) => KnownKeptByTurns(s, a);
      case Insert(_, _) => KnownKeptByInsert(s, a);
      case PutBack(_) => KnownKeptByPutBack(s, a);
      case ReloadBuildConfig(_, _) => KnownKeptByBuild(s, a);
      case ReloadBuildTemp(_, _) => KnownKeptByBuild(s, a);
      case ReloadCommit => CommitIsCommitState(s); KnownKeptByCommit(s);
      case Own(_, _) => KnownKeptByBulk(s, a);
      case RetryOrphans => KnownKeptByBulk(s, a);
      case CloseRegistry => KnownKeptByBulk(s, a);
      case ReloadAbandon => KnownKeptByBulk(s, a);
      case _ => KnownKeptByRest(s, a);
    }
    forall x | x in Do(s, a).life ensures EntryOk(Do(s, a), x) { EntryKept(s, a, x); }
    forall id | id in Do(s, a).agents ensures AgentOk(Do(s, a), id) { AgentKept(s, a, id); }
  }

  lemma CommitIsCommitState(s: State)
    requires Can(s, ReloadCommit)
    ensures s.reload.Reloading? && Do(s, ReloadCommit) == CommitState(s)
  {
  }

  // ---- What the steps decide ----

  /**
   * A reload's commit, on the maps: a config agent is registered exactly if
   * the new configuration has it; a temporary one stays as it is in a turn,
   * else takes its rebuilt instance, else leaves if the configuration can no
   * longer build it, else stays as it is.
   */
  ghost predicate Settles(was: map<AgentId, Entry>, config: map<AgentId, Entry>, rebuilt: map<AgentId, Entry>,
                          doomed: set<AgentId>, busy: map<AgentId, int>, now: map<AgentId, Entry>)
    requires was.Keys <= busy.Keys
  {
    forall id: AgentId ::
      if id.Config? then (id in now <==> id in config) && (id in now ==> now[id] == config[id])
      else if id !in was then id !in now
      else if busy[id] > 0 then At(now, id, was[id])
      else if id in rebuilt then At(now, id, rebuilt[id])
      else if id in doomed then id !in now
      else At(now, id, was[id])
  }

  ghost function Counts(s: State): map<AgentId, int> { map id | id in s.agents :: s.agents[id].busy }

  lemma EveryIdIsKnown(s: State)
    requires Inv(s)
    ensures s.entries.Keys <= s.agents.Keys
  {
    hide LifeOk;
    forall id | id in s.entries ensures id in s.agents { Facts(s, s.entries[id]); }
  }

  lemma CommitSettles(s: State)
    requires Inv(s) && Can(s, ReloadCommit)
    ensures s.entries.Keys <= Counts(s).Keys
    ensures Settles(s.entries, s.reload.config, s.reload.rebuilt, s.reload.doomed, Counts(s), Do(s, ReloadCommit).entries)
  {
    EveryIdIsKnown(s);
    assert ReloadKnown(s.reload, s.life);
    hide EntryOk, AgentOk, MapKnown, CommittedLife;
  }

  /** What the commit has its caller do with an instance: mark a replaced one, release one that was rebuilt or dropped, close a rebuilt one nobody took. */
  lemma CommitLeaves(s: State, e: Entry)
    requires Inv(s) && Can(s, ReloadCommit) && e in s.life
    ensures var l, r := s.life[e], s.reload;
      e in Do(s, ReloadCommit).life && Do(s, ReloadCommit).life[e] ==
        if InMap(s, e) && l.id.Config? then l.(replaced := true, toMark := l.toMark + 1)
        else if InMap(s, e) && AgentBusy(s, l.id) > 0 then l
        else if InMap(s, e) && l.id in r.rebuilt then l.(toRetire := l.toRetire + 1)
        else if InMap(s, e) && l.id in r.doomed then l.(toDelete := l.toDelete + 1)
        else if At(r.rebuilt, l.id, e) && (l.id !in s.entries || AgentBusy(s, l.id) > 0) then l.(toClose := l.toClose + 1)
        else l
  {
    Facts(s, e);
    if s.life[e].id in s.entries { Facts(s, s.entries[s.life[e].id]); }
    assert Known(s) && EntryOk(s, e);
    hide Inv, AgentOk, CommittedEntries;
  }

  /** A created agent is registered, in its first turn if the caller wants one, unless the registry has closed. */
  lemma InsertRegisters(s: State, e: Entry, inTurn: bool)
    requires Inv(s) && Can(s, Insert(e, inTurn))
    ensures var id, s' := s.life[e].id, Do(s, Insert(e, inTurn));
      if s.closed then s'.entries == s.entries && s'.life[e].toClose == s.life[e].toClose + 1
      else s'.entries == s.entries[id := e] && s'.life[e].toClose == s.life[e].toClose
           && s'.life[e].turns == One(inTurn) && AgentBusy(s', id) == One(inTurn)
  {
    Facts(s, e);
    hide Inv, AgentOk, MapKnown;
  }

  /** Why an instance may be closed: the host released it, nobody ever used it, or the registry has no place for it any more. */
  ghost predicate MayClose(s: State, a: Step, e: Entry)
    requires e in s.life
  {
    a == Own(e, DeleteHook(true)) || a == Own(e, RetireHook(true))
    || ((a.Insert? || a.PutBack?) && a.e == e && (s.closed || (a.PutBack? && s.life[e].id in s.entries)))
    || (a == Own(e, KeepOrphan) && s.closed)
    || ((a.ReloadAbandon? || a.ReloadCommit?) && InReload(s.reload, s.life[e].id, e))
  }

  ghost predicate MoreToClose(s: State, s': State, e: Entry) { e in s.life && e in s'.life && s'.life[e].toClose > s.life[e].toClose }

  lemma OwnCloses(s: State, a: Step, e: Entry)
    requires Can(s, a) && a.Own? && MoreToClose(s, Do(s, a), e)
    ensures MayClose(s, a, e)
  {
  }

  lemma BulkCloses(s: State, a: Step, e: Entry)
    requires Can(s, a) && (a.RetryOrphans? || a.CloseRegistry? || a.ReloadAbandon? || a.ReloadCommit?) && MoreToClose(s, Do(s, a), e)
    ensures MayClose(s, a, e)
  {
    hide MayOwn, OwnAction, CommittedEntries;
  }

  lemma OthersClose(s: State, a: Step, e: Entry)
    requires Can(s, a) && !a.Own? && !(a.RetryOrphans? || a.CloseRegistry? || a.ReloadAbandon? || a.ReloadCommit?) && MoreToClose(s, Do(s, a), e)
    ensures MayClose(s, a, e)
  {
    hide MayOwn, OwnAction, CommitState;
  }

  /** An instance is on its way to be closed for one of those reasons only; a refused one never is. */
  lemma ClosedForAReason(s: State, a: Step, e: Entry)
    requires Can(s, a) && MoreToClose(s, Do(s, a), e)
    ensures MayClose(s, a, e)
  {
    if a.Own? {
      OwnCloses(s, a, e);
    } else if a.RetryOrphans? || a.CloseRegistry? || a.ReloadAbandon? || a.ReloadCommit? {
      BulkCloses(s, a, e);
    } else {
      OthersClose(s, a, e);
    }
  }

  /** Registered, and nobody is deleting it or has asked to. */
  ghost predicate Unasked(s: State, id: AgentId) {
    !s.closed && id.Temp? && id in s.entries && id in s.agents
    && !s.agents[id].deleteWhenIdle && s.agents[id].attempts <= 0 && s.agents[id].spawns <= 0
  }

  /** The step asks for the agent's deletion, finds that it can no longer be built, or closes the registry. */
  ghost predicate Asks(s: State, a: Step, id: AgentId) {
    a == RequestDelete(id) || a == DeleteWhenIdle(id) || a == CloseRegistry
    || (a == ReloadCommit && s.reload.Reloading? && id in s.reload.doomed && id !in s.reload.rebuilt)
  }

  lemma CommitKeepsUnasked(s: State, id: AgentId)
    requires Inv(s) && Can(s, ReloadCommit) && Unasked(s, id) && !Asks(s, ReloadCommit, id)
    ensures Unasked(Do(s, ReloadCommit), id)
  {
    CommitSettles(s);
    CommitIsCommitState(s);
    hide Inv, CommittedEntries, CommittedLife, Can, Do;
  }

  lemma OwnKeepsUnasked(s: State, a: Step, id: AgentId)
    requires Can(s, a) && Unasked(s, id) && (a.Own? || a.BeginTurn? || a.EndTurn? || a.RetryOrphans? || a.ReloadAbandon?)
    ensures Unasked(Do(s, a), id)
  {
    hide MayOwn, OwnAction;
  }

  lemma RestKeepsUnasked(s: State, a: Step, id: AgentId)
    requires Inv(s) && Can(s, a) && Unasked(s, id) && !Asks(s, a, id) && !a.ReloadCommit?
    requires !(a.Own? || a.BeginTurn? || a.EndTurn? || a.RetryOrphans? || a.ReloadAbandon?)
    ensures Unasked(Do(s, a), id)
  {
    if a.Insert? || a.PutBack? { Facts(s, a.e); }
    hide EntryOk, AgentOk, MapKnown, ReloadKnown;
  }

  lemma DeleteTakesOut(s: State, id: AgentId) returns (t: State)
    requires Inv(s) && !s.closed && id.Temp? && id in s.entries && AgentBusy(s, id) <= 0
    ensures id in s.agents && s.entries[id] in s.life && Can(s, RequestDelete(id)) && Can(Do(s, RequestDelete(id)), DeleteAttempt(id))
    ensures t == Do(Do(s, RequestDelete(id)), DeleteAttempt(id))
    ensures var e := s.entries[id];
      KnownEntry(t, e) && t.entries == s.entries - {id} && t.life[e] == s.life[e].(toDelete := s.life[e].toDelete + 1)
  {
    EveryIdIsKnown(s);
    Facts(s, s.entries[id]);
    assert AgentOk(s, id);
    hide EntryOk, Known;
    t := Do(Do(s, RequestDelete(id)), DeleteAttempt(id));
  }

  /** Delete, undisturbed, takes an idle temporary agent out and closes it once the host has released it. */
  lemma DeleteCloses(s: State, id: AgentId) returns (t: State)
    requires Inv(s) && !s.closed && id.Temp? && id in s.entries && AgentBusy(s, id) <= 0
    ensures s.entries[id] in s.life
    ensures var e := s.entries[id];
      Can(t, Own(e, DeleteHook(true))) && Can(Do(t, Own(e, DeleteHook(true))), Own(e, CloseInstance))
      && var closed := Do(Do(t, Own(e, DeleteHook(true))), Own(e, CloseInstance));
         id !in closed.entries && e in closed.life && closed.life[e].closes == s.life[e].closes + 1
  {
    t := DeleteTakesOut(s, id);
    Facts(s, s.entries[id]);
    hide Inv, AgentOk, MapKnown;
  }

  /** A temporary agent whose deletion was refused is registered again, */
  lemma RefusedGoesBack(s: State, e: Entry)
    requires Can(s, Own(e, DeleteHook(false))) && !s.closed && s.life[e].id !in s.entries && s.life[e].toPutBack >= 0
    ensures var refused := Do(s, Own(e, DeleteHook(false)));
      Can(refused, PutBack(e)) && Do(refused, PutBack(e)).entries == s.entries[s.life[e].id := e]
  {
  }

  /** one that was released is closed, */
  lemma ReleasedIsClosed(s: State, e: Entry)
    requires Inv(s) && Can(s, Own(e, RetireHook(true)))
    ensures var released := Do(s, Own(e, RetireHook(true)));
      Can(released, Own(e, CloseInstance)) && Do(released, Own(e, CloseInstance)).life[e].closes == s.life[e].closes + 1
  {
    Facts(s, e);
    hide Inv, AgentOk;
  }

  /** and an instance that could not be released is an orphan, which the next sweep tries again. */
  lemma RefusedIsKept(s: State, e: Entry)
    requires Can(s, Own(e, RetireHook(false))) && !s.closed && s.life[e].toKeep >= 0 && s.life[e].orphaned >= 0
    ensures var refused := Do(s, Own(e, RetireHook(false)));
      Can(refused, Own(e, KeepOrphan))
      && var kept := Do(refused, Own(e, KeepOrphan));
         kept.life[e].orphaned == s.life[e].orphaned + 1 && Can(Do(kept, RetryOrphans), Own(e, RetireHook(true)))
  {
  }

  // ---- Whole runs ----

  ghost predicate Follows(s: State, s': State) { exists a :: Can(s, a) && s' == Do(s, a) }

  /** A finite run from an empty registry, one step at a time by anyone. */
  ghost predicate IsRun(run: seq<State>) {
    |run| > 0 && run[0] == Initial && forall i :: 0 <= i < |run| - 1 ==> Follows(run[i], run[i + 1])
  }

  lemma {:induction false} RunKeepsInv(run: seq<State>, i: nat)
    requires IsRun(run) && i < |run|
    ensures Inv(run[i])
  {
    if i > 0 {
      RunKeepsInv(run, i - 1);
      assert Follows(run[i - 1], run[i]);
      var a :| Can(run[i - 1], a) && run[i] == Do(run[i - 1], a);
      StepKeepsInv(run[i - 1], a);
    }
  }

  /**
   * Conservation: at every moment every instance ever built is in exactly one
   * place - the map (until Close), the orphan list, a reload's hands, waiting
   * replaced for its last turn, one caller's hands, or closed - and it has
   * been closed at most once.
   */
  lemma InstancesAreConserved(run: seq<State>, i: nat, e: Entry)
    requires IsRun(run) && i < |run| && e in run[i].life
    ensures var s, l := run[i], run[i].life[e];
      Places(l, s.closed, InMap(s, e), InReload(s.reload, l.id, e)) == 1 && Nonnegative(l) && l.closes <= 1
  {
    RunKeepsInv(run, i);
    assert EntryOk(run[i], e);
  }

  /** Nobody but Close closes an instance a turn runs on, and on an instance closed otherwise none runs or starts. */
  lemma NeverClosedInATurn(run: seq<State>, i: nat, e: Entry)
    requires IsRun(run) && i < |run| && e in run[i].life
    ensures Can(run[i], Own(e, CloseInstance)) ==> run[i].life[e].turns == 0
    ensures run[i].life[e].closes > 0 && !(run[i].closed && InMap(run[i], e)) ==>
      run[i].life[e].turns == 0 && !Can(run[i], BeginTurn(e))
  {
    RunKeepsInv(run, i);
    assert EntryOk(run[i], e);
  }

  /** Nothing is going on: no turn, no reload, and no goroutine about to do anything. */
  ghost predicate Quiet(s: State) {
    s.reload.NoReload?
    && (forall e :: e in s.life ==>
      var l := s.life[e]; l.turns + l.endChecks + l.toMark + l.looks + l.busyReads + l.swaps + Hands(l) == 0)
    && forall id :: id in s.agents ==> s.agents[id].endChecks + s.agents[id].spawns + s.agents[id].attempts == 0
  }

  /** After Close, once turns and calls in flight have ended, every instance ever built has been closed, once. */
  lemma AllClosedAfterClose(run: seq<State>, i: nat, e: Entry)
    requires IsRun(run) && i < |run| && e in run[i].life && run[i].closed && Quiet(run[i])
    ensures run[i].life[e].closes == 1
  {
    RunKeepsInv(run, i);
    assert EntryOk(run[i], e);
  }

  /**
   * No lost deletion: an agent marked deleteWhenIdle, registered and idle in
   * an open registry has a deletion on its way, unless the retire hook
   * refused the last one.
   */
  lemma NoLostDeletion(run: seq<State>, i: nat, id: AgentId)
    requires IsRun(run) && i < |run|
    requires !run[i].closed && id.Temp? && id in run[i].entries && id in run[i].agents
    requires run[i].agents[id].deleteWhenIdle && run[i].agents[id].busy == 0 && !run[i].agents[id].refused
    ensures run[i].agents[id].endChecks + run[i].agents[id].spawns + run[i].agents[id].attempts > 0
  {
    RunKeepsInv(run, i);
    assert AgentOk(run[i], id);
  }

  /**
   * No lost retirement: a replaced config instance nobody has undertaken to
   * close still has a turn on it, or somebody about to look whether it can be.
   */
  lemma NoLostRetirement(run: seq<State>, i: nat, e: Entry)
    requires IsRun(run) && i < |run| && e in run[i].life && Waiting(run[i].life[e])
    ensures !Quiet(run[i])
    ensures var l := run[i].life[e]; l.toMark + l.turns + l.endChecks + l.looks + l.busyReads + l.swaps > 0
  {
    RunKeepsInv(run, i);
    assert EntryOk(run[i], e);
  }

  // ---- Nobody asked ----

  ghost predicate Unprompted(s: State, s': State, id: AgentId) {
    forall a :: Can(s, a) && s' == Do(s, a) ==> !Asks(s, a, id)
  }

  lemma UnaskedStep(s: State, a: Step, id: AgentId)
    requires Inv(s) && Can(s, a) && Unasked(s, id) && !Asks(s, a, id)
    ensures Unasked(Do(s, a), id)
  {
    hide Inv, Can, Do, Unasked, Asks;
    if a.ReloadCommit? {
      CommitKeepsUnasked(s, id);
    } else if a.Own? || a.BeginTurn? || a.EndTurn? || a.RetryOrphans? || a.ReloadAbandon? {
      OwnKeepsUnasked(s, a, id);
    } else {
      RestKeepsUnasked(s, a, id);
    }
  }

  /** An agent stays registered as long as nobody asks for its deletion: whatever its turns do, and whatever is reloaded. */
  lemma {:induction false} StaysRegistered(run: seq<State>, i: nat, j: nat, id: AgentId)
    requires IsRun(run) && i <= j < |run| && Unasked(run[i], id)
    requires forall k :: i <= k < j ==> Unprompted(run[k], run[k + 1], id)
    ensures Unasked(run[j], id)
  {
    hide Inv, Can, Do, Unasked, Asks;
    if i < j {
      StaysRegistered(run, i, j - 1, id);
      RunKeepsInv(run, j - 1);
      assert Follows(run[j - 1], run[j]);
      var a :| Can(run[j - 1], a) && run[j] == Do(run[j - 1], a);
      assert Unprompted(run[j - 1], run[j - 1 + 1], id);
      UnaskedStep(run[j - 1], a, id);
    }
  }

  // ---- Handing a replaced instance over to be closed ----

  /** The step's compare-and-swap succeeds: its goroutine goes on to close e, in closeReplaced. */
  ghost predicate HandsOver(s: State, s': State, e: Entry) {
    Can(s, Own(e, RetireSwap)) && s' == Do(s, Own(e, RetireSwap)) && s'.life[e].toRetire == s.life[e].toRetire + 1
  }

  /** How often e was handed over in the first n steps. */
  ghost function Handovers(run: seq<State>, n: nat, e: Entry): nat
    requires n < |run|
  {
    if n == 0 then 0 else Handovers(run, n - 1, e) + if HandsOver(run[n - 1], run[n], e) then 1 else 0
  }

  ghost predicate Retiring(s: State, e: Entry) { e in s.life && s.life[e].retiring }

  /** Only that step sets retiring, and nothing clears it. */
  lemma OwnRetires(s: State, a: Step, e: Entry)
    requires Can(s, a) && a.Own?
    ensures Retiring(Do(s, a), e) <==> Retiring(s, e) || (a.e == e && a.action.RetireSwap?)
  {
  }

  lemma BulkRetires(s: State, a: Step, e: Entry)
    requires Can(s, a) && (a.RetryOrphans? || a.CloseRegistry? || a.ReloadAbandon? || a.ReloadCommit?)
    ensures Retiring(Do(s, a), e) <==> Retiring(s, e)
  {
    hide MayOwn, OwnAction, CommittedEntries;
  }

  lemma OthersRetire(s: State, a: Step, e: Entry)
    requires Can(s, a) && !a.Own? && !(a.RetryOrphans? || a.CloseRegistry? || a.ReloadAbandon? || a.ReloadCommit?)
    ensures Retiring(Do(s, a), e) <==> Retiring(s, e)
  {
    hide MayOwn, OwnAction, CommitState;
  }

  lemma HandingOverRetires(s: State, s': State, e: Entry)
    requires Follows(s, s')
    ensures Retiring(s', e) <==> Retiring(s, e) || HandsOver(s, s', e)
    ensures HandsOver(s, s', e) ==> !Retiring(s, e)
  {
    var a :| Can(s, a) && s' == Do(s, a);
    if a.Own? {
      OwnRetires(s, a, e);
    } else if a.RetryOrphans? || a.CloseRegistry? || a.ReloadAbandon? || a.ReloadCommit? {
      BulkRetires(s, a, e);
    } else {
      OthersRetire(s, a, e);
    }
    hide Do, Can, Retiring;
    if Can(s, Own(e, RetireSwap)) { SwapHandsOver(s, e); }
  }

  lemma SwapHandsOver(s: State, e: Entry)
    requires Can(s, Own(e, RetireSwap))
    ensures var s' := Do(s, Own(e, RetireSwap));
      Retiring(s', e) && (!Retiring(s, e) <==> s'.life[e].toRetire == s.life[e].toRetire + 1)
  {
  }

  lemma {:induction false} HandoversAreRetirings(run: seq<State>, i: nat, e: Entry)
    requires IsRun(run) && i < |run|
    ensures Handovers(run, i, e) == if Retiring(run[i], e) then 1 else 0
  {
    if i > 0 {
      HandoversAreRetirings(run, i - 1, e);
      assert Follows(run[i - 1], run[i]);
      HandingOverRetires(run[i - 1], run[i], e);
      hide HandsOver, Retiring, Follows;
    }
  }

  /** A replaced config instance is handed to closeReplaced once at most, and exactly once by the time nothing is going on any more. */
  lemma ReplacedIsHandedOverOnce(run: seq<State>, i: nat, e: Entry)
    requires IsRun(run) && i < |run| && e in run[i].life && run[i].life[e].replaced
    ensures Handovers(run, i, e) <= 1 && (Quiet(run[i]) ==> Handovers(run, i, e) == 1)
  {
    HandoversAreRetirings(run, i, e);
    if !run[i].life[e].retiring { NoLostRetirement(run, i, e); }
    hide Handovers, IsRun;
  }
}
