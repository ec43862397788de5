/**
 * The registry's own fields and the sections it runs under its lock, each
 * shown to take the step of module Registry it stands for.
 */
module RegistryTable {
  import opened Common
  import opened Registry

  /** What a reload's commit does with one entry of the map. */
  datatype Fate = ReplaceConfig | Replace | Drop | Keep

  /** What DeleteWhenIdle answers before it tries to delete: ErrClosed, ErrNotFound, ErrNotTemp, or the mark is set. */
  datatype Marked = WasClosed | NotFound | NotTemp | Marked

  ghost predicate MarksShown(busy: map<AgentId, int>, configBusy: map<Entry, int>, deleteWhenIdle: set<AgentId>, s: State) {
    (forall id :: id in s.agents ==>
       id in busy && busy[id] == s.agents[id].busy && (id in deleteWhenIdle <==> s.agents[id].deleteWhenIdle))
    && forall e :: e in s.life ==> e in configBusy && configBusy[e] == s.life[e].busy
  }

  ghost predicate OrphansShown(orphans: seq<Entry>, s: State) {
    (forall e :: e in s.life ==> multiset(orphans)[e] == s.life[e].orphaned)
    && forall e :: e in orphans ==> e in s.life
  }

  /** No count and no mark changes. */
  ghost predicate SameMarks(s: State, s': State) {
    s'.agents.Keys == s.agents.Keys && s'.life.Keys == s.life.Keys
    && (forall id :: id in s.agents ==>
          s'.agents[id].busy == s.agents[id].busy && s'.agents[id].deleteWhenIdle == s.agents[id].deleteWhenIdle)
    && forall e :: e in s.life ==> s'.life[e].busy == s.life[e].busy
  }

  lemma MarksStand(busy: map<AgentId, int>, configBusy: map<Entry, int>, deleteWhenIdle: set<AgentId>, s: State, s': State)
    requires MarksShown(busy, configBusy, deleteWhenIdle, s) && SameMarks(s, s')
    ensures MarksShown(busy, configBusy, deleteWhenIdle, s')
  {
  }

  /** A turn's start (d is 1) or end (-1) moves its one count. */
  lemma TurnMarks(busy: map<AgentId, int>, configBusy: map<Entry, int>, deleteWhenIdle: set<AgentId>, s: State, e: Entry, d: int)
    requires MarksShown(busy, configBusy, deleteWhenIdle, s) && KnownEntry(s, e)
    ensures var id, s' := s.life[e].id, MoveTurn(s, e, d);
      id in busy && e in configBusy
      && MarksShown(if id.Temp? then busy[id := busy[id] + d] else busy,
                    if id.Temp? then configBusy else configBusy[e := configBusy[e] + d], deleteWhenIdle, s')
      && Busy(s', e) == if id.Temp? then busy[id] + d else configBusy[e] + d
  {
  }

  lemma TurnOrphans(orphans: seq<Entry>, s: State, e: Entry, d: int)
    requires OrphansShown(orphans, s) && KnownEntry(s, e)
    ensures var s', id := MoveTurn(s, e, d), s.life[e].id;
      OrphansShown(orphans, s') && s'.entries == s.entries && s'.closed == s.closed && KnownEntry(s', e) && s'.life[e].id == id
      && s'.life[e].endChecks == s.life[e].endChecks + One(d < 0 && Busy(s', e) == 0)
      && s'.agents[id].endChecks == s.agents[id].endChecks + One(d < 0 && Busy(s', e) == 0)
  {
  }

  lemma DeletionMarks(s: State, a: Step)
    requires Can(s, a) && (a.DeleteAttempt? || a.PutBack? || a.RetryOrphans? || a.CloseRegistry?)
    ensures SameMarks(s, Do(s, a))
  {
  }

  class Table {
    var entries: map<AgentId, Entry>
    var orphans: seq<Entry>
    var closed: bool
    var busy: map<AgentId, int>              // turn counts of temporary agents, by id: rebuilt entries share one
    var configBusy: map<Entry, int>          // turn counts of config entries
    var deleteWhenIdle: set<AgentId>
    ghost var model: State

    /** The fields are the model's, and the model satisfies its invariant. */
    ghost predicate Valid()
      reads this
    {
      Inv(model) && entries == model.entries && closed == model.closed
      && MarksShown(busy, configBusy, deleteWhenIdle, model) && OrphansShown(orphans, model)
    }

    constructor ()
      ensures Valid() && model == Initial
    {
      entries, orphans, closed, busy, configBusy, deleteWhenIdle := map[], [], false, map[], map[], {};
      model := Initial;
    }

    /** BeginTurn; refused when e is no longer the agent's registered entry. */
    method BeginTurn(id: AgentId, e: Entry) returns (current: bool)
      requires Valid()
      modifies this
      ensures Valid() && current == At(old(entries), id, e)
      ensures model == if current then Do(old(model), Registry.Step.BeginTurn(e)) else old(model)
      ensures current ==> e in old(model).life && model.life[e].turns == old(model).life[e].turns + 1
      ensures busy == if current && id.Temp? then old(busy)[id := old(busy)[id] + 1] else old(busy)
      ensures configBusy == if current && id.Config? then old(configBusy)[e := old(configBusy)[e] + 1] else old(configBusy)
    {
      current := id in entries && entries[id] == e;
      if current {
        Facts(model, e);
        StepKeepsInv(model, Registry.Step.BeginTurn(e));
        TurnMarks(busy, configBusy, deleteWhenIdle, model, e, 1);
        TurnOrphans(orphans, model, e, 1);
        hide Inv, MarksShown, OrphansShown, MoveTurn, Busy;
        MoveCount(id, e, 1);
        model := Do(model, Registry.Step.BeginTurn(e));
      }
    }

    /** endTurn's count: whether it left the agent idle, so that the caller goes on to look at both marks. */
    method EndTurn(id: AgentId, e: Entry) returns (idle: bool)
      requires Valid() && Can(model, Registry.Step.EndTurn(e)) && model.life[e].id == id
      modifies this
      ensures Valid() && model == Do(old(model), Registry.Step.EndTurn(e))
      ensures idle == (Busy(model, e) == 0) && model.life[e].turns == old(model).life[e].turns - 1
      ensures busy == if id.Temp? then old(busy)[id := old(busy)[id] - 1] else old(busy)
      ensures configBusy == if id.Temp? then old(configBusy) else old(configBusy)[e := old(configBusy)[e] - 1]
      ensures model.life[e].endChecks == old(model).life[e].endChecks + One(idle)
      ensures model.agents[id].endChecks == old(model).agents[id].endChecks + One(idle)
    {
      StepKeepsInv(model, Registry.Step.EndTurn(e));
      TurnMarks(busy, configBusy, deleteWhenIdle, model, e, -1);
      TurnOrphans(orphans, model, e, -1);
      hide Inv, MarksShown, OrphansShown, MoveTurn, Busy;
      MoveCount(id, e, -1);
      idle := if id.Temp? then busy[id] == 0 else configBusy[e] == 0;
      model := Do(model, Registry.Step.EndTurn(e));
    }

    /** meta.busy.Add */
    method MoveCount(id: AgentId, e: Entry, d: int)
      requires id in busy && e in configBusy
      modifies this`busy, this`configBusy
      ensures busy == if id.Temp? then old(busy)[id := old(busy)[id] + d] else old(busy)
      ensures configBusy == if id.Temp? then old(configBusy) else old(configBusy)[e := old(configBusy)[e] + d]
    {
      if id.Temp? {
        busy := busy[id := busy[id] + d];
      } else {
        configBusy := configBusy[e := configBusy[e] + d];
      }
    }

    /** DeleteWhenIdle up to the unlock. */
    method MarkForDeletion(id: AgentId) returns (r: Marked)
      requires Valid()
      modifies this
      ensures Valid()
      ensures r == if old(closed) then WasClosed else if id !in old(entries) then NotFound else if id.Config? then NotTemp else Marked
      ensures model == if id in old(model).agents then Do(old(model), Registry.Step.DeleteWhenIdle(id)) else old(model)
      ensures r == Marked ==> id in model.agents && model.agents[id].deleteWhenIdle && model.agents[id].attempts > 0
    {
      RegisteredIsKnown(model);
      if id in model.agents { StepKeepsInv(model, Registry.Step.DeleteWhenIdle(id)); }
      r := if closed then WasClosed else if id !in entries then NotFound else if id.Config? then NotTemp else Marked;
      if r == Marked {
        deleteWhenIdle := deleteWhenIdle + {id};
      }
      if id in model.agents {
        model := Do(model, Registry.Step.DeleteWhenIdle(id));
      }
    }

    /** deleteEntry up to the unlock: what it took out of the map. */
    method TakeForDeletion(id: AgentId) returns (taken: Option<Entry>)
      requires Valid() && Can(model, DeleteAttempt(id))
      modifies this
      ensures Valid() && model == Do(old(model), DeleteAttempt(id))
      ensures taken.Some? <==> !old(closed) && id.Temp? && id in old(entries) && old(busy)[id] <= 0
      ensures taken.Some? ==> taken.value == old(entries)[id]
      ensures entries == if taken.Some? then old(entries) - {id} else old(entries)
    {
      StepKeepsInv(model, DeleteAttempt(id));
      DeletionMarks(model, DeleteAttempt(id));
      MarksStand(busy, configBusy, deleteWhenIdle, model, Do(model, DeleteAttempt(id)));
      hide MarksShown, SameMarks;
      if id in entries { Facts(model, entries[id]); }
      if closed || id !in entries || !id.Temp? || busy[id] > 0 {
        taken := None;
      } else {
        taken := Some(entries[id]);
        entries := entries - {id};
      }
      model := Do(model, DeleteAttempt(id));
    }

    /** putBack up to the unlock: whether the caller must close the entry instead. */
    method PutBack(id: AgentId, e: Entry) returns (close: bool)
      requires Valid() && Can(model, Registry.Step.PutBack(e)) && model.life[e].id == id
      modifies this
      ensures Valid() && model == Do(old(model), Registry.Step.PutBack(e))
      ensures close == (old(closed) || id in old(entries))
      ensures entries == if close then old(entries) else old(entries)[id := e]
    {
      StepKeepsInv(model, Registry.Step.PutBack(e));
      DeletionMarks(model, Registry.Step.PutBack(e));
      MarksStand(busy, configBusy, deleteWhenIdle, model, Do(model, Registry.Step.PutBack(e)));
      hide MarksShown, SameMarks, Inv;
      close := closed || id in entries;
      if !close {
        entries := entries[id := e];
      }
      model := Do(model, Registry.Step.PutBack(e));
    }

    /** keepOrphan up to the unlock: whether the caller must close the entry instead. */
    method KeepAsOrphan(e: Entry) returns (close: bool)
      requires Valid() && Can(model, Own(e, KeepOrphan))
      modifies this
      ensures Valid() && model == Do(old(model), Own(e, KeepOrphan)) && close == old(closed)
      ensures orphans == if close then old(orphans) else old(orphans) + [e]
    {
      StepKeepsInv(model, Own(e, KeepOrphan));
      close := closed;
      if !close {
        orphans := orphans + [e];
      }
      model := Do(model, Own(e, KeepOrphan));
    }

    /** The sweep takes the whole orphan list; no entry is on it twice. */
    method TakeOrphans() returns (taken: seq<Entry>)
      requires Valid()
      modifies this
      ensures Valid() && model == Do(old(model), RetryOrphans)
      ensures orphans == [] && taken == old(orphans)
      ensures forall e :: e in taken ==> multiset(taken)[e] == 1 && e in model.life && model.life[e].toRetire > 0
    {
      StepKeepsInv(model, RetryOrphans);
      DeletionMarks(model, RetryOrphans);
      MarksStand(busy, configBusy, deleteWhenIdle, model, Do(model, RetryOrphans));
      hide MarksShown, SameMarks;
      forall e | e in orphans ensures multiset(orphans)[e] == 1 && model.life[e].toRetire >= 0 {
        assert EntryOk(model, e);
        assert e in multiset(orphans);
      }
      taken, orphans := orphans, [];
      model := Do(model, RetryOrphans);
    }

    /** Close up to the unlock: what it goes on to close, each instance once. */
    method TakeAll() returns (taken: seq<Entry>)
      requires Valid()
      modifies this
      ensures Valid() && model == Do(old(model), CloseRegistry) && closed
      ensures old(closed) ==> taken == []
      ensures !old(closed) ==> forall e :: e in model.life ==>
        multiset(taken)[e] == model.life[e].shutting - old(model).life[e].shutting
    {
      StepKeepsInv(model, CloseRegistry);
      CloseShown(model);
      MapIsKnown(model);
      DeletionMarks(model, CloseRegistry);
      MarksStand(busy, configBusy, deleteWhenIdle, model, Do(model, CloseRegistry));
      hide Inv, Do, Can, MarksShown, SameMarks, OrphansShown;
      taken := [];
      if !closed {
        var registered := Instances(entries, model.life);
        taken := registered + orphans;
        TakenAreShut(model, orphans, registered);
        closed, orphans := true, [];
      }
      model := Do(model, CloseRegistry);
    }

    /**
     * Reload's commit under the lock: the new map, and what is left to do
     * with the old entries and with rebuilt instances nobody took.
     */
    method Commit(config: map<AgentId, Entry>, rebuilt: map<AgentId, Entry>, doomed: set<AgentId>) returns (left: Leftovers)
      requires Valid() && !closed && model.reload == Reloading(config, rebuilt, doomed)
      modifies this
      ensures Valid() && model == Do(old(model), ReloadCommit)
      ensures old(entries).Keys <= old(busy).Keys && Settles(old(entries), config, rebuilt, doomed, old(busy), entries)
      ensures LeftOver(old(entries), rebuilt, doomed, old(busy), left)
    {
      hide Inv, ReloadKnown, CommittedEntries, Do, Can, Settles, LeftOver;
      RegisteredIsKnown(model);
      CommitShown(model);
      StepKeepsInv(model, ReloadCommit);
      CommitSettles(model);
      var next;
      next, left := Merge(entries, config, rebuilt, doomed, busy);
      SettledOnce(entries, config, rebuilt, doomed, busy, Counts(model), next, Do(model, ReloadCommit).entries);
      entries := next;
      model := Do(model, ReloadCommit);
    }
  }

  /** Which instances the commit leaves to be released, deleted, marked, and closed as nobody's. */
  ghost predicate LeftOver(was: map<AgentId, Entry>, rebuilt: map<AgentId, Entry>, doomed: set<AgentId>, busy: map<AgentId, int>, left: Leftovers)
    requires was.Keys <= busy.Keys
  {
    left.replaced == (map id | id in was && id.Temp? && id in rebuilt && busy[id] <= 0 :: was[id])
    && left.dropped == (map id | id in was && id.Temp? && id !in rebuilt && id in doomed && busy[id] <= 0 :: was[id])
    && left.oldConfig == (map id | id in was && id.Config? :: was[id])
    && left.untaken == (map id | id in rebuilt && !(id in was && id.Temp? && busy[id] <= 0) :: rebuilt[id])
  }

  lemma CloseShown(s: State)
    ensures Can(s, CloseRegistry)
    ensures s.closed ==> Do(s, CloseRegistry) == s
    ensures var s' := Do(s, CloseRegistry);
      s'.entries == s.entries && s'.agents == s.agents && s'.closed && s'.life.Keys == s.life.Keys
      && forall e :: e in s.life ==> s'.life[e].busy == s.life[e].busy && (!s.closed ==>
        s'.life[e].orphaned == 0 && s'.life[e].shutting == s.life[e].shutting + s.life[e].orphaned + One(At(s.entries, s.life[e].id, e)))
  {
  }

  lemma TakenAreShut(s: State, orphans: seq<Entry>, registered: seq<Entry>)
    requires OrphansShown(orphans, s) && !s.closed
    requires forall e :: multiset(registered)[e] == One(e in s.life && At(s.entries, s.life[e].id, e))
    ensures OrphansShown([], Do(s, CloseRegistry))
    ensures Do(s, CloseRegistry).life.Keys == s.life.Keys
    ensures forall e :: e in s.life ==>
      multiset(registered + orphans)[e] == Do(s, CloseRegistry).life[e].shutting - s.life[e].shutting
  {
    CloseShown(s);
    hide Do;
    forall e ensures multiset(registered + orphans)[e] == multiset(registered)[e] + multiset(orphans)[e] {}
  }

  lemma MapIsKnown(s: State)
    requires Inv(s)
    ensures MapKnown(s.entries, s.life)
  {
    hide EntryOk, AgentOk;
  }

  lemma CommitShown(s: State)
    requires Inv(s) && s.reload.Reloading? && !s.closed
    ensures Can(s, ReloadCommit) && forall id :: id in s.reload.config ==> id.Config?
    ensures var s' := Do(s, ReloadCommit);
      s'.entries == CommittedEntries(s) && s'.agents == s.agents && s'.closed == s.closed && s'.life.Keys == s.life.Keys
      && forall e :: e in s.life ==> s'.life[e].orphaned == s.life[e].orphaned && s'.life[e].busy == s.life[e].busy
  {
    hide EntryOk, AgentOk, CommittedEntries;
  }

  lemma RegisteredIsKnown(s: State)
    requires Inv(s)
    ensures s.entries.Keys <= s.agents.Keys
  {
    hide LifeOk;
    forall id | id in s.entries ensures id in s.agents { Facts(s, s.entries[id]); }
  }

  /** The new map is determined by what is asked of it. */
  lemma SettledOnce(was: map<AgentId, Entry>, config: map<AgentId, Entry>, rebuilt: map<AgentId, Entry>, doomed: set<AgentId>,
                    busy: map<AgentId, int>, counts: map<AgentId, int>, now: map<AgentId, Entry>, again: map<AgentId, Entry>)
    requires was.Keys <= busy.Keys && was.Keys <= counts.Keys && forall id :: id in was ==> busy[id] == counts[id]
    requires Settles(was, config, rebuilt, doomed, busy, now) && Settles(was, config, rebuilt, doomed, counts, again)
    ensures now == again
  {
    forall id: AgentId ensures (id in now <==> id in again) && (id in now ==> now[id] == again[id]) {}
  }

  datatype Leftovers = Leftovers(
    replaced: map<AgentId, Entry>, dropped: map<AgentId, Entry>, oldConfig: map<AgentId, Entry>, untaken: map<AgentId, Entry>)

  /** The commit's decision about the registered entry of id. */
  function FateOf(id: AgentId, rebuilt: map<AgentId, Entry>, doomed: set<AgentId>, busy: map<AgentId, int>): Fate
    requires id in busy
  {
    if id.Config? then ReplaceConfig
    else if id in rebuilt && busy[id] <= 0 then Replace
    else if id in doomed && busy[id] <= 0 then Drop
    else Keep
  }

  /** The entries of the given fate whose ids are not in rest. */
  ghost function Chosen(entries: map<AgentId, Entry>, rest: set<AgentId>, fate: Fate,
                        rebuilt: map<AgentId, Entry>, doomed: set<AgentId>, busy: map<AgentId, int>): map<AgentId, Entry>
    requires entries.Keys <= busy.Keys
  {
    map id | id in entries && id !in rest && FateOf(id, rebuilt, doomed, busy) == fate :: entries[id]
  }

  lemma ChoosingOne(entries: map<AgentId, Entry>, rest: set<AgentId>, id: AgentId, fate: Fate,
                    rebuilt: map<AgentId, Entry>, doomed: set<AgentId>, busy: map<AgentId, int>)
    requires entries.Keys <= busy.Keys && id in rest && id in entries
    ensures Chosen(entries, rest - {id}, fate, rebuilt, doomed, busy)
      == if FateOf(id, rebuilt, doomed, busy) == fate then Chosen(entries, rest, fate, rebuilt, doomed, busy)[id := entries[id]]
         else Chosen(entries, rest, fate, rebuilt, doomed, busy)
  {
  }

  /** The new map once every id outside rest has been decided. */
  ghost function Merged(entries: map<AgentId, Entry>, rest: set<AgentId>, config: map<AgentId, Entry>,
                        rebuilt: map<AgentId, Entry>, doomed: set<AgentId>, busy: map<AgentId, int>): map<AgentId, Entry>
    requires entries.Keys <= busy.Keys
  {
    map id | id in config.Keys + entries.Keys && (id in config || (id !in rest && Survives(id, rebuilt, doomed, busy))) ::
      if id in config then config[id]
      else if FateOf(id, rebuilt, doomed, busy) == Replace && id in rebuilt then rebuilt[id] else entries[id]
  }

  ghost predicate Survives(id: AgentId, rebuilt: map<AgentId, Entry>, doomed: set<AgentId>, busy: map<AgentId, int>) {
    id in busy && (FateOf(id, rebuilt, doomed, busy) == Replace || FateOf(id, rebuilt, doomed, busy) == Keep)
  }

  lemma MergingOne(entries: map<AgentId, Entry>, rest: set<AgentId>, id: AgentId, config: map<AgentId, Entry>,
                   rebuilt: map<AgentId, Entry>, doomed: set<AgentId>, busy: map<AgentId, int>)
    requires entries.Keys <= busy.Keys && id in rest && id in entries && forall i :: i in config ==> i.Config?
    ensures var was, now := Merged(entries, rest, config, rebuilt, doomed, busy), Merged(entries, rest - {id}, config, rebuilt, doomed, busy);
      match FateOf(id, rebuilt, doomed, busy)
      case Replace => id in rebuilt && now == was[id := rebuilt[id]]
      case Keep => now == was[id := entries[id]]
      case _ => now == was
  {
  }

  /** Every id decided, the decisions make the map and the leftovers asked for. */
  lemma MergedSettles(entries: map<AgentId, Entry>, config: map<AgentId, Entry>, rebuilt: map<AgentId, Entry>,
                      doomed: set<AgentId>, busy: map<AgentId, int>)
    requires entries.Keys <= busy.Keys && forall id :: id in config ==> id.Config?
    ensures Settles(entries, config, rebuilt, doomed, busy, Merged(entries, {}, config, rebuilt, doomed, busy))
  {
    var m := Merged(entries, {}, config, rebuilt, doomed, busy);
    forall id: AgentId
      ensures id in m <==> id in config || (id in entries && Survives(id, rebuilt, doomed, busy))
      ensures id in m ==> m[id] == if id in config then config[id]
        else if FateOf(id, rebuilt, doomed, busy) == Replace && id in rebuilt then rebuilt[id] else entries[id]
    {
    }
    hide Merged;
  }

  lemma ChosenLeftOver(entries: map<AgentId, Entry>, rebuilt: map<AgentId, Entry>, doomed: set<AgentId>, busy: map<AgentId, int>)
    requires entries.Keys <= busy.Keys
    ensures Chosen(entries, {}, Replace, rebuilt, doomed, busy)
      == (map id | id in entries && id.Temp? && id in rebuilt && busy[id] <= 0 :: entries[id])
    ensures Chosen(entries, {}, Drop, rebuilt, doomed, busy)
      == (map id | id in entries && id.Temp? && id !in rebuilt && id in doomed && busy[id] <= 0 :: entries[id])
    ensures Chosen(entries, {}, ReplaceConfig, rebuilt, doomed, busy) == (map id | id in entries && id.Config? :: entries[id])
  {
  }

  /** How far the loop has come: the ids outside rest are decided. */
  ghost predicate Decided(entries: map<AgentId, Entry>, rest: set<AgentId>, config: map<AgentId, Entry>, rebuilt: map<AgentId, Entry>,
                          doomed: set<AgentId>, busy: map<AgentId, int>, next: map<AgentId, Entry>, left: Leftovers)
    requires entries.Keys <= busy.Keys
  {
    next == Merged(entries, rest, config, rebuilt, doomed, busy)
    && left.replaced == Chosen(entries, rest, Replace, rebuilt, doomed, busy)
    && left.dropped == Chosen(entries, rest, Drop, rebuilt, doomed, busy)
    && left.oldConfig == Chosen(entries, rest, ReplaceConfig, rebuilt, doomed, busy)
    && left.untaken == rebuilt - left.replaced.Keys
  }

  lemma UntakenShrinks(rebuilt: map<AgentId, Entry>, replaced: map<AgentId, Entry>, id: AgentId, e: Entry)
    ensures rebuilt - replaced[id := e].Keys == (rebuilt - replaced.Keys) - {id}
  {
    assert replaced[id := e].Keys == replaced.Keys + {id};
  }

  lemma DecidesOne(entries: map<AgentId, Entry>, rest: set<AgentId>, id: AgentId, config: map<AgentId, Entry>, rebuilt: map<AgentId, Entry>,
                   doomed: set<AgentId>, busy: map<AgentId, int>, next: map<AgentId, Entry>, left: Leftovers)
    requires entries.Keys <= busy.Keys && id in rest && id in entries && forall i :: i in config ==> i.Config?
    requires Decided(entries, rest, config, rebuilt, doomed, busy, next, left)
    ensures var cur := entries[id];
      match FateOf(id, rebuilt, doomed, busy)
      case ReplaceConfig =>
        Decided(entries, rest - {id}, config, rebuilt, doomed, busy, next, left.(oldConfig := left.oldConfig[id := cur]))
      case Replace =>
        id in rebuilt
        && Decided(entries, rest - {id}, config, rebuilt, doomed, busy, next[id := rebuilt[id]],
                   left.(replaced := left.replaced[id := cur], untaken := left.untaken - {id}))
      case Drop => Decided(entries, rest - {id}, config, rebuilt, doomed, busy, next, left.(dropped := left.dropped[id := cur]))
      case Keep => Decided(entries, rest - {id}, config, rebuilt, doomed, busy, next[id := cur], left)
  {
    MergingOne(entries, rest, id, config, rebuilt, doomed, busy);
    ChoosingOne(entries, rest, id, Replace, rebuilt, doomed, busy);
    ChoosingOne(entries, rest, id, Drop, rebuilt, doomed, busy);
    ChoosingOne(entries, rest, id, ReplaceConfig, rebuilt, doomed, busy);
    UntakenShrinks(rebuilt, left.replaced, id, entries[id]);
    hide Chosen, Merged, FateOf;
  }

  lemma NoneDecided(entries: map<AgentId, Entry>, config: map<AgentId, Entry>, rebuilt: map<AgentId, Entry>,
                    doomed: set<AgentId>, busy: map<AgentId, int>)
    requires entries.Keys <= busy.Keys
    ensures Decided(entries, entries.Keys, config, rebuilt, doomed, busy, config, Leftovers(map[], map[], map[], rebuilt))
  {
  }

  lemma AllDecided(entries: map<AgentId, Entry>, config: map<AgentId, Entry>, rebuilt: map<AgentId, Entry>,
                   doomed: set<AgentId>, busy: map<AgentId, int>, next: map<AgentId, Entry>, left: Leftovers)
    requires entries.Keys <= busy.Keys && (forall id :: id in config ==> id.Config?)
    requires Decided(entries, {}, config, rebuilt, doomed, busy, next, left)
    ensures Settles(entries, config, rebuilt, doomed, busy, next) && LeftOver(entries, rebuilt, doomed, busy, left)
  {
    MergedSettles(entries, config, rebuilt, doomed, busy);
    ChosenLeftOver(entries, rebuilt, doomed, busy);
    hide Settles, Merged, Chosen;
  }

  /** The commit's loop over the map. */
  method Merge(entries: map<AgentId, Entry>, config: map<AgentId, Entry>, rebuilt: map<AgentId, Entry>,
               doomed: set<AgentId>, busy: map<AgentId, int>)
    returns (next: map<AgentId, Entry>, left: Leftovers)
    requires entries.Keys <= busy.Keys && forall id :: id in config ==> id.Config?
    ensures Settles(entries, config, rebuilt, doomed, busy, next) && LeftOver(entries, rebuilt, doomed, busy, left)
  {
    next := config;
    var replaced, dropped, oldConfig, untaken := map[], map[], map[], rebuilt;
    var rest := entries.Keys;
    NoneDecided(entries, config, rebuilt, doomed, busy);
    hide Chosen, Merged, Settles, LeftOver, Decided;
    while rest != {}
      invariant rest <= entries.Keys
      invariant Decided(entries, rest, config, rebuilt, doomed, busy, next, Leftovers(replaced, dropped, oldConfig, untaken))
    {
      var id :| id in rest;
      var cur := entries[id];
      DecidesOne(entries, rest, id, config, rebuilt, doomed, busy, next, Leftovers(replaced, dropped, oldConfig, untaken));
      if id.Config? {
        oldConfig := oldConfig[id := cur];
      } else if id in rebuilt && busy[id] <= 0 {
        next := next[id := rebuilt[id]];
        replaced := replaced[id := cur];
        untaken := untaken - {id};
      } else if id in doomed && busy[id] <= 0 {
        dropped := dropped[id := cur];
      } else {
        next := next[id := cur];
      }
      rest := rest - {id};
    }
    left := Leftovers(replaced, dropped, oldConfig, untaken);
    AllDecided(entries, config, rebuilt, doomed, busy, next, left);
  }

  /** The map's instances, each once. */
  method Instances(entries: map<AgentId, Entry>, ghost life: map<Entry, Life>) returns (taken: seq<Entry>)
    requires MapKnown(entries, life)
    ensures forall e :: multiset(taken)[e] == One(e in life && At(entries, life[e].id, e))
  {
    taken := [];
    var rest := entries.Keys;
    while rest != {}
      invariant rest <= entries.Keys
      invariant forall e :: multiset(taken)[e] == One(e in life && At(entries, life[e].id, e) && life[e].id !in rest)
    {
      var id :| id in rest;
      taken := taken + [entries[id]];
      rest := rest - {id};
    }
  }

  // ---- Building the config entries ----

  ghost predicate Distinct<T(!new)>(s: seq<T>) { forall i, j :: 0 <= i < j < |s| ==> s[i] != s[j] }

  /** The first i instances built: each id is in the map, with the last one built for it. */
  ghost predicate Built(ids: seq<AgentId>, i: nat, entries: map<AgentId, Entry>)
    requires i <= |ids|
  {
    entries.Keys == (set id | id in ids[..i])
    && (forall id :: id in entries ==> 0 <= entries[id] < i && ids[entries[id]] == id)
    && forall j :: 0 <= j < i ==> ids[j] in entries && j <= entries[ids[j]]
  }

  lemma BuildsOne(ids: seq<AgentId>, i: nat, entries: map<AgentId, Entry>)
    requires i < |ids| && Built(ids, i, entries)
    ensures Built(ids, i + 1, entries[ids[i] := i]) && (ids[i] in entries <==> ids[i] in ids[..i])
  {
    assert ids[..i + 1] == ids[..i] + [ids[i]];
  }

  /** The ids so far, each where it came first. */
  ghost predicate InOrder(ids: seq<AgentId>, i: nat, order: seq<AgentId>)
    requires i <= |ids|
  {
    Distinct(order) && (forall id :: id in order <==> id in ids[..i]) && (Distinct(ids) ==> order == ids[..i])
  }

  lemma OneMoreInOrder(ids: seq<AgentId>, i: nat, order: seq<AgentId>)
    requires i < |ids| && InOrder(ids, i, order)
    ensures InOrder(ids, i + 1, if ids[i] in ids[..i] then order else order + [ids[i]])
  {
    assert ids[..i + 1] == ids[..i] + [ids[i]];
    if Distinct(ids) {
      forall j | 0 <= j < i ensures ids[..i][j] != ids[i] {}
    }
  }

  /**
   * buildConfigEntries: instance i is built for ids[i], the normalized id of
   * the i-th enabled agent; building the instance fails at failAt. Every
   * instance built ends up in the map, or closed after a failure, exactly
   * when the ids built are distinct: a repeated id overwrites, and leaks, the
   * earlier instance.
   */
  method BuildConfigEntries(ids: seq<AgentId>, failAt: nat)
    returns (ok: bool, entries: map<AgentId, Entry>, order: seq<AgentId>, closed: set<Entry>)
    ensures ok <==> failAt >= |ids|
    ensures ok ==> closed == {} && Built(ids, |ids|, entries) && InOrder(ids, |ids|, order)
    ensures var built := if failAt < |ids| then failAt else |ids|;
      (forall i: Entry :: 0 <= i < built ==> (if ok then i in entries.Values else i in closed)) <==> Distinct(ids[..built])
  {
    entries, order, closed := map[], [], {};
    var i := 0;
    assert Built(ids, i, entries) && InOrder(ids, i, order);
    hide Built, InOrder, Distinct;
    while i < |ids|
      invariant i <= |ids| && i <= failAt
      invariant Built(ids, i, entries) && InOrder(ids, i, order)
    {
      if i == failAt {
        closed := entries.Values;
        LeaksIffRepeated(ids, i, entries);
        return false, map[], [], closed;
      }
      OneMoreInOrder(ids, i, order);
      BuildsOne(ids, i, entries);
      if ids[i] !in entries {
        order := order + [ids[i]];
      }
      entries := entries[ids[i] := i];
      i := i + 1;
    }
    LeaksIffRepeated(ids, i, entries);
    ok := true;
  }

  lemma LeaksIffRepeated(ids: seq<AgentId>, n: nat, entries: map<AgentId, Entry>)
    requires n <= |ids| && Built(ids, n, entries)
    ensures (forall i: Entry :: 0 <= i < n ==> i in entries.Values) <==> Distinct(ids[..n])
  {
    if Distinct(ids[..n]) {
      forall i: Entry | 0 <= i < n ensures i in entries.Values {
        assert ids[..n][i] == ids[i];
        assert entries[ids[i]] == i;
      }
    }
    if forall i: Entry :: 0 <= i < n ==> i in entries.Values {
      forall i, j | 0 <= i < j < n ensures ids[..n][i] != ids[..n][j] {
        assert i in entries.Values;
        var id :| id in entries && entries[id] == i;
      }
    }
  }
}
