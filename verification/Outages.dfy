/**
 * Connection outages of one platform's channels: each channel's watch, the
 * aggregator that turns them into one "down" and one "up" alert, and the
 * goroutines that prepare and send those alerts, over a clock.
 */
module Outages {
  import opened Common

  type Channel = int
  type Time = int

  /** A connWatch; its timer is any expiry of the same start. */
  datatype Watch = Watch(downSince: Option<Time>, alerted: bool)

  /** A platformOutage. number counts the outages alerted so far; the program does not number them. */
  datatype Platform = Platform(
    down: map<Channel, Time>,
    affected: set<Channel>,
    alerted: bool,
    recovered: set<Channel>,
    preparing: bool,
    heldUp: Option<int>,
    number: int)

  datatype Alert = Down(k: int) | Up(k: int)

  /** The goroutine preparing a down alert since the time at. */
  datatype Preparer = Preparer(at: Time, sent: bool)

  datatype State = State(
    threshold: Time,                 // ConnDownAlertAfter
    checkTime: Time,                 // bounds the preparation of a down alert
    now: Time,
    watches: map<Channel, Watch>,
    p: Platform,
    preparers: map<int, Preparer>,   // by outage
    ups: set<int>,                   // up alerts handed out and not sent yet
    stream: seq<Alert>,              // alerts sent
    reconnected: set<int>,           // outages of which an affected channel reconnected
    ended: set<int>)                 // outages whose affected channels have all left

  datatype Step =
    | Failure(c: Channel)
    | Connected(c: Channel)
    | Expired(c: Channel, start: Time, running: bool)
    | ChannelStops(c: Channel)
    | SendDown(k: int)
    | FinishDown(k: int)
    | SendUp(k: int)
    | Tick(d: Time)

  const NoOutage := Platform(map[], {}, false, {}, false, None, 0)

  ghost function Initial(threshold: Time, checkTime: Time): State {
    State(threshold, checkTime, 0, map[], NoOutage, map[], {}, [], {}, {})
  }

  // ---- The aggregator ----

  /** expired: a first expiry starts an outage of everything down. */
  function Expire(p: Platform, c: Channel): Platform {
    if c !in p.down then p
    else if p.alerted then p.(affected := p.affected + {c})
    else p.(alerted := true, preparing := true, affected := p.affected + p.down.Keys, number := p.number + 1)
  }

  predicate StartsOutage(p: Platform, c: Channel) { c in p.down && !p.alerted }

  function Recovered(p: Platform, c: Channel, reconnects: bool): set<Channel> {
    if c in p.affected && reconnects then p.recovered + {c} else p.recovered
  }

  predicate EndsOutage(p: Platform, c: Channel) { c in p.affected && p.affected == {c} }

  /** leaveLocked: what is left. */
  function Leave(p: Platform, c: Channel, reconnects: bool): Platform {
    var q := p.(down := p.down - {c}, affected := p.affected - {c}, recovered := Recovered(p, c, reconnects));
    if !EndsOutage(p, c) then q
    else
      var up := if Recovered(p, c, reconnects) != {} then Some(p.number) else None;
      q.(alerted := false, recovered := {}, heldUp := if p.preparing then up else p.heldUp)
  }

  /** leaveLocked: the up alert it returns. */
  function LeaveUp(p: Platform, c: Channel, reconnects: bool): Option<int> {
    if EndsOutage(p, c) && Recovered(p, c, reconnects) != {} && !p.preparing then Some(p.number) else None
  }

  function Sent(p: Platform): Platform { p.(preparing := false, heldUp := None) }

  // ---- Steps ----

  ghost function WatchOf(s: State, c: Channel): Watch { if c in s.watches then s.watches[c] else Watch(None, false) }

  ghost predicate Can(s: State, a: Step) {
    match a
    case Expired(_, start, _) => s.now >= start + s.threshold
    case SendDown(k) => k in s.preparers && !s.preparers[k].sent
    case FinishDown(k) => k in s.preparers && s.preparers[k].sent
    case SendUp(k) => k in s.ups
    case Tick(d) => d >= 0 && forall k :: k in s.preparers ==> s.now + d <= s.preparers[k].at + s.checkTime
    case _ => true
  }

  ghost function Offer(s: State, up: Option<int>): State { if up.Some? then s.(ups := s.ups + {up.value}) else s }

  /** The channel's outage ends: it leaves the platform's. */
  ghost function Ends(s: State, c: Channel, reconnects: bool): State {
    if WatchOf(s, c).downSince.None? then s
    else
      var t := s.(
        watches := s.watches[c := Watch(None, false)],
        p := Leave(s.p, c, reconnects),
        reconnected := if reconnects && c in s.p.affected then s.reconnected + {s.p.number} else s.reconnected,
        ended := if EndsOutage(s.p, c) then s.ended + {s.p.number} else s.ended);
      Offer(t, LeaveUp(s.p, c, reconnects))
  }

  ghost function Do(s: State, a: Step): State
    requires Can(s, a)
  {
    match a
    case Failure(c) =>
      var w := WatchOf(s, c);
      var since := if w.downSince.Some? then w.downSince.value else s.now;
      s.(watches := s.watches[c := w.(downSince := Some(since))], p := s.p.(down := s.p.down[c := since]))
    case Connected(c) => Ends(s, c, true)
    case ChannelStops(c) => Ends(s, c, false)
    case Expired(c, start, running) =>
      var w := WatchOf(s, c);
      if w.downSince != Some(start) || w.alerted then s
      else if !running then Ends(s, c, false)
      else
        var t := s.(watches := s.watches[c := w.(alerted := true)], p := Expire(s.p, c));
        if StartsOutage(s.p, c) then t.(preparers := s.preparers[t.p.number := Preparer(s.now, false)]) else t
    case SendDown(k) => s.(stream := s.stream + [Down(k)], preparers := s.preparers[k := s.preparers[k].(sent := true)])
    case FinishDown(k) => Offer(s.(p := Sent(s.p), preparers := s.preparers - {k}), s.p.heldUp)
    case SendUp(k) => s.(stream := s.stream + [Up(k)], ups := s.ups - {k})
    case Tick(d) => s.(now := s.now + d)
  }

  // ---- The aggregator agrees with the watches ----

  ghost predicate DownIsWatched(s: State) { forall c :: c in s.p.down <==> WatchOf(s, c).downSince.Some? }

  ghost predicate AffectedOk(p: Platform) { p.affected <= p.down.Keys && (p.alerted <==> p.affected != {}) }

  ghost predicate WatchesOk(s: State) {
    DownIsWatched(s)
    && (forall c :: c in s.p.down ==> WatchOf(s, c).downSince == Some(s.p.down[c]) && s.p.down[c] <= s.now)
    && (forall c :: c in s.watches && s.watches[c].alerted ==> c in s.p.affected)
  }

  ghost predicate PlatformOk(p: Platform) {
    AffectedOk(p) && (p.recovered != {} ==> p.alerted)
    && (p.heldUp.Some? ==> p.preparing && !p.alerted && p.heldUp.value == p.number)
    && p.number >= 0
  }

  /** Only the latest outage's down alert is in preparation, and whatever is down beside it began later. */
  ghost predicate PreparingOk(s: State) {
    s.preparers.Keys == (if s.p.preparing then {s.p.number} else {})
    && (s.p.preparing ==>
      s.p.number > 0 && s.preparers[s.p.number].at <= s.now <= s.preparers[s.p.number].at + s.checkTime
      && forall c :: c in s.p.down ==> c in s.p.affected || s.p.down[c] >= s.preparers[s.p.number].at)
  }

  /** Which outages are over, and which of those had a channel reconnect. */
  ghost predicate LedgerOk(s: State) {
    (forall k :: k in s.ended <==> 0 < k <= s.p.number && !(s.p.alerted && k == s.p.number))
    && (forall k :: k in s.reconnected ==> 0 < k <= s.p.number)
    && (s.p.alerted ==> (s.p.recovered != {} <==> s.p.number in s.reconnected))
    && (s.p.alerted ==> s.p.number > 0)
  }

  ghost predicate DownIsOut(s: State, k: int) { 0 < k <= s.p.number && (k in s.preparers ==> s.preparers[k].sent) }

  /** An up alert is on its way, held or sent, exactly when its outage is over and somebody reconnected. */
  ghost predicate AlertsOk(s: State) {
    (forall k :: Down(k) in s.stream <==> DownIsOut(s, k))
    && (forall k :: k in s.ups || s.p.heldUp == Some(k) || Up(k) in s.stream <==> k in s.ended && k in s.reconnected)
    && (forall k :: k in s.ups || Up(k) in s.stream ==> DownIsOut(s, k) && k !in s.preparers)
    && (forall k :: k in s.ups ==> Up(k) !in s.stream)
  }

  ghost predicate StreamOk(s: State) {
    (forall i :: 0 <= i < |s.stream| && s.stream[i].Up? ==> Down(s.stream[i].k) in s.stream[..i])
    && forall i, j :: 0 <= i < j < |s.stream| ==> s.stream[i] != s.stream[j]
  }

  ghost predicate Inv(s: State) {
    0 <= s.checkTime < s.threshold
    && WatchesOk(s) && PlatformOk(s.p) && PreparingOk(s) && LedgerOk(s) && AlertsOk(s) && StreamOk(s)
  }

  // ---- Every step keeps it ----

  lemma FailureKeeps(s: State, c: Channel)
    requires Inv(s)
    ensures Inv(Do(s, Failure(c)))
  {
    hide StreamOk, AlertsOk, LedgerOk;
    var s' := Do(s, Failure(c));
    AlertsStand(s, s');
  }

  /** A step that starts, ends and sends nothing. */
  lemma AlertsStand(s: State, s': State)
    requires s'.stream == s.stream && s'.preparers == s.preparers && s'.ups == s.ups && s'.ended == s.ended
    requires s'.reconnected == s.reconnected && s'.p.number == s.p.number && s'.p.heldUp == s.p.heldUp
    requires s'.p.alerted == s.p.alerted && s'.p.recovered == s.p.recovered
    ensures (StreamOk(s) ==> StreamOk(s')) && (AlertsOk(s) ==> AlertsOk(s')) && (LedgerOk(s) ==> LedgerOk(s'))
  {
  }

  lemma JoiningKeeps(s: State, c: Channel, start: Time)
    requires Inv(s) && Can(s, Expired(c, start, true)) && !StartsOutage(s.p, c)
    ensures Inv(Do(s, Expired(c, start, true)))
  {
    var s' := Do(s, Expired(c, start, true));
    AlertsStand(s, s');
    hide StreamOk, AlertsOk, LedgerOk;
  }

  /** An outage starts: no down alert is being prepared, since whatever was down then has left and the rest began later. */
  lemma StartFindsNoPreparer(s: State, c: Channel, start: Time)
    requires Inv(s) && s.now >= start + s.threshold && WatchOf(s, c).downSince == Some(start) && StartsOutage(s.p, c)
    ensures !s.p.preparing && s.preparers == map[] && s.p.heldUp.None?
  {
    hide StreamOk, AlertsOk, LedgerOk;
  }

  lemma StartingKeeps(s: State, c: Channel, start: Time)
    requires Inv(s) && Can(s, Expired(c, start, true)) && StartsOutage(s.p, c)
    requires WatchOf(s, c).downSince == Some(start) && !WatchOf(s, c).alerted
    ensures Inv(Do(s, Expired(c, start, true)))
  {
    StartFindsNoPreparer(s, c, start);
    hide StreamOk;
    var s' := Do(s, Expired(c, start, true));
    assert s'.preparers.Keys == {s'.p.number};
    assert StreamOk(s') by { StreamStands(s, s'); }
  }

  lemma StreamStands(s: State, s': State)
    requires StreamOk(s) && s'.stream == s.stream
    ensures StreamOk(s')
  {
  }

  lemma EndingKeepsPlatform(s: State, c: Channel, reconnects: bool)
    requires Inv(s)
    ensures var s' := Ends(s, c, reconnects); WatchesOk(s') && PlatformOk(s'.p) && PreparingOk(s')
  {
    hide AlertsOk, LedgerOk, StreamOk;
  }

  lemma EndingKeepsLedger(s: State, c: Channel, reconnects: bool)
    requires Inv(s)
    ensures LedgerOk(Ends(s, c, reconnects))
  {
    hide AlertsOk, StreamOk, WatchesOk, PreparingOk;
  }

  lemma EndingKeepsAlerts(s: State, c: Channel, reconnects: bool)
    requires Inv(s)
    ensures AlertsOk(Ends(s, c, reconnects))
  {
    var s' := Ends(s, c, reconnects);
    assert forall k :: DownIsOut(s', k) == DownIsOut(s, k);
    hide StreamOk, WatchesOk, DownIsOut;
  }

  lemma EndingKeeps(s: State, c: Channel, reconnects: bool)
    requires Inv(s)
    ensures Inv(Ends(s, c, reconnects))
  {
    StreamStands(s, Ends(s, c, reconnects));
    EndingKeepsPlatform(s, c, reconnects);
    EndingKeepsLedger(s, c, reconnects);
    EndingKeepsAlerts(s, c, reconnects);
    hide StreamOk, WatchesOk, LedgerOk, AlertsOk, PreparingOk, PlatformOk;
  }

  lemma SentAppends(s: State, s': State, a: Alert)
    requires StreamOk(s) && s'.stream == s.stream + [a] && a !in s.stream && (a.Up? ==> Down(a.k) in s.stream)
    ensures StreamOk(s') && forall b :: b in s'.stream <==> b == a || b in s.stream
  {
    forall i | 0 <= i < |s'.stream| && s'.stream[i].Up? ensures Down(s'.stream[i].k) in s'.stream[..i] {
      if i < |s.stream| { assert s'.stream[..i] == s.stream[..i]; } else { assert s'.stream[..i] == s.stream; }
    }
  }

  lemma SendingDownKeeps(s: State, k: int)
    requires Inv(s) && Can(s, SendDown(k))
    ensures Inv(Do(s, SendDown(k)))
  {
    var s' := Do(s, SendDown(k));
    assert Down(k) !in s.stream by { assert AlertsOk(s); }
    assert s'.preparers.Keys == s.preparers.Keys;
    assert LedgerOk(s') && PreparingOk(s') by { hide AlertsOk, StreamOk, WatchesOk; }
    DownIsSent(s, s', k);
    hide StreamOk, WatchesOk, LedgerOk, PreparingOk, PlatformOk, AlertsOk;
    SentAppends(s, s', Down(k));
    WatchesStand(s, s');
  }

  lemma DownIsSent(s: State, s': State, k: int)
    requires AlertsOk(s) && PreparingOk(s) && k in s.preparers && !s.preparers[k].sent && s'.stream == s.stream + [Down(k)]
    requires s'.p == s.p && s'.preparers == s.preparers[k := s.preparers[k].(sent := true)]
    requires s'.ups == s.ups && s'.ended == s.ended && s'.reconnected == s.reconnected
    ensures AlertsOk(s')
  {
    assert forall j :: DownIsOut(s', j) <==> j == k || DownIsOut(s, j);
    assert forall b :: b in s'.stream <==> b == Down(k) || b in s.stream;
    hide DownIsOut, PreparingOk;
  }

  /** Sending an alert touches neither the platform nor the ledger. */
  lemma RestStands(s: State, s': State)
    requires s'.p == s.p && s'.preparers == s.preparers && s'.now == s.now && s'.checkTime == s.checkTime
    requires s'.ended == s.ended && s'.reconnected == s.reconnected
    ensures (LedgerOk(s) ==> LedgerOk(s')) && (PreparingOk(s) ==> PreparingOk(s'))
  {
  }

  lemma SendingUpKeeps(s: State, k: int)
    requires Inv(s) && Can(s, SendUp(k))
    ensures Inv(Do(s, SendUp(k)))
  {
    var s' := Do(s, SendUp(k));
    assert AlertsOk(s) && StreamOk(s) && WatchesOk(s) && LedgerOk(s) && PreparingOk(s) && PlatformOk(s.p);
    assert Up(k) !in s.stream && Down(k) in s.stream by { assert AlertsOk(s); }
    hide StreamOk, WatchesOk, LedgerOk, PreparingOk, PlatformOk, AlertsOk;
    SentAppends(s, s', Up(k));
    WatchesStand(s, s');
    RestStands(s, s');
    UpIsSent(s, s', k);
  }

  lemma UpIsSent(s: State, s': State, k: int)
    requires AlertsOk(s) && k in s.ups && s'.ups == s.ups - {k} && forall b :: b in s'.stream <==> b == Up(k) || b in s.stream
    requires s'.p == s.p && s'.preparers == s.preparers && s'.ended == s.ended && s'.reconnected == s.reconnected
    ensures AlertsOk(s')
  {
    assert forall j :: DownIsOut(s', j) == DownIsOut(s, j);
    assert forall j :: Down(j) in s'.stream <==> Down(j) in s.stream;
    assert forall j :: Up(j) in s'.stream <==> j == k || Up(j) in s.stream;
    hide DownIsOut;
  }

  lemma WatchesStand(s: State, s': State)
    requires WatchesOk(s) && s'.watches == s.watches && s'.p.down == s.p.down && s'.p.affected == s.p.affected && s'.now >= s.now
    ensures WatchesOk(s')
  {
  }

  lemma FinishingKeeps(s: State, k: int)
    requires Inv(s) && Can(s, FinishDown(k))
    ensures Inv(Do(s, FinishDown(k)))
  {
    var s' := Do(s, FinishDown(k));
    StreamStands(s, s');
    WatchesStand(s, s');
    hide StreamOk, WatchesOk;
    assert s'.preparers == map[];
  }

  lemma TickKeeps(s: State, d: Time)
    requires Inv(s) && Can(s, Tick(d))
    ensures Inv(Do(s, Tick(d)))
  {
    AlertsStand(s, Do(s, Tick(d)));
    WatchesStand(s, Do(s, Tick(d)));
    hide StreamOk, AlertsOk, LedgerOk, WatchesOk;
  }

  /** No step breaks the invariant. */
  lemma StepKeepsInv(s: State, a: Step)
    requires Inv(s) && Can(s, a)
    ensures Inv(Do(s, a))
  {
    hide Inv;
    match a {
      case Failure(c) => FailureKeeps(s, c);
      case Connected(c) => EndingKeeps(s, c, true);
      case ChannelStops(c) => EndingKeeps(s, c, false);
      case Expired(c, start, running) =>
        if WatchOf(s, c).downSince == Some(start) && !WatchOf(s, c).alerted {
          if !running { EndingKeeps(s, c, false); }
          else if StartsOutage(s.p, c) { StartingKeeps(s, c, start); }
          else { JoiningKeeps(s, c, start); }
        }
      case FinishDown(k) => FinishingKeeps(s, k);
      case Tick(d) => TickKeeps(s, d);
      case SendDown(k) => SendingDownKeeps(s, k);
      case SendUp(k) => SendingUpKeeps(s, k);
    }
  }

  // ---- Whole runs ----

  ghost predicate Follows(s: State, s': State) { exists a :: Can(s, a) && s' == Do(s, a) }

  ghost predicate IsRun(run: seq<State>) {
    |run| > 0 && run[0] == Initial(run[0].threshold, run[0].checkTime) && forall i :: 0 <= i < |run| - 1 ==> Follows(run[i], run[i + 1])
  }

  lemma {:induction false} RunKeepsInv(run: seq<State>, i: nat)
    requires IsRun(run) && i < |run| && 0 <= run[0].checkTime < run[0].threshold
    ensures Inv(run[i])
  {
    if i > 0 {
      RunKeepsInv(run, i - 1);
      assert Follows(run[i - 1], run[i]);
      var a :| Can(run[i - 1], a) && run[i] == Do(run[i - 1], a);
      StepKeepsInv(run[i - 1], a);
    }
  }

  lemma EndingKeepsAgreement(s: State, c: Channel, reconnects: bool)
    requires DownIsWatched(s) && AffectedOk(s.p)
    ensures DownIsWatched(Ends(s, c, reconnects)) && AffectedOk(Ends(s, c, reconnects).p)
  {
  }

  lemma ExpiringKeepsAgreement(s: State, a: Step)
    requires DownIsWatched(s) && AffectedOk(s.p) && Can(s, a) && a.Expired?
    ensures DownIsWatched(Do(s, a)) && AffectedOk(Do(s, a).p)
  {
    EndingKeepsAgreement(s, a.c, false);
    hide Ends;
  }

  /** However long the preparation of a down alert may take, */
  lemma StepKeepsAgreement(s: State, a: Step)
    requires DownIsWatched(s) && AffectedOk(s.p) && Can(s, a)
    ensures DownIsWatched(Do(s, a)) && AffectedOk(Do(s, a).p)
  {
    match a {
      case Connected(c) => EndingKeepsAgreement(s, c, true);
      case ChannelStops(c) => EndingKeepsAgreement(s, c, false);
      case Expired(_, _, _) => ExpiringKeepsAgreement(s, a);
      case _ =>
    }
    hide Ends, AffectedOk, Expire;
  }

  /** the aggregator and the watches agree on what is down, and an outage is alerted while a channel it affected is still down. */
  lemma {:induction false} AggregatorAgrees(run: seq<State>, i: nat)
    requires IsRun(run) && i < |run|
    ensures var s := run[i];
      s.p.affected <= s.p.down.Keys && (s.p.alerted <==> s.p.affected != {})
      && forall c :: c in s.p.down <==> WatchOf(s, c).downSince.Some?
  {
    if i > 0 {
      AggregatorAgrees(run, i - 1);
      assert Follows(run[i - 1], run[i]);
      var a :| Can(run[i - 1], a) && run[i] == Do(run[i - 1], a);
      StepKeepsAgreement(run[i - 1], a);
    }
  }

  /** A channel's outage starts at its first failure, and its start never moves while it lasts. */
  lemma StartStands(s: State, a: Step, c: Channel)
    requires Can(s, a) && WatchOf(Do(s, a), c).downSince.Some?
    ensures WatchOf(Do(s, a), c).downSince == if WatchOf(s, c).downSince.Some? then WatchOf(s, c).downSince else Some(s.now)
    ensures WatchOf(s, c).downSince.None? ==> a == Failure(c)
  {
    if a.Connected? || a.ChannelStops? || (a.Expired? && !a.running) {
      EndingForgets(s, a.c, a.Connected?);
      hide Ends;
    }
  }

  /** A channel that reconnects or stops is down and affected no more; the others are as they were. */
  lemma EndingForgets(s: State, c: Channel, reconnects: bool)
    ensures var s' := Ends(s, c, reconnects);
      WatchOf(s', c) == (if WatchOf(s, c).downSince.None? then WatchOf(s, c) else Watch(None, false))
      && (forall d :: d != c ==> WatchOf(s', d) == WatchOf(s, d))
      && (WatchOf(s, c).downSince.Some? ==> c !in s'.p.down && c !in s'.p.affected)
      && (forall d :: d != c ==> (d in s'.p.affected <==> d in s.p.affected) && (d in s'.p.down <==> d in s.p.down))
  {
  }

  lemma EndedIsForgotten(s: State, a: Step)
    requires Inv(s) && Can(s, a)
    requires a.Connected? || a.ChannelStops? || (a.Expired? && !a.running && WatchOf(s, a.c) == Watch(Some(a.start), false))
    ensures var s' := Do(s, a); WatchOf(s', a.c).downSince.None? && a.c !in s'.p.down && a.c !in s'.p.affected
  {
    EndingForgets(s, a.c, a.Connected?);
    assert WatchesOk(s) && AffectedOk(s.p);
    hide Inv, Ends;
  }

  /** The first outage to last as long as the threshold raises an alert over all that is down, and a later one joins it. */
  lemma ExpiryAlerts(s: State, c: Channel, start: Time)
    requires Inv(s) && Can(s, Expired(c, start, true)) && WatchOf(s, c).downSince == Some(start) && !WatchOf(s, c).alerted
    ensures var s' := Do(s, Expired(c, start, true));
      s'.p.alerted && s'.p.down == s.p.down
      && if s.p.alerted then s'.p.affected == s.p.affected + {c} && s'.preparers == s.preparers && s'.p.number == s.p.number
         else s'.p.affected == s.p.down.Keys && s'.p.number == s.p.number + 1
              && s'.preparers == map[s'.p.number := Preparer(s.now, false)]
  {
    if StartsOutage(s.p, c) { StartFindsNoPreparer(s, c, start); }
    hide StreamOk, AlertsOk, LedgerOk;
  }

  /** No alert is sent twice, and no outage's up alert before its down alert. */
  lemma UpFollowsDown(run: seq<State>, i: nat, j: nat)
    requires IsRun(run) && i < |run| && j < |run[i].stream| && 0 <= run[0].checkTime < run[0].threshold
    ensures run[i].stream[j] !in run[i].stream[..j]
    ensures run[i].stream[j].Up? ==> Down(run[i].stream[j].k) in run[i].stream[..j]
  {
    RunKeepsInv(run, i);
  }

  /** Once nothing is being prepared or sent, every outage has had its down alert, and its up alert exactly if it is over and a channel it affected reconnected. */
  lemma OneUpPerDownIff(run: seq<State>, i: nat, k: int)
    requires IsRun(run) && i < |run| && 0 < k <= run[i].p.number && 0 <= run[0].checkTime < run[0].threshold
    requires run[i].preparers == map[] && run[i].ups == {}
    ensures Down(k) in run[i].stream
    ensures Up(k) in run[i].stream <==> k in run[i].ended && k in run[i].reconnected
  {
    RunKeepsInv(run, i);
    assert !run[i].p.preparing by { assert PreparingOk(run[i]); }
    hide StreamOk, WatchesOk;
  }

  // ---- When preparing a down alert may outlast the threshold ----

  ghost predicate Reachable(s: State, threshold: Time, checkTime: Time) {
    exists run :: IsRun(run) && run[0] == Initial(threshold, checkTime) && run[|run| - 1] == s
  }

  lemma Start(threshold: Time, checkTime: Time)
    ensures Reachable(Initial(threshold, checkTime), threshold, checkTime)
  {
    var run := [Initial(threshold, checkTime)];
    assert IsRun(run) && run[|run| - 1] == run[0];
  }

  lemma Then(s: State, a: Step, threshold: Time, checkTime: Time)
    requires Reachable(s, threshold, checkTime) && Can(s, a)
    ensures Reachable(Do(s, a), threshold, checkTime)
  {
    var run :| IsRun(run) && run[0] == Initial(threshold, checkTime) && run[|run| - 1] == s;
    assert Follows(s, Do(s, a));
    var run' := run + [Do(s, a)];
    assert IsRun(run') && run'[0] == run[0] && run'[|run'| - 1] == Do(s, a);
  }

  /** A second outage starts while the first one's down alert is still in preparation. */
  lemma TwoInPreparation(t: Time, u: Time) returns (s: State)
    requires 0 <= t <= u
    ensures Reachable(s, t, u) && s.stream == [] && s.ups == {} && s.preparers == map[1 := Preparer(t, false), 2 := Preparer(t + t, false)]
    ensures s.watches == map[0 := Watch(Some(t), true)] && s.p == Platform(map[0 := t], {0}, true, {}, true, Some(1), 2)
  {
    Start(t, u);
    s := Initial(t, u);
    hide Reachable;
    Then(s, Failure(0), t, u);
    s := Do(s, Failure(0));
    Then(s, Tick(t), t, u);
    s := Do(s, Tick(t));
    Then(s, Expired(0, 0, true), t, u);
    s := Do(s, Expired(0, 0, true));
    Then(s, Connected(0), t, u);
    s := Do(s, Connected(0));
    Then(s, Failure(0), t, u);
    s := Do(s, Failure(0));
    Then(s, Tick(t), t, u);
    s := Do(s, Tick(t));
    Then(s, Expired(0, t, true), t, u);
    s := Do(s, Expired(0, t, true));
  }

  /** Then sending the first releases the second's up alert, which overtakes its down alert. */
  lemma UpMayOvertakeDown(t: Time, u: Time) returns (s: State)
    requires 0 <= t <= u
    ensures Reachable(s, t, u) && Up(2) in s.stream && Down(2) !in s.stream
  {
    s := TwoInPreparation(t, u);
    hide Reachable;
    Then(s, SendDown(1), t, u);
    s := Do(s, SendDown(1));
    Then(s, FinishDown(1), t, u);
    s := Do(s, FinishDown(1));
    Then(s, Connected(0), t, u);
    s := Do(s, Connected(0));
    Then(s, SendUp(2), t, u);
    s := Do(s, SendUp(2));
  }

  // ---- In place ----

  /** One platform of connAggregator; each method runs under the aggregator's lock. */
  class Aggregator {
    var down: map<Channel, Time>
    var affected: set<Channel>
    var alerted: bool
    var recovered: set<Channel>
    var preparing: bool
    var heldUp: Option<int>
    var number: int

    ghost function View(): Platform
      reads this
    {
      Platform(down, affected, alerted, recovered, preparing, heldUp, number)
    }

    constructor ()
      ensures View() == NoOutage
    {
      down, affected, alerted, recovered, preparing, heldUp, number := map[], {}, false, {}, false, None, 0;
    }

    /** failure */
    method RecordFailure(c: Channel, since: Time)
      modifies this
      ensures View() == old(View()).(down := old(down)[c := since])
    {
      down := down[c := since];
    }

    /** expired: whether this raises the down alert, and what it counts. */
    method Expired(c: Channel) returns (raised: Option<set<Channel>>)
      requires AffectedOk(View())
      modifies this
      ensures View() == Expire(old(View()), c)
      ensures raised.Some? <==> StartsOutage(old(View()), c)
      ensures raised.Some? ==> raised.value == affected == down.Keys
    {
      if c !in down { return None; }
      if alerted {
        affected := affected + {c};
        return None;
      }
      alerted, preparing, number := true, true, number + 1;
      affected := affected + down.Keys;
      return Some(affected);
    }

    /** connected (reconnects) and stopped: the up alert to send now, if any. */
    method LeaveLocked(c: Channel, reconnects: bool) returns (up: Option<int>)
      modifies this
      ensures View() == Leave(old(View()), c, reconnects) && up == LeaveUp(old(View()), c, reconnects)
    {
      down := down - {c};
      if c !in affected { return None; }
      affected := affected - {c};
      if reconnects {
        recovered := recovered + {c};
      }
      if affected != {} { return None; }
      up := if recovered != {} then Some(number) else None;
      alerted, recovered := false, {};
      if preparing {
        heldUp, up := up, None;
      }
    }

    /** downSent: the up alert held meanwhile, if any. */
    method DownSent() returns (up: Option<int>)
      modifies this
      ensures View() == Sent(old(View())) && up == old(heldUp)
    {
      up := heldUp;
      preparing, heldUp := false, None;
    }
  }
}
