/**
 * Taking the next turn's messages out of a session's queue, and merging them
 * into the one message the turn answers.
 */
module Batching {
  import opened Common

  /**
   * An inbound message. arrival numbers the arrivals: the program has no such
   * field, it only tells two equal messages apart here.
   */
  datatype Message = Message(
    arrival: int,
    channel: string,
    chatId: string,
    messageId: string,
    content: string,
    media: seq<string>,
    metadata: map<string, string>,
    isInternal: bool)

  const META_ORIGIN_CHANNEL := "origin_channel"
  const META_REPLY_REQUIRED := "reply_required"

  function Metadata(m: Message, key: string): string { if key in m.metadata then m.metadata[key] else "" }

  predicate ReplyRequired(m: Message) { Metadata(m, META_REPLY_REQUIRED) == "1" }

  /** The first word starts with a command prefix. */
  predicate HasCommandPrefix(content: string) {
    content != "" && if IsSpace(content[0]) then HasCommandPrefix(content[1..]) else content[0] in "/!"
  }

  /** A turn of its own: a command, or a message that requires its own final reply. */
  predicate RunsAlone(m: Message) { HasCommandPrefix(m.content) || ReplyRequired(m) }

  /** That is, white space and then one. */
  lemma {:induction false} HasCommandPrefixIff(content: string)
    ensures HasCommandPrefix(content)
      <==> exists i :: 0 <= i < |content| && (content[i] == '/' || content[i] == '!') && forall j :: 0 <= j < i ==> IsSpace(content[j])
  {
    if content != "" && IsSpace(content[0]) {
      var rest := content[1..];
      HasCommandPrefixIff(rest);
      if HasCommandPrefix(content) {
        var i :| 0 <= i < |rest| && (rest[i] == '/' || rest[i] == '!') && forall j :: 0 <= j < i ==> IsSpace(rest[j]);
        assert content[i + 1] == rest[i];
        forall j | 0 <= j < i + 1 ensures IsSpace(content[j]) { if j > 0 { assert content[j] == rest[j - 1]; } }
      }
      if i :| 0 <= i < |content| && (content[i] == '/' || content[i] == '!') && forall j :: 0 <= j < i ==> IsSpace(content[j]) {
        assert rest[i - 1] == content[i];
        forall j | 0 <= j < i - 1 ensures IsSpace(rest[j]) { assert rest[j] == content[j + 1]; }
      }
    }
  }

  // ---- Which chat a message belongs to ----

  function ChatKey(channel: string, origin: string, chatId: string): string { channel + ":" + origin + ":" + chatId }

  function QueuedChat(m: Message): string { ChatKey(m.channel, Metadata(m, META_ORIGIN_CHANNEL), m.chatId) }

  lemma {:induction false} PrefixEndsAtColon(a: string, x: string, b: string, y: string)
    requires ':' !in a && ':' !in b && a + ":" + x == b + ":" + y
    ensures a == b && x == y
  {
    var s, t := a + ":" + x, b + ":" + y;
    assert s[|a|] == ':' && t[|b|] == ':';
    assert forall i :: 0 <= i < |a| ==> s[i] == a[i] && s[i] in a;
    assert forall i :: 0 <= i < |b| ==> t[i] == b[i] && t[i] in b;
    assert |a| == |b|;
    assert a == s[..|a|] && b == t[..|b|] && x == s[|a| + 1..] && y == t[|b| + 1..];
  }

  /** With no colon in the channel names, the key tells any two chats apart. */
  lemma ChatKeyIsInjective(c: string, o: string, id: string, c': string, o': string, id': string)
    requires ':' !in c && ':' !in c' && ':' !in o && ':' !in o'
    ensures ChatKey(c, o, id) == ChatKey(c', o', id') <==> c == c' && o == o' && id == id'
  {
    if ChatKey(c, o, id) == ChatKey(c', o', id') {
      assert c + ":" + (o + ":" + id) == ChatKey(c, o, id);
      assert c' + ":" + (o' + ":" + id') == ChatKey(c', o', id');
      PrefixEndsAtColon(c, o + ":" + id, c', o' + ":" + id');
      PrefixEndsAtColon(o, id, o', id');
    }
  }

  /** So two messages are of one chat exactly when channel, origin and chat id are the same: a system message's origin counts. */
  lemma QueuedChatsTellApart(m: Message, n: Message)
    requires ':' !in m.channel && ':' !in n.channel
    requires ':' !in Metadata(m, "origin_channel") && ':' !in Metadata(n, "origin_channel")
    ensures QueuedChat(m) == QueuedChat(n)
      <==> m.channel == n.channel && Metadata(m, "origin_channel") == Metadata(n, "origin_channel") && m.chatId == n.chatId
  {
    ChatKeyIsInjective(m.channel, Metadata(m, "origin_channel"), m.chatId, n.channel, Metadata(n, "origin_channel"), n.chatId);
  }

  /** A text with a colon, cut at the first one. */
  lemma {:induction false} FirstColon(s: string) returns (a: string, x: string)
    requires ':' in s
    ensures s == a + ":" + x && ':' !in a
  {
    if s[0] == ':' {
      a, x := "", s[1..];
    } else {
      var b;
      b, x := FirstColon(s[1..]);
      a := [s[0]] + b;
      assert s == [s[0]] + s[1..];
    }
  }

  /** Another reading of a key, with no colon in either name. */
  lemma ColonFreeReading(c: string, o: string, id: string) returns (c': string, o': string, id': string)
    ensures ChatKey(c, o, id) == ChatKey(c', o', id') && ':' !in c' && ':' !in o'
  {
    var key, rest := ChatKey(c, o, id), o + ":" + id;
    assert key == c + ":" + rest && rest[|o|] == ':' && key[|c|] == ':';
    var x;
    c', x := FirstColon(key);
    assert ':' in x by {
      assert key[|c| + 1 + |o|] == ':' && |c'| <= |c|;
      assert x[|c| - |c'| + |o|] == ':';
    }
    o', id' := FirstColon(x);
  }

  /** No other chat of colon-free names has this chat's key. */
  ghost predicate TellsApart(c: string, o: string) {
    forall id, c', o', id' :: ':' !in c' && ':' !in o' && ChatKey(c, o, id) == ChatKey(c', o', id') ==> c == c' && o == o' && id == id'
  }

  /** The key tells a channel's chats from all chats of colon-free names exactly when its own names have no colon. */
  lemma TellsApartIff(c: string, o: string)
    ensures TellsApart(c, o) <==> ':' !in c && ':' !in o
  {
    if ':' !in c && ':' !in o {
      forall id, c', o', id' | ':' !in c' && ':' !in o' && ChatKey(c, o, id) == ChatKey(c', o', id')
        ensures c == c' && o == o' && id == id'
      {
        ChatKeyIsInjective(c, o, id, c', o', id');
      }
    } else {
      var c', o', id' := ColonFreeReading(c, o, "");
      assert c != c' || o != o';
    }
  }

  /** Some chat of channel c and some chat of channel d have the same key, both without an origin, as all but system messages are. */
  ghost predicate PlainChatsCollide(c: string, d: string) {
    exists id, id' :: ChatKey(c, "", id) == ChatKey(d, "", id')
  }

  /** Chats of two channels may share a key exactly when the longer name goes on where the shorter one, and two colons, end. */
  lemma PlainChatsCollideIff(c: string, d: string)
    requires |c| <= |d|
    ensures PlainChatsCollide(c, d) <==> c + "::" <= d + "::"
  {
    forall id: string ensures ChatKey(c, "", id) == (c + "::") + id && ChatKey(d, "", id) == (d + "::") + id {}
    if PlainChatsCollide(c, d) {
      var id, id' :| ChatKey(c, "", id) == ChatKey(d, "", id');
      assert (c + "::") + id == (d + "::") + id';
      assert c + "::" == ((d + "::") + id')[..|c| + 2] == (d + "::")[..|c| + 2];
    }
    if c + "::" <= d + "::" {
      var more := (d + "::")[|c| + 2..];
      assert (c + "::") + more == (d + "::") + "";
      assert ChatKey(c, "", more) == ChatKey(d, "", "");
    }
  }

  lemma ReadEitherWay(c: string, x: string, id: string)
    ensures ChatKey(c, "", x + "::" + id) == ChatKey(c + "::" + x, "", id)
  {
    assert c + ":" + "" + ":" + (x + "::" + id) == (c + "::" + x) + ":" + "" + ":" + id;
  }

  /**
   * Two messages from different channels, with no origin, that one batch may
   * hold: the web UI's client names its session, and an account its channel.
   */
  lemma ChatKeysMayCollide() returns (m: Message, n: Message)
    ensures m.channel != n.channel && META_ORIGIN_CHANNEL !in m.metadata && META_ORIGIN_CHANNEL !in n.metadata
    ensures QueuedChat(m) == QueuedChat(n) && Batch([m, n], false) == [m, n]
  {
    m := Message(0, "webui", "webui:x::+1555", "", "hello", [], map[], false);
    n := Message(1, "webui::webui:x", "+1555", "", "hello", [], map[], false);
    assert m.chatId == "webui:x" + "::" + "+1555" && n.channel == "webui" + "::" + "webui:x";
    ReadEitherWay("webui", "webui:x", "+1555");
    hide ChatKey;
    TogetherInABatch(m, n);
  }

  lemma TogetherInABatch(m: Message, n: Message)
    requires QueuedChat(m) == QueuedChat(n) && !RunsAlone(m) && !RunsAlone(n)
    ensures Batch([m, n], false) == [m, n]
  {
    var q := [m, n];
    assert !Stopped(q, 1);
    assert Joins(q, false, 0) && Joins(q, false, 1);
    assert Chosen(q, false, true, 0) == [] && Chosen(q, false, true, 1) == [m];
    hide QueuedChat, RunsAlone;
    assert Chosen(q, false, true, 2) == [m] + [n];
  }

  // ---- What a batch is ----

  /** Something of the first message's chat, after it and up to i, must run alone. */
  ghost predicate Stopped(q: seq<Message>, i: nat)
    requires 0 < i < |q|
  {
    exists j :: 1 <= j <= i && QueuedChat(q[j]) == QueuedChat(q[0]) && RunsAlone(q[j])
  }

  /** The message at i goes into the next batch. */
  ghost predicate Joins(q: seq<Message>, eachAlone: bool, i: nat)
    requires i < |q|
  {
    i == 0 || (!eachAlone && !RunsAlone(q[0]) && QueuedChat(q[i]) == QueuedChat(q[0]) && !Stopped(q, i))
  }

  /** Of the first n messages, those that join the batch, or those that do not. */
  ghost function Chosen(q: seq<Message>, eachAlone: bool, joined: bool, n: nat): seq<Message>
    requires n <= |q|
  {
    if n == 0 then []
    else
      var before := Chosen(q, eachAlone, joined, n - 1);
      if Joins(q, eachAlone, n - 1) == joined then before + [q[n - 1]] else before
  }

  ghost function Batch(q: seq<Message>, eachAlone: bool): seq<Message> { Chosen(q, eachAlone, true, |q|) }

  ghost function Rest(q: seq<Message>, eachAlone: bool): seq<Message> { Chosen(q, eachAlone, false, |q|) }

  ghost function OfChat(q: seq<Message>, chat: string): seq<Message> {
    if q == [] then []
    else
      var before := OfChat(q[..|q| - 1], chat);
      if QueuedChat(q[|q| - 1]) == chat then before + [q[|q| - 1]] else before
  }

  lemma OfChatAppends(q: seq<Message>, m: Message, chat: string)
    ensures OfChat(q + [m], chat) == OfChat(q, chat) + if QueuedChat(m) == chat then [m] else []
  {
    assert (q + [m])[..|q|] == q;
  }

  lemma {:induction false} OfChatJoins(a: seq<Message>, b: seq<Message>, chat: string)
    ensures OfChat(a + b, chat) == OfChat(a, chat) + OfChat(b, chat)
  {
    if b == [] {
      assert a + b == a;
    } else {
      var init, last := b[..|b| - 1], b[|b| - 1];
      assert a + b == (a + init) + [last];
      OfChatAppends(a + init, last, chat);
      OfChatJoins(a, init, chat);
    }
  }

  lemma StoppedStays(q: seq<Message>, i: nat, j: nat)
    requires 0 < i <= j < |q|
    ensures Stopped(q, i) ==> Stopped(q, j)
  {
  }

  /** A message that joins was preceded, in its chat, only by messages that join. */
  lemma {:induction false} JoinersComeFirst(q: seq<Message>, eachAlone: bool, n: nat, i: nat)
    requires n <= i < |q| && Joins(q, eachAlone, i) && i > 0
    ensures OfChat(Chosen(q, eachAlone, false, n), QueuedChat(q[0])) == [] && QueuedChat(q[i]) == QueuedChat(q[0])
  {
    if n > 0 {
      JoinersComeFirst(q, eachAlone, n - 1, i);
      if n > 1 { StoppedStays(q, n - 1, i); }
      assert Joins(q, eachAlone, n - 1) || QueuedChat(q[n - 1]) != QueuedChat(q[0]);
      OfChatAppends(Chosen(q, eachAlone, false, n - 1), q[n - 1], QueuedChat(q[0]));
      hide Joins, QueuedChat, OfChat;
    }
  }

  /** A batch holds messages of one chat only. */
  lemma {:induction false} BatchIsOneChat(q: seq<Message>, eachAlone: bool, n: nat, m: Message)
    requires n <= |q| && m in Chosen(q, eachAlone, true, n)
    ensures QueuedChat(m) == QueuedChat(q[0])
  {
    if m in Chosen(q, eachAlone, true, n - 1) { BatchIsOneChat(q, eachAlone, n - 1, m); }
  }

  lemma OneMore(q: seq<Message>, eachAlone: bool, n: nat)
    requires 0 < n <= |q|
    ensures var b, r, m := Chosen(q, eachAlone, true, n - 1), Chosen(q, eachAlone, false, n - 1), q[n - 1];
      Chosen(q, eachAlone, true, n) == (if Joins(q, eachAlone, n - 1) then b + [m] else b)
      && Chosen(q, eachAlone, false, n) == if Joins(q, eachAlone, n - 1) then r else r + [m]
  {
  }

  lemma OneMoreOfChat(q: seq<Message>, eachAlone: bool, n: nat, chat: string)
    requires 0 < n <= |q|
    ensures var b, r, m := Chosen(q, eachAlone, true, n - 1), Chosen(q, eachAlone, false, n - 1), q[n - 1];
      var add := if QueuedChat(m) == chat then [m] else [];
      OfChat(q[..n], chat) == OfChat(q[..n - 1], chat) + add
      && OfChat(Chosen(q, eachAlone, true, n), chat) == OfChat(b, chat) + (if Joins(q, eachAlone, n - 1) then add else [])
      && OfChat(Chosen(q, eachAlone, false, n), chat) == OfChat(r, chat) + (if Joins(q, eachAlone, n - 1) then [] else add)
      && (Joins(q, eachAlone, n - 1) ==> OfChat(r, chat) == [] || add == [])
  {
    hide QueuedChat, Joins;
    var b, r, m := Chosen(q, eachAlone, true, n - 1), Chosen(q, eachAlone, false, n - 1), q[n - 1];
    assert q[..n] == q[..n - 1] + [m];
    OfChatAppends(q[..n - 1], m, chat);
    OfChatAppends(b, m, chat);
    OfChatAppends(r, m, chat);
    OneMore(q, eachAlone, n);
    if Joins(q, eachAlone, n - 1) {
      if n > 1 { JoinersComeFirst(q, eachAlone, n - 1, n - 1); } else { NothingBefore(q, eachAlone, chat); }
    }
  }

  /** The batch, then the rest: each chat's messages in the order they arrived. */
  lemma {:induction false} ChatOrderIsKept(q: seq<Message>, eachAlone: bool, n: nat, chat: string)
    requires n <= |q|
    ensures OfChat(Chosen(q, eachAlone, true, n), chat) + OfChat(Chosen(q, eachAlone, false, n), chat) == OfChat(q[..n], chat)
  {
    hide QueuedChat, Joins;
    if n > 0 {
      ChatOrderIsKept(q, eachAlone, n - 1, chat);
      OneMoreOfChat(q, eachAlone, n, chat);
      var b, r := OfChat(Chosen(q, eachAlone, true, n - 1), chat), OfChat(Chosen(q, eachAlone, false, n - 1), chat);
      var add := if QueuedChat(q[n - 1]) == chat then [q[n - 1]] else [];
      AddInOrder(b, r, add);
    }
  }

  lemma AddInOrder(b: seq<Message>, r: seq<Message>, add: seq<Message>)
    ensures b + (r + add) == (b + r) + add && b + [] == b && r + [] == r
    ensures r == [] || add == [] ==> (b + add) + r == (b + r) + add
  {
  }

  lemma NothingBefore(q: seq<Message>, eachAlone: bool, chat: string)
    ensures OfChat(Chosen(q, eachAlone, false, 0), chat) == []
  {
  }

  /** No message is lost or taken twice. */
  lemma {:induction false} NothingLost(q: seq<Message>, eachAlone: bool, n: nat)
    requires n <= |q|
    ensures multiset(Chosen(q, eachAlone, true, n)) + multiset(Chosen(q, eachAlone, false, n)) == multiset(q[..n])
  {
    hide Joins;
    if n > 0 {
      var b, r, m := Chosen(q, eachAlone, true, n - 1), Chosen(q, eachAlone, false, n - 1), q[n - 1];
      var whole := q[..n - 1];
      NothingLost(q, eachAlone, n - 1);
      assert q[..n] == whole + [m];
      OneMoreCounted(b, r, whole, m);
      hide Chosen;
      OneMore(q, eachAlone, n);
    }
  }

  lemma OneMoreCounted(b: seq<Message>, r: seq<Message>, whole: seq<Message>, m: Message)
    requires multiset(b) + multiset(r) == multiset(whole)
    ensures multiset(b + [m]) + multiset(r) == multiset(whole + [m])
    ensures multiset(b) + multiset(r + [m]) == multiset(whole + [m])
  {
  }

  /** What must run alone is a batch of its own, and so is every message of a single-shot agent. */
  lemma {:induction false} AloneIsAlone(q: seq<Message>, eachAlone: bool, n: nat, m: Message)
    requires 0 < n <= |q| && m in Chosen(q, eachAlone, true, n)
    requires eachAlone || HasCommandPrefix(m.content) || Metadata(m, "reply_required") == "1"
    ensures Chosen(q, eachAlone, true, n) == [q[0]] && m == q[0]
  {
    if n > 1 {
      if m in Chosen(q, eachAlone, true, n - 1) {
        AloneIsAlone(q, eachAlone, n - 1, m);
      } else {
        assert Stopped(q, n - 1);
      }
    }
  }

  /** The oldest message is always taken first. */
  lemma {:induction false} OldestComesFirst(q: seq<Message>, eachAlone: bool, n: nat)
    requires 0 < n <= |q|
    ensures Chosen(q, eachAlone, true, n) != [] && Chosen(q, eachAlone, true, n)[0] == q[0]
    ensures |Chosen(q, eachAlone, false, n)| < n
  {
    if n > 1 { OldestComesFirst(q, eachAlone, n - 1); }
  }

  /** Where a message that stays behind is found in the rest: before its old place. */
  lemma {:induction false} MovesUp(q: seq<Message>, eachAlone: bool, i: nat, n: nat)
    requires i < n <= |q| && !Joins(q, eachAlone, i)
    ensures var k := |Chosen(q, eachAlone, false, i)|;
      k < i && k < |Chosen(q, eachAlone, false, n)| && Chosen(q, eachAlone, false, n)[k] == q[i]
  {
    if n == i + 1 {
      OldestComesFirst(q, eachAlone, i);
    } else {
      MovesUp(q, eachAlone, i, n - 1);
    }
  }

  lemma {:induction false} JoinerIsTaken(q: seq<Message>, eachAlone: bool, i: nat, n: nat)
    requires i < n <= |q| && Joins(q, eachAlone, i)
    ensures q[i] in Chosen(q, eachAlone, true, n)
  {
    if n > i + 1 { JoinerIsTaken(q, eachAlone, i, n - 1); }
  }

  /** k is where the batch ends: at the first later message of its chat that must run alone, or with the queue. */
  ghost predicate EndsAt(q: seq<Message>, k: nat) {
    0 < k <= |q| && (k == |q| || (QueuedChat(q[k]) == QueuedChat(q[0]) && RunsAlone(q[k])))
    && forall j :: 1 <= j < k && QueuedChat(q[j]) == QueuedChat(q[0]) ==> !RunsAlone(q[j])
  }

  lemma {:induction false} ChosenUpTo(q: seq<Message>, k: nat, n: nat)
    requires EndsAt(q, k) && !RunsAlone(q[0]) && n <= |q|
    ensures Chosen(q, false, true, n) == OfChat(q[..if n < k then n else k], QueuedChat(q[0]))
  {
    hide QueuedChat, RunsAlone;
    if n > 0 {
      ChosenUpTo(q, k, n - 1);
      if n <= k {
        assert q[..n] == q[..n - 1] + [q[n - 1]];
        OfChatAppends(q[..n - 1], q[n - 1], QueuedChat(q[0]));
      } else {
        assert Stopped(q, n - 1);
      }
    }
  }

  /** The batch is the first message alone, or all of its chat up to the next that must run alone. */
  lemma BatchIsTheChatUpTo(q: seq<Message>, eachAlone: bool, k: nat)
    requires EndsAt(q, k)
    ensures Batch(q, eachAlone) == if eachAlone || RunsAlone(q[0]) then [q[0]] else OfChat(q[..k], QueuedChat(q[0]))
  {
    if eachAlone || RunsAlone(q[0]) {
      OldestComesFirst(q, eachAlone, |q|);
      AloneIsAlone(q, eachAlone, |q|, q[0]);
    } else {
      ChosenUpTo(q, k, |q|);
    }
  }

  // ---- Batch after batch, with arrivals in between ----

  /** One take, and what arrives before the next. */
  datatype Round = Round(eachAlone: bool, arrivals: seq<Message>)

  ghost function Next(q: seq<Message>, r: Round): seq<Message> { Rest(q, r.eachAlone) + r.arrivals }

  /** The k-th batch taken. */
  ghost function BatchAt(q: seq<Message>, rounds: seq<Round>, k: nat): seq<Message>
    requires k < |rounds|
    decreases rounds
  {
    if k == 0 then Batch(q, rounds[0].eachAlone) else BatchAt(Next(q, rounds[0]), rounds[1..], k - 1)
  }

  ghost function AllTaken(q: seq<Message>, rounds: seq<Round>): seq<Message>
    decreases rounds
  {
    if rounds == [] then [] else Batch(q, rounds[0].eachAlone) + AllTaken(Next(q, rounds[0]), rounds[1..])
  }

  ghost function Left(q: seq<Message>, rounds: seq<Round>): seq<Message>
    decreases rounds
  {
    if rounds == [] then q else Left(Next(q, rounds[0]), rounds[1..])
  }

  ghost function AllArrivals(rounds: seq<Round>): seq<Message> {
    if rounds == [] then [] else rounds[0].arrivals + AllArrivals(rounds[1..])
  }

  /** Whatever arrives meanwhile, a message at index i is taken within i + 1 batches. */
  lemma {:induction false} TakenWithin(q: seq<Message>, rounds: seq<Round>, i: nat) returns (k: nat)
    requires i < |q| && i < |rounds|
    ensures k <= i && q[i] in BatchAt(q, rounds, k)
    decreases rounds
  {
    hide Joins, Chosen;
    if Joins(q, rounds[0].eachAlone, i) {
      JoinerIsTaken(q, rounds[0].eachAlone, i, |q|);
      k := 0;
    } else {
      MovesUp(q, rounds[0].eachAlone, i, |q|);
      var j := |Chosen(q, rounds[0].eachAlone, false, i)|;
      assert Next(q, rounds[0])[j] == q[i];
      k := TakenWithin(Next(q, rounds[0]), rounds[1..], j);
      k := k + 1;
    }
  }

  /** Over any run of takes and arrivals, each chat's messages come out in the order they arrived. */
  lemma {:induction false} EveryChatInOrder(q: seq<Message>, rounds: seq<Round>, chat: string)
    ensures OfChat(AllTaken(q, rounds), chat) + OfChat(Left(q, rounds), chat) == OfChat(q, chat) + OfChat(AllArrivals(rounds), chat)
    decreases rounds
  {
    if rounds != [] {
      var next, later := Next(q, rounds[0]), rounds[1..];
      EveryChatInOrder(next, later, chat);
      OneRoundOfChat(q, rounds, chat);
      var b, r, arrivals := Batch(q, rounds[0].eachAlone), Rest(q, rounds[0].eachAlone), rounds[0].arrivals;
      Regroup(OfChat(b, chat), OfChat(r, chat), OfChat(arrivals, chat), OfChat(AllTaken(next, later), chat),
              OfChat(Left(next, later), chat), OfChat(AllArrivals(later), chat));
    }
  }

  lemma OneRoundOfChat(q: seq<Message>, rounds: seq<Round>, chat: string)
    requires rounds != []
    ensures var b, r, arrivals := Batch(q, rounds[0].eachAlone), Rest(q, rounds[0].eachAlone), rounds[0].arrivals;
      var next, later := Next(q, rounds[0]), rounds[1..];
      OfChat(AllTaken(q, rounds), chat) == OfChat(b, chat) + OfChat(AllTaken(next, later), chat)
      && OfChat(Left(q, rounds), chat) == OfChat(Left(next, later), chat)
      && OfChat(AllArrivals(rounds), chat) == OfChat(arrivals, chat) + OfChat(AllArrivals(later), chat)
      && OfChat(next, chat) == OfChat(r, chat) + OfChat(arrivals, chat)
      && OfChat(b, chat) + OfChat(r, chat) == OfChat(q, chat)
  {
    var alone, arrivals, next, later := rounds[0].eachAlone, rounds[0].arrivals, Next(q, rounds[0]), rounds[1..];
    ChatOrderIsKept(q, alone, |q|, chat);
    assert q[..|q|] == q;
    OfChatJoins(Batch(q, alone), AllTaken(next, later), chat);
    OfChatJoins(Rest(q, alone), arrivals, chat);
    OfChatJoins(arrivals, AllArrivals(later), chat);
  }

  lemma Regroup(b: seq<Message>, r: seq<Message>, a: seq<Message>, t: seq<Message>, l: seq<Message>, m: seq<Message>)
    requires t + l == (r + a) + m
    ensures (b + t) + l == (b + r) + (a + m)
  {
    assert (b + t) + l == b + (t + l);
    assert (b + r) + (a + m) == b + ((r + a) + m);
  }

  /** None of them is lost or repeated. */
  lemma {:induction false} EveryMessageOnce(q: seq<Message>, rounds: seq<Round>)
    ensures multiset(AllTaken(q, rounds)) + multiset(Left(q, rounds)) == multiset(q) + multiset(AllArrivals(rounds))
    decreases rounds
  {
    if rounds != [] {
      var next, later := Next(q, rounds[0]), rounds[1..];
      EveryMessageOnce(next, later);
      var b, r := Batch(q, rounds[0].eachAlone), Rest(q, rounds[0].eachAlone);
      NothingLost(q, rounds[0].eachAlone, |q|);
      assert q[..|q|] == q;
      RegroupCounted(b, r, q, rounds[0].arrivals, AllTaken(next, later), Left(next, later), AllArrivals(later));
    }
  }

  lemma RegroupCounted(b: seq<Message>, r: seq<Message>, q: seq<Message>, a: seq<Message>,
                       t: seq<Message>, l: seq<Message>, m: seq<Message>)
    requires multiset(b) + multiset(r) == multiset(q)
    requires multiset(t) + multiset(l) == multiset(r + a) + multiset(m)
    ensures multiset(b + t) + multiset(l) == multiset(q) + multiset(a + m)
  {
    assert multiset(b + t) == multiset(b) + multiset(t) && multiset(a + m) == multiset(a) + multiset(m);
    Counts(multiset(b), multiset(r), multiset(a), multiset(t), multiset(l), multiset(m));
  }

  lemma Counts(b: multiset<Message>, r: multiset<Message>, a: multiset<Message>,
               t: multiset<Message>, l: multiset<Message>, m: multiset<Message>)
    requires t + l == r + a + m
    ensures b + t + l == b + r + (a + m)
  {
    assert b + t + l == b + (t + l) && b + r + (a + m) == b + (r + a + m);
  }

  // ---- Merging ----

  /** The contents, a newline between each two. */
  function Lines(batch: seq<Message>): string
    requires batch != []
  {
    if |batch| == 1 then batch[0].content else Lines(batch[..|batch| - 1]) + "\n" + batch[|batch| - 1].content
  }

  function AllMedia(batch: seq<Message>): seq<string> {
    if batch == [] then [] else AllMedia(batch[..|batch| - 1]) + batch[|batch| - 1].media
  }

  predicate AllInternal(batch: seq<Message>) { forall m :: m in batch ==> m.isInternal }

  function Merged(batch: seq<Message>): Message
    requires batch != []
  {
    batch[|batch| - 1].(content := Lines(batch), media := AllMedia(batch), isInternal := AllInternal(batch))
  }

  lemma {:induction false} LinesJoin(a: seq<Message>, b: seq<Message>)
    requires a != [] && b != []
    ensures Lines(a + b) == Lines(a) + "\n" + Lines(b) && AllMedia(a + b) == AllMedia(a) + AllMedia(b)
  {
    assert (a + b)[..|a + b| - 1] == a + b[..|b| - 1];
    if |b| == 1 {
      assert a + b[..0] == a;
      assert AllMedia(b) == AllMedia([]) + b[0].media;
    } else {
      LinesJoin(a, b[..|b| - 1]);
      assert Lines(a) + "\n" + (Lines(b[..|b| - 1]) + "\n" + b[|b| - 1].content) == (Lines(a) + "\n" + Lines(b[..|b| - 1])) + "\n" + b[|b| - 1].content;
    }
  }

  /** Merging in two goes is merging in one: every content and attachment is kept, in order. */
  lemma MergingIsAssociative(a: seq<Message>, b: seq<Message>)
    requires a != [] && b != []
    ensures Merged(a + b) == Merged([Merged(a), Merged(b)])
  {
    var x, y := Merged(a), Merged(b);
    LinesJoin(a, b);
    LinesJoin([x], [y]);
    assert [x, y] == [x] + [y];
    MergedAlone(x);
    MergedAlone(y);
    InternalJoins(a, b);
    InternalJoins([x], [y]);
    hide Lines, AllMedia, AllInternal;
  }

  lemma InternalJoins(a: seq<Message>, b: seq<Message>)
    ensures AllInternal(a + b) <==> AllInternal(a) && AllInternal(b)
  {
    assert forall m :: m in a + b <==> m in a || m in b;
  }

  /** A message taken alone is answered as it is. */
  lemma MergedAlone(m: Message)
    ensures Merged([m]) == m && AllMedia([m]) == m.media && (AllInternal([m]) <==> m.isInternal)
  {
    assert [m][..0] == [];
    assert AllMedia([m]) == AllMedia([]) + m.media;
    assert m in [m];
  }

  /** One message more: the content on a line of its own, the attachments last, and everything else the later message's, whose chat is answered. */
  lemma MergingOneMore(batch: seq<Message>, m: Message)
    requires batch != []
    ensures var all := Merged(batch);
      Merged(batch + [m]) == Message(m.arrival, m.channel, m.chatId, m.messageId, all.content + "\n" + m.content,
                                     all.media + m.media, m.metadata, all.isInternal && m.isInternal)
  {
    LinesJoin(batch, [m]);
    MergedAlone(m);
    InternalJoins(batch, [m]);
    hide Lines, AllMedia, AllInternal;
  }

  lemma {:induction false} CommandAcrossLines(a: string, b: string)
    ensures HasCommandPrefix(a + "\n" + b) ==> HasCommandPrefix(a) || HasCommandPrefix(b)
  {
    if a == "" {
      assert a + "\n" + b == "\n" + b && ("\n" + b)[1..] == b;
    } else {
      assert (a + "\n" + b)[1..] == a[1..] + "\n" + b;
      CommandAcrossLines(a[1..], b);
    }
  }

  lemma {:induction false} LinesMakeNoCommand(batch: seq<Message>)
    requires batch != [] && HasCommandPrefix(Lines(batch))
    ensures exists m :: m in batch && HasCommandPrefix(m.content)
  {
    if |batch| == 1 {
      assert batch[0] in batch;
    } else {
      var init := batch[..|batch| - 1];
      CommandAcrossLines(Lines(init), batch[|batch| - 1].content);
      assert batch[|batch| - 1] in batch;
      if HasCommandPrefix(Lines(init)) {
        LinesMakeNoCommand(init);
        var m :| m in init && HasCommandPrefix(m.content);
        assert m in batch;
      }
    }
  }

  /** The turn is a command's, or owes a reply, exactly when its one message does: merging hides and makes up neither. */
  lemma MergedRunsAloneIff(q: seq<Message>, eachAlone: bool)
    requires q != [] && Batch(q, eachAlone) != []
    ensures var turn := Merged(Batch(q, eachAlone));
      (ReplyRequired(turn) <==> ReplyRequired(q[0])) && (HasCommandPrefix(turn.content) <==> HasCommandPrefix(q[0].content))
      && (RunsAlone(q[0]) ==> turn == q[0])
  {
    var batch := Batch(q, eachAlone);
    OldestComesFirst(q, eachAlone, |q|);
    if m :| m in batch && RunsAlone(m) {
      AloneIsAlone(q, eachAlone, |q|, m);
      MergedAlone(q[0]);
    } else {
      assert q[0] in batch && batch[|batch| - 1] in batch;
      assert Metadata(Merged(batch), META_REPLY_REQUIRED) == Metadata(batch[|batch| - 1], META_REPLY_REQUIRED);
      if HasCommandPrefix(Merged(batch).content) { LinesMakeNoCommand(batch); }
    }
  }

  /** mergeMessages */
  method MergeMessages(batch: seq<Message>) returns (merged: Message)
    requires batch != []
    ensures merged == Merged(batch)
  {
    if |batch| == 1 {
      MergedAlone(batch[0]);
      assert batch == [batch[0]];
      return batch[0];
    }
    var content, media, isInternal := batch[0].content, batch[0].media, batch[0].isInternal;
    assert batch[..1][..0] == [];
    assert AllMedia(batch[..1]) == AllMedia([]) + batch[0].media;
    for i := 1 to |batch|
      invariant content == Lines(batch[..i]) && media == AllMedia(batch[..i])
      invariant isInternal <==> AllInternal(batch[..i])
    {
      assert batch[..i + 1] == batch[..i] + [batch[i]];
      content := content + "\n" + batch[i].content;
      media := media + batch[i].media;
      isInternal := isInternal && batch[i].isInternal;
    }
    assert batch[..|batch|] == batch;
    merged := batch[|batch| - 1].(content := content, media := media, isInternal := isInternal);
  }

  class Queue {
    var pending: seq<Message>

    constructor ()
      ensures pending == []
    {
      pending := [];
    }

    /** takeBatch */
    method TakeBatch(eachAlone: bool) returns (turn: Message, ok: bool)
      modifies this
      ensures ok <==> old(pending) != []
      ensures pending == Rest(old(pending), eachAlone)
      ensures ok ==> Batch(old(pending), eachAlone) != [] && turn == Merged(Batch(old(pending), eachAlone))
    {
      var queue := pending;
      if queue == [] {
        return Message(0, "", "", "", "", [], map[], false), false;
      }
      var first := queue[0];
      var chat := QueuedChat(first);
      var batch, rest := [first], [];
      var stop := eachAlone || RunsAlone(first);
      for i := 1 to |queue|
        invariant batch == Chosen(queue, eachAlone, true, i) && rest == Chosen(queue, eachAlone, false, i)
        invariant batch != []
        invariant stop <==> eachAlone || RunsAlone(first) || (i > 1 && Stopped(queue, i - 1))
      {
        var m := queue[i];
        assert Stopped(queue, i) <==> (i > 1 && Stopped(queue, i - 1)) || (QueuedChat(m) == chat && RunsAlone(m));
        if !stop && QueuedChat(m) == chat {
          if !RunsAlone(m) {
            batch := batch + [m];
            continue;
          }
          stop := true;
        }
        rest := rest + [m];
      }
      pending := rest;
      turn := MergeMessages(batch);
      ok := true;
    }
  }
}
