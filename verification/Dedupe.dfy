/**
 * The bounded cache of inbound message ids already seen, against the whole
 * history of what was recorded.
 */
module Dedupe {

  /** An inbound message id; only ever compared. */
  type Key = int
  type Time = int

  const SIZE := 1024
  const TTL: Time := 1_800_000_000_000   // 30 minutes, in nanoseconds

  /** A key recorded at a time. */
  datatype Recording = Recording(key: Key, at: Time)

  // ---- The history ----

  predicate Recorded(log: seq<Recording>, key: Key) { exists r :: r in log && r.key == key }

  /** When key was last recorded. */
  ghost function LastTime(log: seq<Recording>, key: Key): Time
    requires Recorded(log, key)
  {
    if log[|log| - 1].key == key then log[|log| - 1].at else LastTime(log[..|log| - 1], key)
  }

  /** The other keys recorded since key last was. */
  ghost function Since(log: seq<Recording>, key: Key): set<Key> {
    if log == [] || log[|log| - 1].key == key then {}
    else Since(log[..|log| - 1], key) + {log[|log| - 1].key}
  }

  /** What a call of duplicate is to answer. */
  ghost predicate IsDuplicate(log: seq<Recording>, key: Key, now: Time) {
    Recorded(log, key) && now - LastTime(log, key) < TTL && |Since(log, key)| < SIZE
  }

  // ---- Keys in the order of their last recording ----

  function Without(keys: seq<Key>, key: Key): (r: seq<Key>)
    ensures |r| <= |keys| && forall k :: k in r <==> k in keys && k != key
  {
    if keys == [] then []
    else if keys[|keys| - 1] == key then Without(keys[..|keys| - 1], key)
    else Without(keys[..|keys| - 1], key) + [keys[|keys| - 1]]
  }

  ghost predicate Distinct(keys: seq<Key>) { forall i, j :: 0 <= i < j < |keys| ==> keys[i] != keys[j] }

  lemma {:induction false} WithoutAbsent(keys: seq<Key>, key: Key)
    requires key !in keys
    ensures Without(keys, key) == keys
  {
    if keys != [] {
      WithoutAbsent(keys[..|keys| - 1], key);
      assert keys == keys[..|keys| - 1] + [keys[|keys| - 1]];
    }
  }

  lemma {:induction false} WithoutAt(keys: seq<Key>, i: nat)
    requires Distinct(keys) && i < |keys|
    ensures Without(keys, keys[i]) == keys[..i] + keys[i + 1..]
  {
    var init := keys[..|keys| - 1];
    if i == |keys| - 1 {
      WithoutAbsent(init, keys[i]);
    } else {
      WithoutAt(init, i);
      assert init[..i] == keys[..i] && init[i + 1..] + [keys[|keys| - 1]] == keys[i + 1..];
    }
  }

  /** All keys ever recorded, by their last recording. */
  ghost function Recent(log: seq<Recording>): seq<Key> {
    if log == [] then [] else Without(Recent(log[..|log| - 1]), log[|log| - 1].key) + [log[|log| - 1].key]
  }

  lemma DistinctWhenMoved(keys: seq<Key>, key: Key)
    requires Distinct(keys)
    ensures Distinct(Without(keys, key) + [key]) && |Without(keys, key)| == |keys| - if key in keys then 1 else 0
  {
    if key in keys {
      var i :| 0 <= i < |keys| && keys[i] == key;
      WithoutAt(keys, i);
    } else {
      WithoutAbsent(keys, key);
    }
  }

  lemma {:induction false} RecentIsDistinct(log: seq<Recording>)
    ensures Distinct(Recent(log)) && forall k :: k in Recent(log) <==> Recorded(log, k)
  {
    if log != [] {
      var init, last := log[..|log| - 1], log[|log| - 1];
      RecentIsDistinct(init);
      DistinctWhenMoved(Recent(init), last.key);
      assert log == init + [last];
      OneMoreRecorded(init, last);
      hide Without, Recorded, Distinct;
    }
  }

  lemma OneMoreRecorded(init: seq<Recording>, last: Recording)
    ensures forall k :: Recorded(init + [last], k) <==> k == last.key || Recorded(init, k)
  {
    assert (init + [last])[|init|] == last;
    forall k ensures Recorded(init + [last], k) <==> k == last.key || Recorded(init, k) {
      if Recorded(init, k) {
        var r :| r in init && r.key == k;
        assert r in init + [last];
      }
      if k == last.key { assert last in init + [last]; }
    }
  }

  ghost function Members(keys: seq<Key>): set<Key> { set k | k in keys }

  lemma {:induction false} MembersCount(keys: seq<Key>)
    requires Distinct(keys)
    ensures |Members(keys)| == |keys|
  {
    if keys != [] {
      var init, last := keys[..|keys| - 1], keys[|keys| - 1];
      MembersCount(init);
      assert keys == init + [last];
      assert last !in init;
      assert Members(keys) == Members(init) + {last};
    }
  }

  /** The keys after the last occurrence of key. */
  ghost function After(keys: seq<Key>, key: Key): seq<Key> {
    if keys == [] || keys[|keys| - 1] == key then [] else After(keys[..|keys| - 1], key) + [keys[|keys| - 1]]
  }

  lemma {:induction false} AfterIsTheEnd(keys: seq<Key>, key: Key)
    requires key in keys
    ensures |After(keys, key)| < |keys| && keys[|keys| - |After(keys, key)|..] == After(keys, key)
    ensures keys[|keys| - |After(keys, key)| - 1] == key
  {
    var last := keys[|keys| - 1];
    if last != key {
      var init := keys[..|keys| - 1];
      assert keys == init + [last];
      AfterIsTheEnd(init, key);
    }
  }

  lemma {:induction false} AfterWithout(keys: seq<Key>, key: Key, gone: Key)
    requires key != gone
    ensures After(Without(keys, gone), key) == Without(After(keys, key), gone)
  {
    if keys != [] {
      var init, last := keys[..|keys| - 1], keys[|keys| - 1];
      AfterWithout(init, key, gone);
      if last != gone && last != key {
        assert (Without(init, gone) + [last])[..|Without(init, gone)|] == Without(init, gone);
        assert (After(init, key) + [last])[..|After(init, key)|] == After(init, key);
      } else if last == key {
        assert After(Without(init, gone) + [last], key) == [];
      } else {
        assert (After(init, key) + [last])[..|After(init, key)|] == After(init, key);
      }
    }
  }

  /** What follows a key in that order is what was recorded since. */
  lemma {:induction false} AfterIsSince(log: seq<Recording>, key: Key)
    requires Recorded(log, key)
    ensures Members(After(Recent(log), key)) == Since(log, key)
  {
    var init, last := log[..|log| - 1], log[|log| - 1].key;
    var kept := Without(Recent(init), last);
    assert (kept + [last])[..|kept|] == kept;
    if last != key {
      assert log == init + [log[|log| - 1]];
      OneMoreRecorded(init, log[|log| - 1]);
      AfterIsSince(init, key);
      AfterWithout(Recent(init), key, last);
    }
  }

  /** Fewer than n keys follow key exactly when it is among the newest n. */
  lemma NewestByAfter(keys: seq<Key>, key: Key, n: nat)
    requires Distinct(keys) && key in keys
    ensures key in Newest(keys, n) <==> |After(keys, key)| < n
    ensures |Members(After(keys, key))| == |After(keys, key)|
  {
    AfterIsTheEnd(keys, key);
    MembersCount(After(keys, key));
    if |keys| > n && |After(keys, key)| < n {
      assert Newest(keys, n)[n - |After(keys, key)| - 1] == key;
    }
  }

  /** The newest n keys. */
  function Newest(keys: seq<Key>, n: nat): seq<Key> { if |keys| <= n then keys else keys[|keys| - n..] }

  /** A recorded key is among the newest n exactly when fewer than n other keys were recorded since. */
  lemma NewestIff(log: seq<Recording>, key: Key, n: nat)
    ensures key in Newest(Recent(log), n) <==> Recorded(log, key) && |Since(log, key)| < n
  {
    RecentIsDistinct(log);
    if Recorded(log, key) {
      AfterIsSince(log, key);
      NewestByAfter(Recent(log), key, n);
    }
  }

  /** Recording a key: it moves to the end, and what falls off is what is beyond the newest n. */
  lemma RecordingKeepsNewest(all: seq<Key>, key: Key, n: nat)
    requires Distinct(all) && n > 0
    ensures Newest(Without(all, key) + [key], n) == Newest(Without(Newest(all, n), key) + [key], n)
  {
    if |all| > n {
      var old', kept := all[..|all| - n], Newest(all, n);
      assert all == old' + kept;
      WithoutJoins(old', kept, key);
      DistinctWhenMoved(kept, key);
      NewestOfEnd(Without(old', key), Without(kept, key) + [key], n);
      assert Without(all, key) + [key] == Without(old', key) + (Without(kept, key) + [key]);
    }
  }

  lemma NewestOfEnd(a: seq<Key>, b: seq<Key>, n: nat)
    requires |b| >= n
    ensures Newest(a + b, n) == Newest(b, n)
  {
  }

  lemma {:induction false} WithoutJoins(a: seq<Key>, b: seq<Key>, key: Key)
    ensures Without(a + b, key) == Without(a, key) + Without(b, key)
  {
    if b == [] {
      assert a + b == a;
    } else {
      assert (a + b)[..|a + b| - 1] == a + b[..|b| - 1];
      WithoutJoins(a, b[..|b| - 1], key);
    }
  }

  // ---- The cache ----

  class InboundDedupe {
    var seen: map<Key, Time>
    var order: seq<Key>
    ghost var log: seq<Recording>

    /** The cache is the newest of the history: no key twice, at most SIZE, each with its last time. */
    ghost predicate Valid()
      reads this
    {
      order == Newest(Recent(log), SIZE) && |order| <= SIZE && Distinct(order)
      && seen.Keys == Members(order)
      && forall k :: k in seen ==> Recorded(log, k) && seen[k] == LastTime(log, k)
    }

    constructor ()
      ensures Valid() && log == []
    {
      seen, order, log := map[], [], [];
    }

    /** duplicate, now being what the clock says. */
    method Duplicate(key: Key, now: Time) returns (dup: bool)
      requires Valid()
      modifies this
      ensures Valid()
      ensures dup <==> IsDuplicate(old(log), key, now)
      ensures log == if dup then old(log) else old(log) + [Recording(key, now)]
    {
      CacheAnswers(log, order, seen, key, now);
      hide Recent, Recorded, LastTime, Since, Without, IsDuplicate, Members, Distinct, Newest;
      if key in seen {
        if now - seen[key] < TTL {
          return true;
        }
        seen := seen - {key};
        order := Without(order, key);
      }
      assert seen == old(seen) - {key};
      seen := seen[key := now];
      order := order + [key];
      log := log + [Recording(key, now)];
      RecordedNext(old(log), log, old(order), old(seen), seen, key, now);
      EvictOldest();
      return false;
    }

    /** The eviction loop. */
    method EvictOldest()
      requires Distinct(order) && seen.Keys == Members(order)
      modifies this`seen, this`order
      ensures order == Newest(old(order), SIZE) && Distinct(order) && seen.Keys == Members(order)
      ensures forall k :: k in seen ==> k in old(seen) && seen[k] == old(seen)[k]
    {
      ghost var whole := order;
      while |order| > SIZE
        invariant |order| <= |whole| && order == whole[|whole| - |order|..]
        invariant |order| >= SIZE || order == whole
        invariant seen.Keys == Members(order) && Distinct(order)
        invariant forall k :: k in seen ==> k in old(seen) && seen[k] == old(seen)[k]
      {
        HeadOff(order);
        hide Members, Distinct;
        seen := seen - {order[0]};
        order := order[1..];
      }
    }
  }

  lemma HeadOff(keys: seq<Key>)
    requires Distinct(keys) && keys != []
    ensures Distinct(keys[1..]) && Members(keys[1..]) == Members(keys) - {keys[0]}
  {
    assert keys == [keys[0]] + keys[1..];
  }

  /** A live entry is a duplicate, and only that. */
  lemma CacheAnswers(log: seq<Recording>, order: seq<Key>, seen: map<Key, Time>, key: Key, now: Time)
    requires order == Newest(Recent(log), SIZE) && seen.Keys == Members(order)
    requires forall k :: k in seen ==> Recorded(log, k) && seen[k] == LastTime(log, k)
    ensures key in seen && now - seen[key] < TTL <==> IsDuplicate(log, key, now)
    ensures key !in seen ==> Without(order, key) == order
  {
    NewestIff(log, key, SIZE);
    if key !in seen { WithoutAbsent(order, key); }
    hide Recent, Since, Without, Newest;
  }

  /** What recording key makes of the history and of the order, before anything is evicted. */
  lemma RecordedNext(was: seq<Recording>, log: seq<Recording>, order: seq<Key>, seen: map<Key, Time>, seen': map<Key, Time>, key: Key, now: Time)
    requires log == was + [Recording(key, now)] && order == Newest(Recent(was), SIZE) && Distinct(order)
    requires seen.Keys == Members(order) && seen' == (seen - {key})[key := now]
    requires forall k :: k in seen ==> Recorded(was, k) && seen[k] == LastTime(was, k)
    ensures Newest(Without(order, key) + [key], SIZE) == Newest(Recent(log), SIZE) && Distinct(Without(order, key) + [key])
    ensures |Newest(Recent(log), SIZE)| <= SIZE
    ensures seen'.Keys == Members(Without(order, key) + [key])
    ensures forall k :: k in seen' ==> Recorded(log, k) && seen'[k] == LastTime(log, k)
  {
    NewestNext(was, log, order, key, now);
    TimesAfter(was, log, key, now);
    MembersMoved(order, key);
    hide Recent, Without, Recorded, LastTime, Members, Newest, Distinct;
  }

  lemma NewestNext(was: seq<Recording>, log: seq<Recording>, order: seq<Key>, key: Key, now: Time)
    requires log == was + [Recording(key, now)] && order == Newest(Recent(was), SIZE) && Distinct(order)
    ensures Newest(Without(order, key) + [key], SIZE) == Newest(Recent(log), SIZE) && Distinct(Without(order, key) + [key])
    ensures |Newest(Recent(log), SIZE)| <= SIZE
  {
    assert log[..|log| - 1] == was;
    assert Recent(log) == Without(Recent(was), key) + [key];
    RecentIsDistinct(was);
    DistinctWhenMoved(order, key);
    RecordingKeepsNewest(Recent(was), key, SIZE);
    hide Recent, Without, Distinct;
  }

  lemma MembersMoved(order: seq<Key>, key: Key)
    ensures Members(Without(order, key) + [key]) == Members(order) - {key} + {key}
  {
    assert (Without(order, key) + [key])[|Without(order, key)|] == key;
    forall k ensures k in Without(order, key) + [key] <==> k in order || k == key {}
    hide Without;
  }

  lemma TimesAfter(was: seq<Recording>, log: seq<Recording>, key: Key, now: Time)
    requires log == was + [Recording(key, now)]
    ensures Recorded(log, key) && LastTime(log, key) == now
    ensures forall k :: k != key && Recorded(was, k) ==> Recorded(log, k) && LastTime(log, k) == LastTime(was, k)
  {
    assert log[|log| - 1] in log && log[..|log| - 1] == was;
    forall k | k != key && Recorded(was, k) ensures Recorded(log, k) {
      var r :| r in was && r.key == k;
      assert r in log;
    }
  }
}
