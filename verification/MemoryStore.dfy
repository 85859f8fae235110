/** The TTL- and LRU-bounded in-process conversation store. */
module MemoryStore {
  import opened Prelude
  import Log = ConversationLog

  datatype Entry = Entry(key: string, stamp: int, messages: seq<Log.Message>)

  /** The ordered dictionary, oldest first, and the committed runs per session. */
  datatype Store = Store(entries: seq<Entry>, committed: map<string, set<string>>)

  datatype Limits = Limits(ttl: nat, maxSessions: nat, maxMessages: nat)

  predicate ValidLimits(l: Limits) {
    l.ttl > 0 && l.maxSessions > 0 && l.maxMessages > 0
  }

  function Without(es: seq<Entry>, key: string): seq<Entry> {
    if es == [] then []
    else if es[0].key == key then Without(es[1..], key)
    else [es[0]] + Without(es[1..], key)
  }

  function Fresh(es: seq<Entry>, cutoff: int): seq<Entry> {
    if es == [] then []
    else if es[0].stamp < cutoff then Fresh(es[1..], cutoff)
    else [es[0]] + Fresh(es[1..], cutoff)
  }

  function Keys(es: seq<Entry>): set<string> {
    set e | e in es :: e.key
  }

  /** The messages stored under a key, none when it is absent. */
  function Stored(es: seq<Entry>, key: string): seq<Log.Message> {
    if es == [] then [] else if es[0].key == key then es[0].messages else Stored(es[1..], key)
  }

  function Committed(s: Store, key: string): set<string> {
    if key in s.committed then s.committed[key] else {}
  }

  // ---- What each operation does ----

  function Purged(l: Limits, s: Store, now: int): Store {
    var es := Fresh(s.entries, now - l.ttl);
    Store(es, s.committed - (Keys(s.entries) - Keys(es)))
  }

  /** Sessions beyond the limit leave from the front of the dictionary. */
  function Evicted(l: Limits, s: Store): Store {
    var es := LastN(s.entries, l.maxSessions);
    Store(es, s.committed - (Keys(s.entries[..|s.entries| - |es|])))
  }

  /** The dictionary right after a write, before eviction. */
  function Extended(l: Limits, s: Store, key: string, ms: seq<Log.Message>, now: int): seq<Entry> {
    Without(s.entries, key) + [Entry(key, now, LastN(Stored(s.entries, key) + ms, l.maxMessages))]
  }

  function Written(l: Limits, s: Store, key: string, ms: seq<Log.Message>, now: int): Store {
    Evicted(l, s.(entries := Extended(l, s, key, ms, now)))
  }

  function OnGet(l: Limits, s: Store, key: string, now: int): (Store, seq<Log.Message>) {
    if key == "" then (s, [])
    else
      var p := Purged(l, s, now);
      if key !in Keys(p.entries) then (p, [])
      else
        var ms := Stored(p.entries, key);
        (p.(entries := Without(p.entries, key) + [Entry(key, now, ms)]), ms)
  }

  function OnAppend(l: Limits, s: Store, key: string, ms: seq<Log.Message>, now: int): Store {
    if ms == [] then s else Written(l, Purged(l, s, now), key, ms, now)
  }

  function OnAppendTurn(l: Limits, s: Store, key: string, run: string, user: Log.Message, assistant: Log.Message, now: int): (Store, bool) {
    var p := Purged(l, s, now);
    if run in Committed(p, key) then (p, false)
    else
      var w := Written(l, p, key, [user, assistant], now);
      (w.(committed := w.committed[key := Committed(p, key) + {run}]), true)
  }

  function OnClear(s: Store, key: Option<string>): Store {
    if key.None? then Store([], map[])
    else Store(Without(s.entries, key.value), s.committed - {key.value})
  }

  // ---- The store invariant ----

  predicate Unique(es: seq<Entry>) {
    forall i, j :: 0 <= i < j < |es| ==> es[i].key != es[j].key
  }

  /** Dictionary order is the order of last touches. */
  predicate Ordered(es: seq<Entry>) {
    forall i, j :: 0 <= i < j < |es| ==> es[i].stamp <= es[j].stamp
  }

  ghost predicate Valid(l: Limits, s: Store, now: int) {
    && ValidLimits(l)
    && Unique(s.entries) && Ordered(s.entries)
    && (forall e :: e in s.entries ==> e.stamp <= now && |e.messages| <= l.maxMessages)
    && |s.entries| <= l.maxSessions
    && s.committed.Keys <= Keys(s.entries)
  }

  // ---- Facts about the dictionary ----

  lemma {:induction false} WithoutMembers(es: seq<Entry>, key: string, e: Entry)
    ensures e in Without(es, key) <==> e in es && e.key != key
  {
    if es != [] {
      assert es == [es[0]] + es[1..];
      WithoutMembers(es[1..], key, e);
    }
  }

  lemma {:induction false} WithoutKeepsOrder(es: seq<Entry>, key: string)
    requires Unique(es) && Ordered(es)
    ensures Unique(Without(es, key)) && Ordered(Without(es, key))
  {
    if es != [] {
      var rest := Without(es[1..], key);
      WithoutKeepsOrder(es[1..], key);
      forall e | e in rest ensures e.key != es[0].key && es[0].stamp <= e.stamp {
        WithoutMembers(es[1..], key, e);
        var i :| 0 <= i < |es[1..]| && es[1..][i] == e;
        assert es[i + 1] == e;
      }
    }
  }

  lemma {:induction false} WithoutLength(es: seq<Entry>, key: string)
    requires Unique(es)
    ensures |Without(es, key)| == |es| - (if key in Keys(es) then 1 else 0)
  {
    if es != [] {
      WithoutLength(es[1..], key);
      assert es == [es[0]] + es[1..];
      forall e | e in es[1..] ensures e.key != es[0].key {
        var i :| 0 <= i < |es[1..]| && es[1..][i] == e;
        assert es[i + 1] == e;
      }
    }
  }

  lemma {:induction false} WithoutStored(es: seq<Entry>, key: string, k: string)
    requires k != key
    ensures Stored(Without(es, key), k) == Stored(es, k)
  {
    if es != [] {
      WithoutStored(es[1..], key, k);
      if es[0].key != key {
        assert Without(es, key)[1..] == Without(es[1..], key);
      }
    }
  }

  lemma {:induction false} WithoutKeys(es: seq<Entry>, key: string)
    ensures Keys(Without(es, key)) == Keys(es) - {key}
  {
    forall k ensures k in Keys(Without(es, key)) <==> k in Keys(es) - {key} {
      if k in Keys(Without(es, key)) {
        var e :| e in Without(es, key) && e.key == k;
        WithoutMembers(es, key, e);
      }
      if k in Keys(es) - {key} {
        var e :| e in es && e.key == k;
        WithoutMembers(es, key, e);
      }
    }
  }

  /** In an ordered dictionary the expired sessions are a prefix. */
  lemma {:induction false} FreshIsSuffix(es: seq<Entry>, cutoff: int) returns (k: nat)
    requires Ordered(es)
    ensures k <= |es| && Fresh(es, cutoff) == es[k..]
    ensures forall i :: 0 <= i < |es| ==> (i < k <==> es[i].stamp < cutoff)
  {
    if es == [] {
      return 0;
    }
    var rest := FreshIsSuffix(es[1..], cutoff);
    if es[0].stamp < cutoff {
      assert es[1..][rest..] == es[rest + 1..];
      forall i | 0 <= i < |es| ensures i < rest + 1 <==> es[i].stamp < cutoff {
        assert i > 0 ==> es[i] == es[1..][i - 1];
      }
      return rest + 1;
    } else {
      assert [es[0]] + es[1..] == es;
      return 0;
    }
  }

  lemma {:induction false} StoredBySuffix(es: seq<Entry>, n: nat, key: string)
    requires Unique(es) && n <= |es| && key in Keys(es[n..])
    ensures Stored(es, key) == Stored(es[n..], key)
  {
    if n > 0 {
      assert es[1..][n - 1..] == es[n..];
      var i :| 0 <= i < |es[n..]| && es[n..][i].key == key;
      assert es[n + i].key == key;
      StoredBySuffix(es[1..], n - 1, key);
    } else {
      assert es[0..] == es;
    }
  }

  lemma {:induction false} StoredAt(es: seq<Entry>, i: nat)
    requires Unique(es) && i < |es|
    ensures Stored(es, es[i].key) == es[i].messages
  {
    if i > 0 {
      StoredAt(es[1..], i - 1);
    }
  }

  lemma {:induction false} StoredOfConcat(es: seq<Entry>, e: Entry, key: string)
    requires forall x :: x in es ==> x.key != e.key
    ensures Stored(es + [e], key) == if key == e.key then e.messages else Stored(es, key)
  {
    if es != [] {
      assert (es + [e])[1..] == es[1..] + [e];
      StoredOfConcat(es[1..], e, key);
    }
  }

  // ---- The invariant holds through every operation ----

  /** The invariant without the session limit, as between a write and its eviction. */
  ghost predicate Overfull(l: Limits, s: Store, now: int) {
    && ValidLimits(l)
    && Unique(s.entries) && Ordered(s.entries)
    && (forall e :: e in s.entries ==> e.stamp <= now && |e.messages| <= l.maxMessages)
    && s.committed.Keys <= Keys(s.entries)
  }

  lemma {:induction false} SuffixKeepsOrder(es: seq<Entry>, n: nat)
    requires Unique(es) && Ordered(es) && n <= |es|
    ensures Unique(es[n..]) && Ordered(es[n..])
    ensures Keys(es[n..]) == Keys(es) - Keys(es[..n])
  {
    assert es == es[..n] + es[n..];
    forall k | k in Keys(es[n..]) ensures k !in Keys(es[..n]) {
      var i :| 0 <= i < |es[n..]| && es[n..][i].key == k;
      forall e | e in es[..n] ensures e.key != k {
        var j :| 0 <= j < n && es[..n][j] == e;
        assert es[j].key != es[n + i].key;
      }
    }
  }

  lemma {:induction false} PurgeKeepsValid(l: Limits, s: Store, before: int, now: int)
    requires Valid(l, s, before) && before <= now
    ensures Valid(l, Purged(l, s, now), now)
  {
    var k := FreshIsSuffix(s.entries, now - l.ttl);
    SuffixKeepsOrder(s.entries, k);
  }

  lemma {:induction false} EvictionKeepsValid(l: Limits, s: Store, now: int)
    requires Overfull(l, s, now)
    ensures Valid(l, Evicted(l, s), now)
  {
    SuffixKeepsOrder(s.entries, |s.entries| - |LastN(s.entries, l.maxSessions)|);
  }

  /** Moving or writing a session to the end of the dictionary, stamped now. */
  lemma {:induction false} MoveToEndFits(es: seq<Entry>, e: Entry)
    requires Unique(es) && Ordered(es) && forall x :: x in es ==> x.stamp <= e.stamp
    ensures Unique(Without(es, e.key) + [e]) && Ordered(Without(es, e.key) + [e])
    ensures Keys(Without(es, e.key) + [e]) == Keys(es) + {e.key}
    ensures |Without(es, e.key) + [e]| == if e.key in Keys(es) then |es| else |es| + 1
    ensures forall x :: x in Without(es, e.key) + [e] ==> x == e || x in es
  {
    var rest := Without(es, e.key);
    WithoutKeepsOrder(es, e.key);
    WithoutLength(es, e.key);
    WithoutKeys(es, e.key);
    forall x | x in rest ensures x in es && x.key != e.key {
      WithoutMembers(es, e.key, x);
    }
    assert Keys(rest + [e]) == Keys(rest) + {e.key};
  }

  lemma {:induction false} WriteKeepsValid(l: Limits, s: Store, key: string, ms: seq<Log.Message>, now: int)
    requires Valid(l, s, now)
    ensures Valid(l, Written(l, s, key, ms, now), now)
    ensures key in Keys(Written(l, s, key, ms, now).entries)
  {
    var e := Entry(key, now, LastN(Stored(s.entries, key) + ms, l.maxMessages));
    MoveToEndFits(s.entries, e);
    var over := s.(entries := Without(s.entries, key) + [e]);
    EvictionKeepsValid(l, over, now);
    var kept := LastN(over.entries, l.maxSessions);
    assert kept[|kept| - 1] == e;
  }

  /** Expired sessions go as a prefix: nothing fresh is purged and nothing expired survives. */
  lemma {:induction false} PurgeDropsExpiredPrefix(l: Limits, s: Store, before: int, now: int) returns (k: nat)
    requires Valid(l, s, before)
    ensures k <= |s.entries| && Purged(l, s, now).entries == s.entries[k..]
    ensures forall i :: 0 <= i < |s.entries| ==> (i < k <==> now - s.entries[i].stamp > l.ttl)
  {
    k := FreshIsSuffix(s.entries, now - l.ttl);
  }

  /** How many sessions a write evicts, all from the front. */
  function Excess(l: Limits, s: Store, key: string, ms: seq<Log.Message>, now: int): nat {
    var n := |Extended(l, s, key, ms, now)|;
    if n <= l.maxSessions then 0 else n - l.maxSessions
  }

  lemma {:induction false} ExtendedFits(l: Limits, s: Store, key: string, ms: seq<Log.Message>, now: int)
    requires Valid(l, s, now)
    ensures Unique(Extended(l, s, key, ms, now)) && Ordered(Extended(l, s, key, ms, now))
    ensures Keys(Extended(l, s, key, ms, now)) == Keys(s.entries) + {key}
  {
    MoveToEndFits(s.entries, Entry(key, now, LastN(Stored(s.entries, key) + ms, l.maxMessages)));
  }

  lemma {:induction false} EvictedSplits(l: Limits, s: Store)
    requires s.entries != [] && l.maxSessions > 0
    ensures var n := if |s.entries| <= l.maxSessions then 0 else |s.entries| - l.maxSessions;
      n < |s.entries| && Evicted(l, s) == Store(s.entries[n..], s.committed - Keys(s.entries[..n]))
  {
  }

  lemma {:induction false} WrittenSplits(l: Limits, s: Store, key: string, ms: seq<Log.Message>, now: int)
    requires ValidLimits(l)
    ensures var all, n := Extended(l, s, key, ms, now), Excess(l, s, key, ms, now);
      n < |all| && Written(l, s, key, ms, now) == Store(all[n..], s.committed - Keys(all[..n]))
  {
    EvictedSplits(l, s.(entries := Extended(l, s, key, ms, now)));
  }

  lemma {:induction false} PrefixNotLater(es: seq<Entry>, n: nat, gone: Entry, kept: Entry)
    requires Unique(es) && Ordered(es) && n <= |es| && gone in es && kept in es[n..]
    requires gone.key !in Keys(es[n..])
    ensures gone.stamp <= kept.stamp
  {
    var i :| 0 <= i < |es| && es[i] == gone;
    var j :| 0 <= j < |es[n..]| && es[n..][j] == kept;
    assert es[n + j] == kept;
  }

  /** The sessions a write evicts were all touched no later than any session that stays, and never the written one. */
  lemma {:induction false} EvictsLeastRecent(l: Limits, s: Store, key: string, ms: seq<Log.Message>, now: int, gone: Entry, kept: Entry)
    requires Valid(l, s, now)
    requires gone in s.entries && gone.key !in Keys(Written(l, s, key, ms, now).entries)
    requires kept in Written(l, s, key, ms, now).entries
    ensures gone.stamp <= kept.stamp && gone.key != key
  {
    WriteKeepsValid(l, s, key, ms, now);
    WrittenSplits(l, s, key, ms, now);
    ExtendedFits(l, s, key, ms, now);
    WithoutMembers(s.entries, key, gone);
    PrefixNotLater(Extended(l, s, key, ms, now), Excess(l, s, key, ms, now), gone, kept);
  }

  /** Order, uniqueness, sizes and the committed-run keys survive every operation. */
  lemma {:induction false} GetKeepsValid(l: Limits, s: Store, key: string, before: int, now: int)
    requires Valid(l, s, before) && before <= now
    ensures Valid(l, OnGet(l, s, key, now).0, now)
  {
    PurgeKeepsValid(l, s, before, now);
    if key != "" && key in Keys(Purged(l, s, now).entries) {
      TouchKeepsValid(l, Purged(l, s, now), key, now);
    }
  }

  lemma {:induction false} TouchKeepsValid(l: Limits, s: Store, key: string, now: int)
    requires Valid(l, s, now) && key in Keys(s.entries)
    ensures Valid(l, s.(entries := Without(s.entries, key) + [Entry(key, now, Stored(s.entries, key))]), now)
  {
    var i :| 0 <= i < |s.entries| && s.entries[i].key == key;
    StoredAt(s.entries, i);
    MoveToEndFits(s.entries, Entry(key, now, Stored(s.entries, key)));
  }

  lemma {:induction false} AppendKeepsValid(l: Limits, s: Store, key: string, ms: seq<Log.Message>, before: int, now: int)
    requires Valid(l, s, before) && before <= now
    ensures Valid(l, OnAppend(l, s, key, ms, now), now)
  {
    PurgeKeepsValid(l, s, before, now);
    WriteKeepsValid(l, Purged(l, s, now), key, ms, now);
  }

  lemma {:induction false} AppendTurnKeepsValid(l: Limits, s: Store, key: string, run: string, user: Log.Message, assistant: Log.Message, before: int, now: int)
    requires Valid(l, s, before) && before <= now
    ensures Valid(l, OnAppendTurn(l, s, key, run, user, assistant, now).0, now)
  {
    PurgeKeepsValid(l, s, before, now);
    WriteKeepsValid(l, Purged(l, s, now), key, [user, assistant], now);
  }

  lemma {:induction false} ClearKeepsValid(l: Limits, s: Store, key: Option<string>, now: int)
    requires Valid(l, s, now)
    ensures Valid(l, OnClear(s, key), now)
  {
    if key.Some? {
      WithoutKeepsOrder(s.entries, key.value);
      WithoutLength(s.entries, key.value);
      WithoutKeys(s.entries, key.value);
      forall e | e in Without(s.entries, key.value) ensures e in s.entries {
        WithoutMembers(s.entries, key.value, e);
      }
    }
  }

  // ---- Refinement of the plain log ----

  /** Each live session shows the end of its log and remembers exactly its log's runs. */
  ghost predicate Represents(l: Limits, s: Store, threads: map<string, Log.Thread>) {
    && threads.Keys == Keys(s.entries)
    && forall k :: k in threads ==> Shows(l, s, k, threads[k])
  }

  predicate Shows(l: Limits, s: Store, key: string, t: Log.Thread) {
    Stored(s.entries, key) == Log.Visible(t, l.maxMessages) && Committed(s, key) == t.runs
  }

  /** The thread an operation acts on: the live one, or an empty one once it expired. */
  function ThreadOf(threads: map<string, Log.Thread>, live: set<string>, key: string): Log.Thread {
    if key in threads && key in live then threads[key] else Log.EMPTY_THREAD
  }

  /** The abstract effect: one thread advances, and what is no longer in the store is forgotten. */
  function Advance(threads: map<string, Log.Thread>, key: string, t: Log.Thread, live: set<string>): map<string, Log.Thread> {
    map k | k in threads.Keys + {key} && k in live :: if k == key then t else threads[k]
  }

  lemma {:induction false} PurgeShows(l: Limits, s: Store, before: int, now: int, key: string)
    requires Valid(l, s, before) && key in Keys(Purged(l, s, now).entries)
    ensures key in Keys(s.entries)
    ensures Stored(Purged(l, s, now).entries, key) == Stored(s.entries, key)
    ensures Committed(Purged(l, s, now), key) == Committed(s, key)
  {
    var k := FreshIsSuffix(s.entries, now - l.ttl);
    SuffixKeepsOrder(s.entries, k);
    StoredBySuffix(s.entries, k, key);
  }

  lemma {:induction false} PurgeForgets(l: Limits, s: Store, before: int, now: int, key: string)
    requires Valid(l, s, before) && before <= now && key !in Keys(Purged(l, s, now).entries)
    ensures Stored(Purged(l, s, now).entries, key) == [] && Committed(Purged(l, s, now), key) == {}
  {
    PurgeKeepsValid(l, s, before, now);
    StoredOfMissing(Purged(l, s, now).entries, key);
  }

  lemma {:induction false} StoredOfMissing(es: seq<Entry>, key: string)
    requires key !in Keys(es)
    ensures Stored(es, key) == []
  {
    if es != [] {
      assert es[0] in es;
      assert forall e :: e in es[1..] ==> e in es;
      StoredOfMissing(es[1..], key);
    }
  }

  lemma {:induction false} ExtendedStored(l: Limits, s: Store, key: string, ms: seq<Log.Message>, now: int, k: string)
    ensures Stored(Extended(l, s, key, ms, now), k)
            == if k == key then LastN(Stored(s.entries, key) + ms, l.maxMessages) else Stored(s.entries, k)
  {
    var rest, e := Without(s.entries, key), Entry(key, now, LastN(Stored(s.entries, key) + ms, l.maxMessages));
    forall x | x in rest ensures x.key != key {
      WithoutMembers(s.entries, key, x);
    }
    StoredOfConcat(rest, e, k);
    if k != key {
      WithoutStored(s.entries, key, k);
    }
  }

  lemma {:induction false} SurvivorOf(es: seq<Entry>, n: nat, committed: map<string, set<string>>, k: string)
    requires Unique(es) && Ordered(es) && n <= |es| && k in Keys(es[n..])
    ensures Stored(es[n..], k) == Stored(es, k) && k in Keys(es)
    ensures Committed(Store(es[n..], committed - Keys(es[..n])), k) == Committed(Store(es, committed), k)
  {
    StoredBySuffix(es, n, k);
    SuffixKeepsOrder(es, n);
  }

  /** After a write, the written session holds old and new messages, cut to the limit; other survivors are untouched. */
  lemma {:induction false} WriteShows(l: Limits, s: Store, key: string, ms: seq<Log.Message>, now: int, k: string)
    requires Valid(l, s, now) && k in Keys(Written(l, s, key, ms, now).entries)
    ensures var w := Written(l, s, key, ms, now);
            && Stored(w.entries, k) == (if k == key then LastN(Stored(s.entries, key) + ms, l.maxMessages) else Stored(s.entries, k))
            && Committed(w, k) == Committed(s, k)
            && (k != key ==> k in Keys(s.entries))
  {
    var all, n := Extended(l, s, key, ms, now), Excess(l, s, key, ms, now);
    WrittenSplits(l, s, key, ms, now);
    ExtendedFits(l, s, key, ms, now);
    SurvivorOf(all, n, s.committed, k);
    ExtendedStored(l, s, key, ms, now, k);
  }

  /** A session that survives purge and write shows its own log, advanced if it is the written one. */
  lemma {:induction false} SurvivorShows(l: Limits, s: Store, threads: map<string, Log.Thread>, key: string, ms: seq<Log.Message>,
                      before: int, now: int, k: string)
    requires Valid(l, s, before) && before <= now && Represents(l, s, threads)
    requires k in Keys(Written(l, Purged(l, s, now), key, ms, now).entries)
    ensures var t := ThreadOf(threads, Keys(Purged(l, s, now).entries), key);
      var w := Written(l, Purged(l, s, now), key, ms, now);
      && (k != key ==> k in threads && Shows(l, w, k, threads[k]))
      && (k == key ==> Stored(w.entries, key) == LastN(t.log + ms, l.maxMessages) && Committed(w, key) == t.runs)
  {
    var p := Purged(l, s, now);
    PurgeKeepsValid(l, s, before, now);
    WriteShows(l, p, key, ms, now, k);
    if k == key {
      ThreadShown(l, s, threads, key, before, now);
      LastNAppend(ThreadOf(threads, Keys(p.entries), key).log, ms, l.maxMessages);
    } else {
      PurgeShows(l, s, before, now, k);
      assert Shows(l, s, k, threads[k]);
    }
  }

  /** `append` advances its session's log; expiry and eviction forget whole sessions and nothing else. */
  lemma {:induction false} AppendRefines(l: Limits, s: Store, threads: map<string, Log.Thread>, key: string, ms: seq<Log.Message>, before: int, now: int)
    requires Valid(l, s, before) && before <= now && Represents(l, s, threads) && ms != []
    ensures var s' := OnAppend(l, s, key, ms, now);
      var live := Keys(Purged(l, s, now).entries);
      Represents(l, s', Advance(threads, key, Log.Apply(ThreadOf(threads, live, key), Log.Append(ms)), Keys(s'.entries)))
  {
    var s' := OnAppend(l, s, key, ms, now);
    var t := ThreadOf(threads, Keys(Purged(l, s, now).entries), key);
    var after := Advance(threads, key, Log.Apply(t, Log.Append(ms)), Keys(s'.entries));
    forall k | k in Keys(s'.entries) ensures k in after && Shows(l, s', k, after[k]) {
      SurvivorShows(l, s, threads, key, ms, before, now, k);
    }
  }

  /** The purged store shows the thread an operation acts on. */
  lemma {:induction false} ThreadShown(l: Limits, s: Store, threads: map<string, Log.Thread>, key: string, before: int, now: int)
    requires Valid(l, s, before) && before <= now && Represents(l, s, threads)
    ensures Shows(l, Purged(l, s, now), key, ThreadOf(threads, Keys(Purged(l, s, now).entries), key))
  {
    var p := Purged(l, s, now);
    if key in Keys(p.entries) {
      PurgeShows(l, s, before, now, key);
      assert Shows(l, s, key, threads[key]);
    } else {
      PurgeForgets(l, s, before, now, key);
    }
  }

  /** A new turn is a write followed by the mark of its run. */
  lemma {:induction false} NewTurnIsWrite(l: Limits, s: Store, key: string, run: string, user: Log.Message, assistant: Log.Message, now: int)
    requires OnAppendTurn(l, s, key, run, user, assistant, now).1
    ensures var p := Purged(l, s, now);
      var w := Written(l, p, key, [user, assistant], now);
      OnAppendTurn(l, s, key, run, user, assistant, now).0 == w.(committed := w.committed[key := Committed(p, key) + {run}])
  {
  }

  lemma {:induction false} MarkShows(w: Store, key: string, runs: set<string>, k: string)
    ensures Committed(w.(committed := w.committed[key := runs]), k) == if k == key then runs else Committed(w, k)
  {
  }

  lemma {:induction false} NewTurnShows(l: Limits, s: Store, threads: map<string, Log.Thread>, key: string, run: string,
                     user: Log.Message, assistant: Log.Message, before: int, now: int, k: string)
    requires Valid(l, s, before) && before <= now && Represents(l, s, threads)
    requires OnAppendTurn(l, s, key, run, user, assistant, now).1
    requires k in Keys(OnAppendTurn(l, s, key, run, user, assistant, now).0.entries)
    ensures var t := ThreadOf(threads, Keys(Purged(l, s, now).entries), key);
      var s' := OnAppendTurn(l, s, key, run, user, assistant, now).0;
      && (k != key ==> k in threads)
      && Shows(l, s', k, if k == key then Log.Thread(t.log + [user, assistant], t.runs + {run}) else threads[k])
  {
    hide OnAppendTurn, Written, Purged, Represents, Valid, Committed, Keys;
    NewTurnIsWrite(l, s, key, run, user, assistant, now);
    SurvivorShows(l, s, threads, key, [user, assistant], before, now, k);
    ThreadShown(l, s, threads, key, before, now);
    MarkShows(Written(l, Purged(l, s, now), key, [user, assistant], now), key, Committed(Purged(l, s, now), key) + {run}, k);
  }

  lemma {:induction false} RepeatedTurnShows(l: Limits, s: Store, threads: map<string, Log.Thread>, before: int, now: int, k: string)
    requires Valid(l, s, before) && before <= now && Represents(l, s, threads)
    requires k in Keys(Purged(l, s, now).entries)
    ensures k in threads && Shows(l, Purged(l, s, now), k, threads[k])
  {
    PurgeShows(l, s, before, now, k);
    assert Shows(l, s, k, threads[k]);
  }

  lemma {:induction false} NewTurnRefines(l: Limits, s: Store, threads: map<string, Log.Thread>, key: string, run: string,
                       user: Log.Message, assistant: Log.Message, before: int, now: int)
    requires Valid(l, s, before) && before <= now && Represents(l, s, threads)
    requires OnAppendTurn(l, s, key, run, user, assistant, now).1
    ensures var s' := OnAppendTurn(l, s, key, run, user, assistant, now).0;
      var t := ThreadOf(threads, Keys(Purged(l, s, now).entries), key);
      Represents(l, s', Advance(threads, key, Log.Thread(t.log + [user, assistant], t.runs + {run}), Keys(s'.entries)))
  {
    var s' := OnAppendTurn(l, s, key, run, user, assistant, now).0;
    var t := ThreadOf(threads, Keys(Purged(l, s, now).entries), key);
    var after := Advance(threads, key, Log.Thread(t.log + [user, assistant], t.runs + {run}), Keys(s'.entries));
    forall k | k in Keys(s'.entries) ensures k in after && Shows(l, s', k, after[k]) {
      NewTurnShows(l, s, threads, key, run, user, assistant, before, now, k);
    }
    assert after.Keys == Keys(s'.entries);
  }

  lemma {:induction false} RepeatedTurnRefines(l: Limits, s: Store, threads: map<string, Log.Thread>, key: string, before: int, now: int)
    requires Valid(l, s, before) && before <= now && Represents(l, s, threads)
    ensures var p := Purged(l, s, now);
      Represents(l, p, Advance(threads, key, ThreadOf(threads, Keys(p.entries), key), Keys(p.entries)))
  {
    var p := Purged(l, s, now);
    var after := Advance(threads, key, ThreadOf(threads, Keys(p.entries), key), Keys(p.entries));
    forall k | k in Keys(p.entries) ensures k in after && Shows(l, p, k, after[k]) {
      RepeatedTurnShows(l, s, threads, before, now, k);
    }
  }

  lemma {:induction false} TurnReply(l: Limits, s: Store, threads: map<string, Log.Thread>, key: string, run: string,
                  user: Log.Message, assistant: Log.Message, before: int, now: int)
    requires Valid(l, s, before) && before <= now && Represents(l, s, threads)
    ensures var (s', reply) := OnAppendTurn(l, s, key, run, user, assistant, now);
      && (reply <==> run !in ThreadOf(threads, Keys(Purged(l, s, now).entries), key).runs)
      && (!reply ==> s' == Purged(l, s, now))
  {
    ThreadShown(l, s, threads, key, before, now);
  }

  /** `append_turn` refines the log's: same reply, same log, and a repeated run leaves the history as it is. */
  lemma {:induction false} AppendTurnRefines(l: Limits, s: Store, threads: map<string, Log.Thread>, key: string, run: string,
                          user: Log.Message, assistant: Log.Message, before: int, now: int)
    requires Valid(l, s, before) && before <= now && Represents(l, s, threads)
    ensures var (s', reply) := OnAppendTurn(l, s, key, run, user, assistant, now);
      var t := ThreadOf(threads, Keys(Purged(l, s, now).entries), key);
      var op := Log.AppendTurn(run, user, assistant);
      && reply == Log.Reply(t, op)
      && Represents(l, s', Advance(threads, key, Log.Apply(t, op), Keys(s'.entries)))
  {
    hide OnAppendTurn, Represents, Advance, Purged, Valid, Keys, ThreadOf;
    TurnReply(l, s, threads, key, run, user, assistant, before, now);
    if OnAppendTurn(l, s, key, run, user, assistant, now).1 {
      NewTurnRefines(l, s, threads, key, run, user, assistant, before, now);
    } else {
      RepeatedTurnRefines(l, s, threads, key, before, now);
    }
  }

  lemma {:induction false} TouchedShows(l: Limits, s: Store, key: string, now: int, k: string)
    requires Valid(l, s, now) && key in Keys(s.entries)
    ensures var touched := s.(entries := Without(s.entries, key) + [Entry(key, now, Stored(s.entries, key))]);
            && Keys(touched.entries) == Keys(s.entries)
            && Stored(touched.entries, k) == Stored(s.entries, k)
  {
    MoveToEndFits(s.entries, Entry(key, now, Stored(s.entries, key)));
    TouchShows(s.entries, Entry(key, now, Stored(s.entries, key)), k);
  }

  lemma {:induction false} GetShows(l: Limits, s: Store, threads: map<string, Log.Thread>, key: string, before: int, now: int, k: string)
    requires Valid(l, s, before) && before <= now && Represents(l, s, threads) && key != ""
    requires k in Keys(Purged(l, s, now).entries)
    ensures k in threads && Shows(l, OnGet(l, s, key, now).0, k, threads[k])
  {
    var p := Purged(l, s, now);
    RepeatedTurnShows(l, s, threads, before, now, k);
    if key in Keys(p.entries) {
      PurgeKeepsValid(l, s, before, now);
      TouchedShows(l, p, key, now, k);
    }
  }

  lemma {:induction false} GetKeepsKeys(l: Limits, s: Store, key: string, before: int, now: int)
    requires Valid(l, s, before) && before <= now
    ensures Keys(OnGet(l, s, key, now).0.entries) == if key == "" then Keys(s.entries) else Keys(Purged(l, s, now).entries)
  {
    if key != "" && key in Keys(Purged(l, s, now).entries) {
      PurgeKeepsValid(l, s, before, now);
      TouchedShows(l, Purged(l, s, now), key, now, key);
    }
  }

  lemma {:induction false} GetReads(l: Limits, s: Store, threads: map<string, Log.Thread>, key: string, before: int, now: int)
    requires Valid(l, s, before) && before <= now && Represents(l, s, threads) && key != ""
    ensures OnGet(l, s, key, now).1 == Log.Visible(ThreadOf(threads, Keys(Purged(l, s, now).entries), key), l.maxMessages)
  {
    ThreadShown(l, s, threads, key, before, now);
    if key !in Keys(Purged(l, s, now).entries) {
      StoredOfMissing(Purged(l, s, now).entries, key);
    }
  }

  /** `get` returns the end of the log of a live session, nothing of an expired one, and changes no log. */
  lemma {:induction false} GetRefines(l: Limits, s: Store, threads: map<string, Log.Thread>, key: string, before: int, now: int)
    requires Valid(l, s, before) && before <= now && Represents(l, s, threads) && key != ""
    ensures var (s', ms) := OnGet(l, s, key, now);
      var live := Keys(Purged(l, s, now).entries);
      && ms == Log.Visible(ThreadOf(threads, live, key), l.maxMessages)
      && Represents(l, s', Restricted(threads, live))
  {
    GetReads(l, s, threads, key, before, now);
    GetKeepsKeys(l, s, key, before, now);
    forall k | k in Keys(Purged(l, s, now).entries) ensures k in threads && Shows(l, OnGet(l, s, key, now).0, k, threads[k]) {
      GetShows(l, s, threads, key, before, now, k);
    }
  }

  function Restricted(threads: map<string, Log.Thread>, live: set<string>): map<string, Log.Thread> {
    map k | k in threads && k in live :: threads[k]
  }

  lemma {:induction false} TouchShows(es: seq<Entry>, e: Entry, k: string)
    requires Unique(es) && Ordered(es) && e.key in Keys(es) && e.messages == Stored(es, e.key)
    ensures Stored(Without(es, e.key) + [e], k) == Stored(es, k)
  {
    forall x | x in Without(es, e.key) ensures x.key != e.key {
      WithoutMembers(es, e.key, x);
    }
    StoredOfConcat(Without(es, e.key), e, k);
    if k != e.key {
      WithoutStored(es, e.key, k);
    }
  }

  // ---- Runs of the store ----

  datatype Call =
    | Get(key: string)
    | Append(key: string, messages: seq<Log.Message>)
    | AppendTurn(key: string, runId: string, user: Log.Message, assistant: Log.Message)
    | Clear(which: Option<string>)

  datatype Stamped = Stamped(now: int, call: Call)

  /** One call; an empty key or run id changes nothing. */
  function Step(l: Limits, s: Store, c: Stamped): Store {
    match c.call
    case Get(key) => OnGet(l, s, key, c.now).0
    case Append(key, ms) => if key == "" then s else OnAppend(l, s, key, ms, c.now)
    case AppendTurn(key, run, u, a) => if key == "" || run == "" then s else OnAppendTurn(l, s, key, run, u, a, c.now).0
    case Clear(which) => OnClear(s, which)
  }

  function Live(l: Limits, s: Store, now: int): set<string> {
    Keys(Purged(l, s, now).entries)
  }

  /** The logs after one call: one of them advances, expired, evicted and cleared ones are forgotten. */
  function Follow(l: Limits, s: Store, threads: map<string, Log.Thread>, c: Stamped): map<string, Log.Thread> {
    var live, kept := Live(l, s, c.now), Keys(Step(l, s, c).entries);
    match c.call
    case Get(key) => if key == "" then threads else Restricted(threads, live)
    case Append(key, ms) =>
      if key == "" || ms == [] then threads
      else Advance(threads, key, Log.Apply(ThreadOf(threads, live, key), Log.Append(ms)), kept)
    case AppendTurn(key, run, u, a) =>
      if key == "" || run == "" then threads
      else Advance(threads, key, Log.Apply(ThreadOf(threads, live, key), Log.AppendTurn(run, u, a)), kept)
    case Clear(which) => if which.None? then map[] else threads - {which.value}
  }

  lemma {:induction false} ClearShows(s: Store, key: string, k: string)
    requires k != key
    ensures Stored(OnClear(s, Some(key)).entries, k) == Stored(s.entries, k)
    ensures Committed(OnClear(s, Some(key)), k) == Committed(s, k)
  {
    WithoutStored(s.entries, key, k);
  }

  /** `clear` forgets one log or all. */
  lemma {:induction false} ClearRefines(l: Limits, s: Store, threads: map<string, Log.Thread>, which: Option<string>)
    requires Represents(l, s, threads)
    ensures Represents(l, OnClear(s, which), if which.None? then map[] else threads - {which.value})
  {
    if which.Some? {
      WithoutKeys(s.entries, which.value);
      forall k | k in threads - {which.value} ensures Shows(l, OnClear(s, which), k, threads[k]) {
        ClearShows(s, which.value, k);
        assert Shows(l, s, k, threads[k]);
      }
    }
  }

  lemma {:induction false} StepKeepsValid(l: Limits, s: Store, c: Stamped, before: int)
    requires Valid(l, s, before) && before <= c.now
    ensures Valid(l, Step(l, s, c), c.now)
  {
    hide OnGet, OnAppend, OnAppendTurn, OnClear;
    match c.call
    case Get(key) => GetKeepsValid(l, s, key, before, c.now);
    case Append(key, ms) => AppendKeepsValid(l, s, key, ms, before, c.now);
    case AppendTurn(key, run, u, a) => AppendTurnKeepsValid(l, s, key, run, u, a, before, c.now);
    case Clear(which) => ClearKeepsValid(l, s, which, c.now);
  }

  lemma {:induction false} StepRefines(l: Limits, s: Store, threads: map<string, Log.Thread>, c: Stamped, before: int)
    requires Valid(l, s, before) && before <= c.now && Represents(l, s, threads)
    ensures Represents(l, Step(l, s, c), Follow(l, s, threads, c))
  {
    hide OnAppendTurn, OnClear, Represents, Advance, Restricted, Valid, ThreadOf;
    match c.call
    case Get(key) => if key != "" { GetRefines(l, s, threads, key, before, c.now); }
    case Append(key, ms) => if ms != [] { AppendRefines(l, s, threads, key, ms, before, c.now); }
    case AppendTurn(key, run, u, a) => AppendTurnRefines(l, s, threads, key, run, u, a, before, c.now);
    case Clear(which) => ClearRefines(l, s, threads, which);
  }

  function Steps(l: Limits, s: Store, trace: seq<Stamped>): Store
    decreases |trace|
  {
    if trace == [] then s else Steps(l, Step(l, s, trace[0]), trace[1..])
  }

  function FollowAll(l: Limits, s: Store, threads: map<string, Log.Thread>, trace: seq<Stamped>): map<string, Log.Thread>
    decreases |trace|
  {
    if trace == [] then threads else FollowAll(l, Step(l, s, trace[0]), Follow(l, s, threads, trace[0]), trace[1..])
  }

  predicate Chronological(trace: seq<Stamped>, from: int) {
    trace == [] || (from <= trace[0].now && Chronological(trace[1..], trace[0].now))
  }

  function EndOf(trace: seq<Stamped>, from: int): int {
    if trace == [] then from else EndOf(trace[1..], trace[0].now)
  }

  /** Over any calls, `clear` included, the store stays valid and shows its logs. */
  lemma {:induction false} TraceRefines(l: Limits, s: Store, threads: map<string, Log.Thread>, trace: seq<Stamped>, from: int)
    requires Valid(l, s, from) && Represents(l, s, threads) && Chronological(trace, from)
    ensures Valid(l, Steps(l, s, trace), EndOf(trace, from))
    ensures Represents(l, Steps(l, s, trace), FollowAll(l, s, threads, trace))
    decreases |trace|
  {
    hide Valid, Represents, Step, Follow;
    if trace != [] {
      StepKeepsValid(l, s, trace[0], from);
      StepRefines(l, s, threads, trace[0], from);
      TraceRefines(l, Step(l, s, trace[0]), Follow(l, s, threads, trace[0]), trace[1..], trace[0].now);
    }
  }

  /** The session is there at every call: unexpired before it, neither evicted nor cleared by it. */
  predicate NeverForgotten(l: Limits, s: Store, trace: seq<Stamped>, key: string)
    decreases |trace|
  {
    trace == []
    || (key in Live(l, s, trace[0].now) && key in Keys(Step(l, s, trace[0]).entries)
        && NeverForgotten(l, Step(l, s, trace[0]), trace[1..], key))
  }

  /** What a call asks of the log of one session. */
  function Asks(c: Stamped, key: string): seq<Log.Op> {
    match c.call
    case Append(k, ms) => if k == key then [Log.Append(ms)] else []
    case AppendTurn(k, run, u, a) => if k == key && run != "" then [Log.AppendTurn(run, u, a)] else []
    case _ => []
  }

  function AsksAll(trace: seq<Stamped>, key: string): seq<Log.Op> {
    if trace == [] then [] else Asks(trace[0], key) + AsksAll(trace[1..], key)
  }

  lemma {:induction false} ClearedIsGone(s: Store, which: Option<string>, key: string)
    requires key in Keys(OnClear(s, which).entries)
    ensures which.Some? && which.value != key
  {
    if which.Some? {
      WithoutKeys(s.entries, which.value);
    }
  }

  lemma {:induction false} StepFollowsLog(l: Limits, s: Store, threads: map<string, Log.Thread>, c: Stamped, key: string)
    requires key != "" && key in threads && key in Live(l, s, c.now) && key in Keys(Step(l, s, c).entries)
    ensures var after := Follow(l, s, threads, c);
      key in after && after[key] == Log.Run(threads[key], Asks(c, key))
  {
    var t := threads[key];
    if c.call.Clear? {
      ClearedIsGone(s, c.call.which, key);
    }
    if Asks(c, key) != [] {
      var op := Asks(c, key)[0];
      assert Asks(c, key)[1..] == [];
      assert Log.Run(t, [op]) == Log.Run(Log.Apply(t, op), []);
      if c.call.Append? && c.call.messages == [] {
        assert t.log + [] == t.log;
      }
    }
  }

  /** A session that is never forgotten shows the plain log of everything it was ever asked, whatever happened to the others. */
  lemma {:induction false} WholeLogShown(l: Limits, s: Store, threads: map<string, Log.Thread>, trace: seq<Stamped>, key: string, from: int)
    requires Valid(l, s, from) && Represents(l, s, threads) && Chronological(trace, from)
    requires key != "" && key in threads && NeverForgotten(l, s, trace, key)
    ensures Shows(l, Steps(l, s, trace), key, Log.Run(threads[key], AsksAll(trace, key)))
    decreases |trace|
  {
    if trace == [] {
      assert Shows(l, s, key, threads[key]);
    } else {
      hide Valid, Represents, Step, Follow, Shows, Asks;
      var c := trace[0];
      StepKeepsValid(l, s, c, from);
      StepRefines(l, s, threads, c, from);
      StepFollowsLog(l, s, threads, c, key);
      WholeLogShown(l, Step(l, s, c), Follow(l, s, threads, c), trace[1..], key, c.now);
      Log.RunAppend(threads[key], Asks(c, key), AsksAll(trace[1..], key));
    }
  }

  // ---- The store itself ----

  function WithoutAll(es: seq<Entry>, keys: set<string>): seq<Entry> {
    if es == [] then []
    else if es[0].key in keys then WithoutAll(es[1..], keys)
    else [es[0]] + WithoutAll(es[1..], keys)
  }

  lemma {:induction false} WithoutOneMore(es: seq<Entry>, keys: set<string>, key: string)
    ensures Without(WithoutAll(es, keys), key) == WithoutAll(es, keys + {key})
  {
    if es != [] {
      WithoutOneMore(es[1..], keys, key);
      if es[0].key !in keys {
        assert WithoutAll(es, keys)[1..] == WithoutAll(es[1..], keys);
      }
    }
  }

  lemma {:induction false} WithoutNone(es: seq<Entry>)
    ensures WithoutAll(es, {}) == es
  {
    if es != [] {
      WithoutNone(es[1..]);
    }
  }

  lemma {:induction false} WithoutExpired(es: seq<Entry>, keys: set<string>, cutoff: int)
    requires forall e :: e in es ==> (e.key in keys <==> e.stamp < cutoff)
    ensures WithoutAll(es, keys) == Fresh(es, cutoff)
  {
    if es != [] {
      assert es[0] in es && forall e :: e in es[1..] ==> e in es;
      WithoutExpired(es[1..], keys, cutoff);
    }
  }

  lemma {:induction false} FreshMembers(es: seq<Entry>, cutoff: int, e: Entry)
    ensures e in Fresh(es, cutoff) <==> e in es && e.stamp >= cutoff
  {
    if es != [] {
      assert es == [es[0]] + es[1..];
      FreshMembers(es[1..], cutoff, e);
    }
  }

  lemma {:induction false} ExpiredKeys(es: seq<Entry>, keys: set<string>, cutoff: int)
    requires Unique(es) && keys <= Keys(es)
    requires forall e :: e in es ==> (e.key in keys <==> e.stamp < cutoff)
    ensures Keys(es) - Keys(Fresh(es, cutoff)) == keys
  {
    forall k | k in Keys(es) ensures k in Keys(Fresh(es, cutoff)) <==> k !in keys {
      var e :| e in es && e.key == k;
      FreshMembers(es, cutoff, e);
      if k in Keys(Fresh(es, cutoff)) {
        var f :| f in Fresh(es, cutoff) && f.key == k;
        FreshMembers(es, cutoff, f);
      }
    }
  }

  datatype StoreError = EmptyKey

  class BoundedInMemoryStore {
    const limits: Limits
    var data: seq<Entry>
    var committedRuns: map<string, set<string>>

    ghost function Value(): Store
      reads this
    {
      Store(data, committedRuns)
    }

    ghost predicate ValidAt(now: int)
      reads this
    {
      Valid(limits, Value(), now)
    }

    constructor (ttl: nat, maxSessions: nat, maxMessages: nat)
      requires ttl > 0 && maxSessions > 0 && maxMessages > 0
      ensures limits == Limits(ttl, maxSessions, maxMessages)
      ensures Value() == Store([], map[]) && forall now :: ValidAt(now)
    {
      limits := Limits(ttl, maxSessions, maxMessages);
      data, committedRuns := [], map[];
    }

    /** The first loop of `_purge`: the keys of the expired sessions. */
    method ExpiredSessions(cutoff: int) returns (expired: seq<string>)
      ensures forall k :: k in expired <==> exists j :: 0 <= j < |data| && data[j].key == k && data[j].stamp < cutoff
    {
      expired := [];
      for i := 0 to |data|
        invariant forall k :: k in expired <==> exists j :: 0 <= j < i && data[j].key == k && data[j].stamp < cutoff
      {
        if data[i].stamp < cutoff {
          expired := expired + [data[i].key];
        }
      }
    }

    /** The second loop: each of them is dropped, with its committed runs. */
    method DropSessions(keys: seq<string>)
      modifies this
      ensures data == WithoutAll(old(data), set k | k in keys)
      ensures committedRuns == old(committedRuns) - set k | k in keys
    {
      ghost var done: set<string> := {};
      WithoutNone(data);
      for i := 0 to |keys|
        invariant done == set k | k in keys[..i]
        invariant data == WithoutAll(old(data), done) && committedRuns == old(committedRuns) - done
      {
        WithoutOneMore(old(data), done, keys[i]);
        assert keys[..i + 1] == keys[..i] + [keys[i]];
        data := Without(data, keys[i]);
        committedRuns := committedRuns - {keys[i]};
        done := done + {keys[i]};
      }
      assert keys[..|keys|] == keys;
    }

    method Purge(now: int)
      requires Unique(data)
      modifies this
      ensures Value() == Purged(limits, old(Value()), now)
    {
      var cutoff := now - limits.ttl;
      var expired := ExpiredSessions(cutoff);
      ExpiredExactly(data, expired, cutoff);
      WithoutExpired(data, (set k | k in expired), cutoff);
      ExpiredKeys(data, (set k | k in expired), cutoff);
      DropSessions(expired);
    }

    /** The eviction loop of `_append_locked`. */
    method Evict()
      requires limits.maxSessions > 0
      modifies this
      ensures Value() == Evicted(limits, old(Value()))
    {
      ghost var all := data;
      ghost var n := 0;
      while |data| > limits.maxSessions
        invariant n <= |all| && data == all[n..]
        invariant committedRuns == old(committedRuns) - Keys(all[..n])
        invariant n <= if |all| <= limits.maxSessions then 0 else |all| - limits.maxSessions
      {
        assert all[..n + 1] == all[..n] + [all[n]];
        committedRuns := committedRuns - {data[0].key};
        data := data[1..];
        n := n + 1;
      }
    }

    method Write(key: string, messages: seq<Log.Message>, now: int)
      requires limits.maxSessions > 0
      modifies this
      ensures Value() == Written(limits, old(Value()), key, messages, now)
    {
      ghost var was := Value();
      var updated := LastN(Stored(data, key) + messages, limits.maxMessages);
      data := Without(data, key) + [Entry(key, now, updated)];
      assert Value() == was.(entries := Extended(limits, was, key, messages, now));
      Evict();
    }

    method Get(key: string, ghost before: int, now: int) returns (messages: seq<Log.Message>)
      requires ValidAt(before) && before <= now
      modifies this
      ensures (Value(), messages) == OnGet(limits, old(Value()), key, now)
      ensures ValidAt(now)
    {
      GetKeepsValid(limits, Value(), key, before, now);
      if key == "" {
        return [];
      }
      Purge(now);
      if !exists e :: e in data && e.key == key {
        return [];
      }
      messages := Stored(data, key);
      data := Without(data, key) + [Entry(key, now, messages)];
    }

    method Append(key: string, messages: seq<Log.Message>, ghost before: int, now: int) returns (r: Result<(), StoreError>)
      requires ValidAt(before) && before <= now
      modifies this
      ensures r.Err? <==> key == ""
      ensures Value() == if r.Err? then old(Value()) else OnAppend(limits, old(Value()), key, messages, now)
      ensures ValidAt(now)
    {
      AppendKeepsValid(limits, Value(), key, messages, before, now);
      if key == "" {
        return Err(EmptyKey);
      }
      if messages != [] {
        Purge(now);
        Write(key, messages, now);
      }
      return Ok(());
    }

    method AppendTurn(key: string, runId: string, user: Log.Message, assistant: Log.Message, ghost before: int, now: int)
      returns (r: Result<bool, StoreError>)
      requires ValidAt(before) && before <= now
      modifies this
      ensures r.Err? <==> key == "" || runId == ""
      ensures r.Err? ==> Value() == old(Value())
      ensures r.Ok? ==> (Value(), r.value) == OnAppendTurn(limits, old(Value()), key, runId, user, assistant, now)
      ensures ValidAt(now)
    {
      AppendTurnKeepsValid(limits, Value(), key, runId, user, assistant, before, now);
      if key == "" || runId == "" {
        return Err(EmptyKey);
      }
      Purge(now);
      var committed := if key in committedRuns then committedRuns[key] else {};
      if runId in committed {
        return Ok(false);
      }
      Write(key, [user, assistant], now);
      committedRuns := committedRuns[key := committed + {runId}];
      return Ok(true);
    }

    method Clear(key: Option<string>, ghost now: int)
      requires ValidAt(now)
      modifies this
      ensures Value() == OnClear(old(Value()), key) && ValidAt(now)
    {
      ClearKeepsValid(limits, Value(), key, now);
      if key.None? {
        data, committedRuns := [], map[];
      } else {
        data := Without(data, key.value);
        committedRuns := committedRuns - {key.value};
      }
    }
  }

  /** The collected keys are those of the expired sessions, and only theirs. */
  lemma {:induction false} ExpiredExactly(es: seq<Entry>, expired: seq<string>, cutoff: int)
    requires Unique(es)
    requires forall k :: k in expired <==> exists j :: 0 <= j < |es| && es[j].key == k && es[j].stamp < cutoff
    ensures forall e :: e in es ==> (e.key in (set k | k in expired) <==> e.stamp < cutoff)
    ensures (set k | k in expired) <= Keys(es)
  {
    forall e | e in es ensures e.key in expired <==> e.stamp < cutoff {
      var i :| 0 <= i < |es| && es[i] == e;
      if e.key in expired {
        var j :| 0 <= j < |es| && es[j].key == e.key && es[j].stamp < cutoff;
        assert i == j;
      }
    }
  }
}
