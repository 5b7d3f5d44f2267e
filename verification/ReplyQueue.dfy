/** The queue of pending peer replies (src/gvs_reply_queue.c): sixteen entries with a
    time to live, pruned by compaction in place, and repeated requests coalesced. */
module ReplyQueues {
  import opened Words

  const CAPACITY := 16
  const TTL_MS := 1000
  const UINT_MAX := 0xFFFF_FFFF

  type RequestData = d: seq<byte> | |d| == 2 witness [0, 0]

  datatype Reply = Reply(target: Address, requestData: RequestData, peerObserved: bool)

  datatype Entry = Entry(reply: Reply, expires: u64, repeats: nat)

  datatype Queue = Queue(entries: seq<Entry>, lastNow: u64)

  datatype Key = Key(target: Address, requestData: RequestData)

  function KeyOf(r: Reply): Key {
    Key(r.target, r.requestData)
  }

  function Bumped(repeats: nat): nat {
    if repeats < UINT_MAX then repeats + 1 else repeats
  }

  /** The entries that have not expired, in order. */
  function Live(entries: seq<Entry>, now: u64): seq<Entry> {
    if entries == [] then []
    else
      var n := |entries| - 1;
      Live(entries[..n], now) + if entries[n].expires > now then [entries[n]] else []
  }

  /** Where the key is queued, or the length. */
  function Find(entries: seq<Entry>, key: Key): (i: nat)
    ensures i <= |entries|
    ensures i < |entries| ==> KeyOf(entries[i].reply) == key
    ensures forall j :: 0 <= j < i ==> KeyOf(entries[j].reply) != key
  {
    if entries == [] then 0
    else
      var n := |entries| - 1;
      var i := Find(entries[..n], key);
      if i < n || KeyOf(entries[n].reply) == key then i else n + 1
  }

  function Enqueued(q: Queue, reply: Reply, now: u64): (Queue, Status, bool) {
    if now < q.lastNow || now > U64_MAX - TTL_MS then (q, Invalid, false)
    else
      var live := Live(q.entries, now);
      var i := Find(live, KeyOf(reply));
      if i < |live| then
        (Queue(live[i := Entry(reply, now + TTL_MS, Bumped(live[i].repeats))], now), Ok, true)
      else if |live| >= CAPACITY then (q, Io, false)
      else (Queue(live + [Entry(reply, now + TTL_MS, 1)], now), Ok, false)
  }

  function Expired(q: Queue, now: u64): (Queue, Status, nat)
  {
    LiveIsNoLonger(q.entries, now);
    if now < q.lastNow then (q, Invalid, 0)
    else (Queue(Live(q.entries, now), now), Ok, |q.entries| - |Live(q.entries, now)|)
  }

  function Taken(q: Queue, now: u64): (Queue, Status, Option<Entry>) {
    if now < q.lastNow then (q, Invalid, None)
    else
      var live := Live(q.entries, now);
      if live == [] then (Queue([], now), Io, None)
      else (Queue(live[1..], now), Ok, Some(live[0]))
  }

  // ---------------------------------------------------------------------------
  // Compaction is filtering.

  lemma LiveMore(entries: seq<Entry>, e: Entry, now: u64)
    ensures Live(entries + [e], now) == Live(entries, now) + if e.expires > now then [e] else []
  {
    assert (entries + [e])[..|entries|] == entries;
  }

  lemma NoneLive(now: u64)
    ensures Live([], now) == []
  {
  }

  lemma LastApart(entries: seq<Entry>)
    requires entries != []
    ensures entries == entries[..|entries| - 1] + [entries[|entries| - 1]]
  {
  }

  lemma {:induction false} LiveIsNoLonger(entries: seq<Entry>, now: u64)
    ensures |Live(entries, now)| <= |entries|
  {
    hide Live;
    if entries == [] {
      NoneLive(now);
    } else {
      var n := |entries| - 1;
      LiveIsNoLonger(entries[..n], now);
      LiveMore(entries[..n], entries[n], now);
      LastApart(entries);
    }
  }

  /** Exactly the entries past their time go, and the others keep their order. */
  lemma {:induction false} LiveIsFilter(entries: seq<Entry>, now: u64, e: Entry)
    ensures e in Live(entries, now) <==> e in entries && e.expires > now
    ensures multiset(Live(entries, now))[e] == if e.expires > now then multiset(entries)[e] else 0
  {
    hide Live;
    if entries == [] {
      NoneLive(now);
    } else {
      var n := |entries| - 1;
      LiveIsFilter(entries[..n], now, e);
      LiveMore(entries[..n], entries[n], now);
      LastApart(entries);
    }
  }

  /** Each survivor comes from its own, later, place. */
  lemma {:induction false} LiveKeepsOrder(entries: seq<Entry>, now: u64) returns (from: seq<nat>)
    ensures |from| == |Live(entries, now)|
    ensures forall i :: 0 <= i < |from| ==> from[i] < |entries| && entries[from[i]] == Live(entries, now)[i]
    ensures forall i, j :: 0 <= i < j < |from| ==> from[i] < from[j]
  {
    hide Live;
    if entries == [] {
      NoneLive(now);
      from := [];
    } else {
      var n := |entries| - 1;
      var rest := LiveKeepsOrder(entries[..n], now);
      LiveMore(entries[..n], entries[n], now);
      LastApart(entries);
      from := if entries[n].expires > now then rest + [n] else rest;
    }
  }

  // ---------------------------------------------------------------------------
  // What every operation keeps.

  ghost predicate UniqueKeys(entries: seq<Entry>) {
    forall i, j :: 0 <= i < j < |entries| ==> KeyOf(entries[i].reply) != KeyOf(entries[j].reply)
  }

  ghost predicate QueueOk(q: Queue) {
    && |q.entries| <= CAPACITY && UniqueKeys(q.entries)
    && forall i :: 0 <= i < |q.entries| ==>
         q.entries[i].expires <= q.lastNow + TTL_MS && 1 <= q.entries[i].repeats <= UINT_MAX
  }

  lemma LiveKeeps(q: Queue, now: u64)
    requires QueueOk(q) && q.lastNow <= now
    ensures QueueOk(Queue(Live(q.entries, now), now))
  {
    LiveIsNoLonger(q.entries, now);
    var from := LiveKeepsOrder(q.entries, now);
    hide Live;
  }

  datatype Operation = Enqueue(reply: Reply, now: u64) | Expire(now: u64) | Take(now: u64)

  function Apply(q: Queue, o: Operation): Queue {
    match o
    case Enqueue(reply, now) => Enqueued(q, reply, now).0
    case Expire(now) => Expired(q, now).0
    case Take(now) => Taken(q, now).0
  }

  lemma RefreshKeeps(entries: seq<Entry>, i: nat, e: Entry, now: u64)
    requires QueueOk(Queue(entries, now)) && i < |entries| && KeyOf(e.reply) == KeyOf(entries[i].reply)
    requires e.expires <= now + TTL_MS && 1 <= e.repeats <= UINT_MAX
    ensures QueueOk(Queue(entries[i := e], now))
  {
  }

  lemma AppendKeeps(entries: seq<Entry>, e: Entry, now: u64)
    requires QueueOk(Queue(entries, now)) && |entries| < CAPACITY
    requires forall j :: 0 <= j < |entries| ==> KeyOf(entries[j].reply) != KeyOf(e.reply)
    requires e.expires <= now + TTL_MS && 1 <= e.repeats <= UINT_MAX
    ensures QueueOk(Queue(entries + [e], now))
  {
  }

  lemma EnqueueKeeps(q: Queue, reply: Reply, now: u64)
    requires QueueOk(q)
    ensures QueueOk(Enqueued(q, reply, now).0)
  {
    hide Live, Find, QueueOk, KeyOf;
    if q.lastNow <= now <= U64_MAX - TTL_MS {
      LiveKeeps(q, now);
      var live := Live(q.entries, now);
      var i := Find(live, KeyOf(reply));
      if i < |live| {
        RepeatsInRange(Queue(live, now), i);
        SameKey(reply, now + TTL_MS, Bumped(live[i].repeats));
        RefreshKeeps(live, i, Entry(reply, now + TTL_MS, Bumped(live[i].repeats)), now);
      } else if |live| < CAPACITY {
        AppendKeeps(live, Entry(reply, now + TTL_MS, 1), now);
      }
    }
  }

  lemma SameKey(reply: Reply, expires: u64, repeats: nat)
    ensures KeyOf(Entry(reply, expires, repeats).reply) == KeyOf(reply)
  {
  }

  lemma RepeatsInRange(q: Queue, i: nat)
    requires QueueOk(q) && i < |q.entries|
    ensures 1 <= q.entries[i].repeats <= UINT_MAX && 1 <= Bumped(q.entries[i].repeats) <= UINT_MAX
  {
  }

  lemma TakeKeeps(q: Queue, now: u64)
    requires QueueOk(q)
    ensures QueueOk(Taken(q, now).0)
  {
    if q.lastNow <= now {
      LiveKeeps(q, now);
      hide Live, Find;
    }
  }

  lemma ApplyKeeps(q: Queue, o: Operation)
    requires QueueOk(q)
    ensures QueueOk(Apply(q, o))
  {
    if q.lastNow <= o.now {
      LiveKeeps(q, o.now);
    }
    hide QueueOk, Enqueued, Taken, Live;
    match o
    case Enqueue(reply, now) => EnqueueKeeps(q, reply, now);
    case Expire(now) =>
    case Take(now) => TakeKeeps(q, now);
  }

  /** The queue as a map: the entry waiting under a key. */
  function Lookup(q: Queue, key: Key): Option<Entry> {
    var i := Find(q.entries, key);
    if i < |q.entries| then Some(q.entries[i]) else None
  }

  function Fresh(e: Option<Entry>, now: u64): Option<Entry> {
    if e.Some? && e.value.expires > now then e else None
  }

  lemma LookupOf(entries: seq<Entry>, i: nat, t: u64)
    requires UniqueKeys(entries) && i < |entries|
    ensures Lookup(Queue(entries, t), KeyOf(entries[i].reply)) == Some(entries[i])
  {
  }

  lemma LiveLookup(q: Queue, key: Key, now: u64, t: u64)
    requires QueueOk(q) && q.lastNow <= now
    ensures Lookup(Queue(Live(q.entries, now), t), key) == Fresh(Lookup(q, key), now)
  {
    var live := Live(q.entries, now);
    LiveKeeps(q, now);
    var i := Find(live, key);
    var j := Find(q.entries, key);
    if i < |live| {
      LiveIsFilter(q.entries, now, live[i]);
      hide Live, Find;
      var k :| 0 <= k < |q.entries| && q.entries[k] == live[i];
      assert k == j;
    } else if j < |q.entries| && q.entries[j].expires > now {
      LiveIsFilter(q.entries, now, q.entries[j]);
    }
  }

  /** As a map, an accepted request sets its own key to a full time to live and one more
      repeat, and only expires the others; it is refused exactly when sixteen other
      requests are still live. */
  lemma EnqueueIsUpdate(q: Queue, reply: Reply, now: u64, key: Key)
    requires QueueOk(q) && q.lastNow <= now <= U64_MAX - TTL_MS
    ensures var (after, status, coalesced) := Enqueued(q, reply, now);
            var waiting := Fresh(Lookup(q, KeyOf(reply)), now);
            && (status == Io <==> waiting.None? && |Live(q.entries, now)| == 16)
            && (status == Io ==> after == q)
            && (coalesced <==> waiting.Some?)
            && (status == Ok ==>
                  Lookup(after, key) ==
                  if key != KeyOf(reply) then Fresh(Lookup(q, key), now)
                  else Some(Entry(reply, now + 1000, if waiting.Some? then Bumped(waiting.value.repeats) else 1)))
  {
    var live := Live(q.entries, now);
    LiveKeeps(q, now);
    LiveLookup(q, KeyOf(reply), now, now);
    LiveLookup(q, key, now, now);
    ApplyKeeps(q, Enqueue(reply, now));
    hide Live, Find, Fresh;
    var i := Find(live, KeyOf(reply));
    var after := Enqueued(q, reply, now).0;
    if i < |live| || |live| < CAPACITY {
      LookupOf(after.entries, i, now);
      var j := Find(live, key);
      if key != KeyOf(reply) {
        if j < |live| {
          LookupOf(after.entries, j, now);
        } else {
          var k := Find(after.entries, key);
          assert k < |after.entries| ==> k < |live| && k != i;
        }
      }
    }
  }

  // ---------------------------------------------------------------------------
  // Conservation over runs.

  /** How many requests were accepted, how many handed out, and how many ran out. */
  datatype Ledger = Ledger(q: Queue, accepted: nat, handedOut: nat, lapsed: nat)

  function Repeats(entries: seq<Entry>): nat {
    if entries == [] then 0 else Repeats(entries[..|entries| - 1]) + entries[|entries| - 1].repeats
  }

  function Recorded(l: Ledger, o: Operation): Ledger {
    LiveIsLess(l.q.entries, o.now);
    var lost := Repeats(l.q.entries) - Repeats(Live(l.q.entries, o.now));
    match o
    case Enqueue(reply, now) =>
      var (after, status, _) := Enqueued(l.q, reply, now);
      if status == Ok then Ledger(after, l.accepted + 1, l.handedOut, l.lapsed + lost) else l
    case Expire(now) =>
      var (after, status, _) := Expired(l.q, now);
      if status == Ok then Ledger(after, l.accepted, l.handedOut, l.lapsed + lost) else l
    case Take(now) =>
      var (after, status, e) := Taken(l.q, now);
      if status == Invalid then l
      else Ledger(after, l.accepted, l.handedOut + if e.Some? then e.value.repeats else 0, l.lapsed + lost)
  }

  lemma {:induction false} LiveIsLess(entries: seq<Entry>, now: u64)
    ensures Repeats(Live(entries, now)) <= Repeats(entries)
  {
    if entries != [] {
      var n := |entries| - 1;
      LiveIsLess(entries[..n], now);
      if entries[n].expires > now {
        RepeatsOfMore(Live(entries[..n], now), entries[n]);
      } else {
        assert Live(entries, now) == Live(entries[..n], now);
      }
    }
  }

  lemma RepeatsOfMore(entries: seq<Entry>, e: Entry)
    ensures Repeats(entries + [e]) == Repeats(entries) + e.repeats
  {
    assert (entries + [e])[..|entries|] == entries;
  }

  lemma {:induction false} RepeatsOfParts(a: seq<Entry>, b: seq<Entry>)
    ensures Repeats(a + b) == Repeats(a) + Repeats(b)
  {
    if b == [] {
      assert a + b == a;
    } else {
      var n := |b| - 1;
      RepeatsOfParts(a, b[..n]);
      assert (a + b)[..|a| + n] == a + b[..n];
    }
  }

  lemma RepeatsOfUpdate(entries: seq<Entry>, i: nat, e: Entry)
    requires i < |entries|
    ensures Repeats(entries[i := e]) == Repeats(entries) - entries[i].repeats + e.repeats
    ensures entries[i].repeats <= Repeats(entries)
  {
    var a, b := entries[..i], entries[i + 1..];
    assert entries == (a + [entries[i]]) + b && entries[i := e] == (a + [e]) + b;
    RepeatsOfParts(a + [entries[i]], b);
    RepeatsOfParts(a + [e], b);
    RepeatsOfMore(a, entries[i]);
    RepeatsOfMore(a, e);
  }

  function RunLedger(operations: seq<Operation>, start: u64): Ledger {
    if operations == [] then Ledger(Queue([], start), 0, 0, 0)
    else
      var n := |operations| - 1;
      Recorded(RunLedger(operations[..n], start), operations[n])
  }

  ghost predicate Balanced(l: Ledger) {
    && QueueOk(l.q)
    && (l.accepted <= UINT_MAX ==> l.accepted == Repeats(l.q.entries) + l.handedOut + l.lapsed)
  }

  lemma EnqueueBalances(q: Queue, reply: Reply, now: u64)
    ensures var (after, status, _) := Enqueued(q, reply, now);
            var live := Live(q.entries, now);
            status == Ok && Repeats(live) < UINT_MAX ==> Repeats(after.entries) == Repeats(live) + 1
  {
    var live := Live(q.entries, now);
    hide Live, Repeats;
    if Enqueued(q, reply, now).1 == Ok {
      var i := Find(live, KeyOf(reply));
      if i < |live| {
        RepeatsOfUpdate(live, i, Entry(reply, now + TTL_MS, Bumped(live[i].repeats)));
      } else {
        RepeatsOfMore(live, Entry(reply, now + TTL_MS, 1));
      }
    }
  }

  lemma TakeBalances(q: Queue, now: u64)
    ensures var (after, status, e) := Taken(q, now);
            status != Invalid ==>
              Repeats(after.entries) + (if e.Some? then e.value.repeats else 0) == Repeats(Live(q.entries, now))
  {
    var live := Live(q.entries, now);
    hide Live;
    if live != [] {
      assert live == [live[0]] + live[1..];
      RepeatsOfParts([live[0]], live[1..]);
      hide Repeats;
      assert [] + [live[0]] == [live[0]];
      RepeatsOfMore([], live[0]);
      assert Repeats([]) == 0 by { NoRepeats(); }
    }
  }

  lemma NoRepeats()
    ensures Repeats([]) == 0
  {
  }

  lemma RecordedKeeps(l: Ledger, o: Operation)
    requires Balanced(l)
    ensures Balanced(Recorded(l, o))
  {
    ApplyKeeps(l.q, o);
    LiveIsLess(l.q.entries, o.now);
    hide Live, Repeats, Find, QueueOk, Enqueued, Taken;
    match o
    case Enqueue(reply, now) => EnqueueBalances(l.q, reply, now); EnqueueRefused(l.q, reply, now);
    case Expire(now) =>
    case Take(now) => TakeBalances(l.q, now);
  }

  lemma EnqueueRefused(q: Queue, reply: Reply, now: u64)
    ensures Enqueued(q, reply, now).1 != Ok ==> Enqueued(q, reply, now).0 == q
  {
  }

  /** On every run the keys stay unique, no entry outlives its time to live, and every
      accepted request is still waiting, was handed out, or ran out of time. */
  lemma {:induction false} EveryRunBalances(operations: seq<Operation>, start: u64)
    ensures Balanced(RunLedger(operations, start))
  {
    if operations == [] {
      NoRepeats();
    } else {
      var n := |operations| - 1;
      EveryRunBalances(operations[..n], start);
      RecordedKeeps(RunLedger(operations[..n], start), operations[n]);
    }
  }

  /** No operation is refused but for its clock or a full queue, and expiring forgets exactly
      what is not live, and counts it. */
  lemma OperationsAreAnswered(q: Queue, reply: Reply, now: u64)
    ensures Enqueued(q, reply, now).1 == Invalid <==> now < q.lastNow || now > U64_MAX - 1000
    ensures Taken(q, now).1 == Invalid <==> now < q.lastNow
    ensures var (after, status, gone) := Expired(q, now);
            && (status == Ok <==> now >= q.lastNow)
            && (status == Ok ==> after.lastNow == now && |after.entries| + gone == |q.entries|
                                 && forall e :: e in after.entries <==> e in q.entries && e.expires > now)
            && (status != Ok ==> after == q)
  {
    forall e ensures e in Live(q.entries, now) <==> e in q.entries && e.expires > now {
      LiveIsFilter(q.entries, now, e);
    }
    hide Live;
  }

  /** Replies leave in the order in which they were first asked for, and never stale. */
  lemma TakeIsOldest(q: Queue, now: u64)
    requires QueueOk(q) && q.lastNow <= now
    ensures var (after, status, e) := Taken(q, now);
            && (e.None? <==> forall x :: x in q.entries ==> x.expires <= now)
            && (e.Some? ==> status == Ok && e.value.expires > now && Lookup(after, KeyOf(e.value.reply)).None?)
            && (e.Some? ==> exists i :: 0 <= i < |q.entries| && q.entries[i] == e.value
                              && forall j :: 0 <= j < i ==> q.entries[j].expires <= now)
  {
    var live := Live(q.entries, now);
    LiveKeeps(q, now);
    FirstLive(q.entries, now);
    hide Live, Find;
    if live == [] {
      forall x | x in q.entries ensures x.expires <= now {
        LiveIsFilter(q.entries, now, x);
      }
    } else {
      LiveIsFilter(q.entries, now, live[0]);
      assert forall k :: 0 <= k < |live| - 1 ==> live[1..][k] == live[k + 1];
    }
  }

  lemma {:induction false} FirstLive(entries: seq<Entry>, now: u64)
    ensures var live := Live(entries, now);
            live != [] ==>
              exists i :: 0 <= i < |entries| && entries[i] == live[0]
                && forall j :: 0 <= j < i ==> entries[j].expires <= now
    ensures Live(entries, now) == [] ==> forall j :: 0 <= j < |entries| ==> entries[j].expires <= now
  {
    hide Live;
    if entries == [] {
      NoneLive(now);
    } else {
      var n := |entries| - 1;
      FirstLive(entries[..n], now);
      LiveMore(entries[..n], entries[n], now);
      LastApart(entries);
      var live := Live(entries[..n], now);
      if live != [] {
        var i :| 0 <= i < n && entries[..n][i] == live[0] && forall j :: 0 <= j < i ==> entries[..n][j].expires <= now;
        assert entries[i] == Live(entries, now)[0];
        assert forall j :: 0 <= j < i ==> entries[j] == entries[..n][j];
      } else {
        assert forall j :: 0 <= j < n ==> entries[j] == entries[..n][j];
      }
    }
  }

  // ---------------------------------------------------------------------------
  // The queue in place.

  function Blank(): Entry {
    Entry(Reply([0, 0, 0, 0, 0, 0], [0, 0], false), 0, 0)
  }

  method ClearFrom(a: array<Entry>, from: nat, to: nat)
    requires from <= to <= a.Length
    modifies a
    ensures a[..from] == old(a[..from])
    ensures forall k :: from <= k < a.Length ==> a[k] == if k < to then Blank() else old(a[k])
  {
    forall k | from <= k < to {
      a[k] := Blank();
    }
  }

  class ReplyQueue {
    var entries: array<Entry>
    var count: nat
    var lastNow: u64

    /** The slots past the count are zeroed. */
    ghost predicate Valid()
      reads this, entries
    {
      && entries.Length == CAPACITY && count <= CAPACITY
      && forall k :: count <= k < CAPACITY ==> entries[k] == Blank()
    }

    ghost function Value(): Queue
      requires Valid()
      reads this, entries
    {
      Queue(entries[..count], lastNow)
    }

    constructor (now: u64)
      ensures Valid() && fresh(entries) && Value() == Queue([], now)
    {
      entries := new Entry[CAPACITY](_ => Blank());
      count, lastNow := 0, now;
    }

    /** A struct assignment. */
    constructor CopyOf(q: ReplyQueue)
      requires q.Valid()
      ensures Valid() && fresh(entries) && Value() == q.Value()
    {
      var copy := new Entry[CAPACITY](i requires 0 <= i < CAPACITY && q.entries.Length == CAPACITY reads q, q.entries
        => q.entries[i]);
      entries, count, lastNow := copy, q.count, q.lastNow;
    }

    method Commit(q: ReplyQueue)
      requires q.Valid()
      modifies this
      ensures entries == q.entries && count == q.count && lastNow == q.lastNow
    {
      entries, count, lastNow := q.entries, q.count, q.lastNow;
    }

    /** Compacts the entries in place. */
    method Prune(now: u64) returns (expired: nat)
      requires Valid()
      modifies this, entries
      ensures Valid() && entries == old(entries)
      ensures Value() == Queue(Live(old(Value()).entries, now), now)
      ensures expired == |old(Value()).entries| - |Value().entries|
    {
      hide Live;
      NoneLive(now);
      var a, n := entries, count;
      ghost var was := a[..n];
      var write := 0;
      expired := 0;
      for read := 0 to n
        modifies a
        invariant write + expired == read && 0 <= expired
        invariant a[..write] == Live(was[..read], now)
        invariant forall k :: read <= k < n ==> a[k] == was[k]
        invariant forall k :: n <= k < CAPACITY ==> a[k] == Blank()
      {
        assert was[..read + 1] == was[..read] + [was[read]];
        LiveMore(was[..read], was[read], now);
        if a[read].expires <= now {
          expired := expired + 1;
        } else {
          if write != read {
            a[write] := a[read];
          }
          write := write + 1;
        }
      }
      assert was[..n] == was;
      ClearFrom(a, write, n);
      count, lastNow := write, now;
    }

    method Enqueue(reply: Reply, now: u64) returns (status: Status, coalesced: bool)
      requires Valid()
      modifies this
      ensures Valid() && (entries == old(entries) || fresh(entries))
      ensures (Value(), status, coalesced) == Enqueued(old(Value()), reply, now)
    {
      if now < lastNow || now > U64_MAX - TTL_MS {
        return Invalid, false;
      }
      var next := new ReplyQueue.CopyOf(this);
      var _ := next.Prune(now);
      hide Live, Find;
      var index := next.Search(KeyOf(reply));
      if index < next.count {
        next.Put(index, Entry(reply, now + TTL_MS, Bumped(next.entries[index].repeats)));
        Commit(next);
        return Ok, true;
      }
      if next.count >= CAPACITY {
        return Io, false;
      }
      next.Append(Entry(reply, now + TTL_MS, 1));
      Commit(next);
      return Ok, false;
    }

    method Search(key: Key) returns (index: nat)
      requires Valid()
      ensures index == Find(Value().entries, key)
    {
      index := 0;
      while index < count && KeyOf(entries[index].reply) != key
        invariant index <= count
        invariant forall j :: 0 <= j < index ==> KeyOf(entries[j].reply) != key
      {
        index := index + 1;
      }
    }

    method Put(i: nat, e: Entry)
      requires Valid() && i < count
      modifies entries
      ensures Valid() && Value() == old(Value()).(entries := old(Value()).entries[i := e])
    {
      entries[i] := e;
    }

    method Append(e: Entry)
      requires Valid() && count < CAPACITY
      modifies this`count, entries
      ensures Valid() && Value() == old(Value()).(entries := old(Value()).entries + [e])
    {
      entries[count] := e;
      count := count + 1;
    }

    method RemoveFirst() returns (e: Entry)
      requires Valid() && count > 0
      modifies this`count, entries
      ensures Valid() && [e] + Value().entries == old(Value()).entries && lastNow == old(lastNow)
    {
      e := entries[0];
      forall k | 0 <= k < count - 1 {
        entries[k] := entries[k + 1];
      }
      entries[count - 1] := Blank();
      count := count - 1;
    }

    method Expire(now: u64) returns (status: Status, expired: nat)
      requires Valid()
      modifies this
      ensures Valid() && (entries == old(entries) || fresh(entries))
      ensures (Value(), status, expired) == Expired(old(Value()), now)
    {
      if now < lastNow {
        return Invalid, 0;
      }
      var next := new ReplyQueue.CopyOf(this);
      expired := next.Prune(now);
      Commit(next);
      return Ok, expired;
    }

    method Take(now: u64) returns (status: Status, e: Option<Entry>)
      requires Valid()
      modifies this
      ensures Valid() && (entries == old(entries) || fresh(entries))
      ensures (Value(), status, e) == Taken(old(Value()), now)
    {
      hide Live;
      if now < lastNow {
        return Invalid, None;
      }
      var next := new ReplyQueue.CopyOf(this);
      var _ := next.Prune(now);
      if next.count == 0 {
        Commit(next);
        return Io, None;
      }
      var first := next.RemoveFirst();
      Commit(next);
      return Ok, Some(first);
    }
  }
}
