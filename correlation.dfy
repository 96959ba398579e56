/** `correlate`: registry entries and event-log entries merged into one record per
    device, kept in a dictionary whose iteration order is insertion order. */
module Correlation {
  import opened Text

  datatype RegistryEntry = RegistryEntry(
    deviceId: string, vid: Option<string>, pid: Option<string>,
    serial: Option<string>, lastWrite: Option<string>)

  /** An event entry; `message` and `description` are absent on the plain event-log
      entries and read as `None`. */
  datatype EventEntry = EventEntry(
    eventId: Option<int>, timestamp: Option<string>, deviceName: Option<string>,
    message: Option<string>, description: Option<string>)

  /** One `{'timestamp', 'event_id', 'message'}` action appended to a record. */
  datatype Action = Action(timestamp: Option<string>, eventId: Option<int>, message: string)

  /** `DeviceRecord`; the optional storage, folder, file, deleted-file, online and scan
      fields keep their empty defaults here and are not modelled. */
  datatype DeviceRecord = DeviceRecord(
    deviceId: string, name: Option<string>, vid: Option<string>, pid: Option<string>,
    serial: Option<string>, firstSeen: Option<string>, lastSeen: Option<string>,
    connections: int, events: seq<Action>)

  // ---------------------------------------------------------------- truthiness

  /** `s or d` for a `str | None`. */
  function OrElse(s: Option<string>, d: string): (r: string)
    ensures r == d || (s.Some? && r == s.value)
    ensures r != "" <==> (Truthy(s) || d != "")
  {
    if Truthy(s) then s.value else d
  }

  /** `f"{ts}"`: `None` renders as `None`. */
  function Render(ts: Option<string>): string {
    if ts.Some? then ts.value else "None"
  }

  // ---------------------------------------------------------------- the per-entry rules

  function RegistryKey(r: RegistryEntry): string {
    OrElse(r.serial, r.deviceId)
  }

  function RegistryRecord(r: RegistryEntry): DeviceRecord {
    DeviceRecord(r.deviceId, None, r.vid, r.pid, r.serial, r.lastWrite, r.lastWrite, 0, [])
  }

  function ActionOf(e: EventEntry): Action {
    Action(e.timestamp, e.eventId, OrElse(e.message, OrElse(e.description, "")))
  }

  /** The key of an event-only device: the device name, or `event-` and the timestamp. */
  function EventKey(e: EventEntry): string {
    OrElse(e.deviceName, "event-" + Render(e.timestamp))
  }

  function NewEventRecord(e: EventEntry): DeviceRecord {
    DeviceRecord(EventKey(e), e.deviceName, None, None, None, e.timestamp, e.timestamp, 1, [ActionOf(e)])
  }

  /** A record's serial is non-empty and occurs in the event's device name. */
  predicate SerialMatches(rec: DeviceRecord, name: Option<string>) {
    Truthy(rec.serial) && Contains(OrElse(name, ""), rec.serial.value)
  }

  /** One more connection: the action is appended and, for a non-empty timestamp,
      `last_seen` and `first_seen` move out to it. */
  function Touch(rec: DeviceRecord, ts: Option<string>, action: Action): DeviceRecord {
    rec.(connections := rec.connections + 1,
         lastSeen := if Truthy(ts) && (rec.lastSeen.None? || StrLess(rec.lastSeen.value, ts.value)) then ts else rec.lastSeen,
         firstSeen := if Truthy(ts) && (rec.firstSeen.None? || StrLess(ts.value, rec.firstSeen.value)) then ts else rec.firstSeen,
         events := rec.events + [action])
  }

  // ---------------------------------------------------------------- the ordered dictionary

  /** A `dict[str, DeviceRecord]`: its keys in insertion order and its entries. */
  datatype Store = Store(keys: seq<string>, recs: map<string, DeviceRecord>)

  predicate Valid(s: Store) {
    (forall i :: 0 <= i < |s.keys| ==> s.keys[i] in s.recs)
    && (forall k :: k in s.recs ==> k in s.keys)
    && (forall i, j :: 0 <= i < j < |s.keys| ==> s.keys[i] != s.keys[j])
  }

  /** `records[k] = rec`: a new key goes to the end, an existing key keeps its place. */
  function Put(s: Store, k: string, rec: DeviceRecord): (t: Store)
    requires Valid(s)
    ensures Valid(t)
    ensures t.recs == s.recs[k := rec]
    ensures k in s.recs ==> t.keys == s.keys
    ensures k !in s.recs ==> t.keys == s.keys + [k]
  {
    Store(if k in s.recs then s.keys else s.keys + [k], s.recs[k := rec])
  }

  /** `records.values()`, in insertion order. */
  function Values(s: Store): (r: seq<DeviceRecord>)
    requires Valid(s)
    ensures |r| == |s.keys|
    ensures forall k :: k in s.recs ==> s.recs[k] in r
    ensures forall x :: x in r ==> exists k :: k in s.recs && s.recs[k] == x
  {
    var r := seq(|s.keys|, i requires 0 <= i < |s.keys| && Valid(s) => s.recs[s.keys[i]]);
    assert forall k :: k in s.recs ==> exists i :: 0 <= i < |s.keys| && s.keys[i] == k && r[i] == s.recs[k];
    r
  }

  /** The first record, in insertion order, at or after position `i` whose serial
      occurs in `name`. */
  function FirstMatchFrom(s: Store, name: Option<string>, i: nat): (r: Option<nat>)
    requires Valid(s)
    decreases |s.keys| - i
    ensures r.Some? ==> i <= r.value < |s.keys| && SerialMatches(s.recs[s.keys[r.value]], name)
    ensures r.Some? ==> forall j :: i <= j < r.value ==> !SerialMatches(s.recs[s.keys[j]], name)
    ensures r.None? ==> forall j :: i <= j < |s.keys| ==> !SerialMatches(s.recs[s.keys[j]], name)
  {
    if i >= |s.keys| then None
    else if SerialMatches(s.recs[s.keys[i]], name) then Some(i)
    else FirstMatchFrom(s, name, i + 1)
  }

  /** The body of the event loop for one event. */
  function EventStep(s: Store, e: EventEntry): (t: Store)
    requires Valid(s)
    ensures Valid(t)
  {
    match FirstMatchFrom(s, e.deviceName, 0)
    case Some(i) => Put(s, s.keys[i], Touch(s.recs[s.keys[i]], e.timestamp, ActionOf(e)))
    case None =>
      var k := EventKey(e);
      if k in s.recs then Put(s, k, Touch(s.recs[k], e.timestamp, ActionOf(e)))
      else Put(s, k, NewEventRecord(e))
  }

  /** The registry loop over `reg`. */
  function RegistryStore(reg: seq<RegistryEntry>): (s: Store)
    ensures Valid(s)
  {
    if reg == [] then Store([], map[])
    else
      var last := reg[|reg| - 1];
      Put(RegistryStore(reg[..|reg| - 1]), RegistryKey(last), RegistryRecord(last))
  }

  /** The event loop over `events`, starting from `s`. */
  function EventsStore(s: Store, events: seq<EventEntry>): (t: Store)
    requires Valid(s)
    ensures Valid(t)
  {
    if events == [] then s
    else EventStep(EventsStore(s, events[..|events| - 1]), events[|events| - 1])
  }

  function CorrelateSpec(reg: seq<RegistryEntry>, events: seq<EventEntry>): seq<DeviceRecord> {
    Values(EventsStore(RegistryStore(reg), events))
  }

  // ---------------------------------------------------------------- the procedure

  method Correlate(registry: seq<RegistryEntry>, events: seq<EventEntry>) returns (result: seq<DeviceRecord>)
    ensures result == CorrelateSpec(registry, events)
  {
    var keys: seq<string> := [];
    var recs: map<string, DeviceRecord> := map[];
    var i := 0;
    while i < |registry|
      invariant 0 <= i <= |registry|
      invariant Store(keys, recs) == RegistryStore(registry[..i])
    {
      var r := registry[i];
      var key := RegistryKey(r);
      if key !in recs {
        keys := keys + [key];
      }
      recs := recs[key := RegistryRecord(r)];
      assert registry[..i + 1][..i] == registry[..i];
      i := i + 1;
    }
    assert registry[..i] == registry;
    ghost var start := Store(keys, recs);

    var j := 0;
    while j < |events|
      invariant 0 <= j <= |events|
      invariant Valid(Store(keys, recs))
      invariant Store(keys, recs) == EventsStore(start, events[..j])
    {
      keys, recs := AddEvent(keys, recs, events[j]);
      assert events[..j + 1][..j] == events[..j];
      j := j + 1;
    }
    assert events[..j] == events;
    result := Values(Store(keys, recs));
  }

  /** The body of the event loop: look for a serial match, else the event-only key. */
  method AddEvent(keys: seq<string>, recs: map<string, DeviceRecord>, e: EventEntry)
    returns (keys': seq<string>, recs': map<string, DeviceRecord>)
    requires Valid(Store(keys, recs))
    ensures Store(keys', recs') == EventStep(Store(keys, recs), e)
  {
    var name, ts := e.deviceName, e.timestamp;
    var action := ActionOf(e);
    ghost var s := Store(keys, recs);

    // the first record whose serial occurs in the device name
    var m := 0;
    while m < |keys| && !SerialMatches(recs[keys[m]], name)
      invariant 0 <= m <= |keys|
      invariant FirstMatchFrom(s, name, m) == FirstMatchFrom(s, name, 0)
    {
      m := m + 1;
    }

    var key := if m < |keys| then keys[m] else EventKey(e);
    keys', recs' := keys, recs;
    if m == |keys| && key !in recs {
      keys' := keys + [key];
      recs' := recs[key := DeviceRecord(key, name, None, None, None, ts, ts, 1, [action])];
    } else {
      var rec := recs[key];
      rec := rec.(connections := rec.connections + 1);
      if Truthy(ts) && (rec.lastSeen.None? || StrLess(rec.lastSeen.value, ts.value)) {
        rec := rec.(lastSeen := ts);
      }
      if Truthy(ts) && (rec.firstSeen.None? || StrLess(ts.value, rec.firstSeen.value)) {
        rec := rec.(firstSeen := ts);
      }
      rec := rec.(events := rec.events + [action]);
      recs' := recs[key := rec];
    }
  }

  // ---------------------------------------------------------------- sums over the records

  function Sum<T>(xs: seq<T>, f: T -> int): int {
    if xs == [] then 0 else Sum(xs[..|xs| - 1], f) + f(xs[|xs| - 1])
  }

  lemma {:induction false} SumUpdate<T>(xs: seq<T>, p: nat, x: T, f: T -> int)
    requires p < |xs|
    ensures Sum(xs[p := x], f) == Sum(xs, f) - f(xs[p]) + f(x)
  {
    var n := |xs| - 1;
    if p < n {
      assert xs[p := x][..n] == xs[..n][p := x];
      SumUpdate(xs[..n], p, x, f);
    } else {
      assert xs[p := x][..n] == xs[..n];
    }
  }

  lemma SumSnoc<T>(xs: seq<T>, x: T, f: T -> int)
    ensures Sum(xs + [x], f) == Sum(xs, f) + f(x)
  {
    assert (xs + [x])[..|xs|] == xs;
  }

  /** Storing under an existing key replaces its value in place. */
  lemma ValuesPutExisting(s: Store, k: string, rec: DeviceRecord, p: nat)
    requires Valid(s) && p < |s.keys| && s.keys[p] == k
    ensures Values(Put(s, k, rec)) == Values(s)[p := rec]
  {
    var vs, vt := Values(s), Values(Put(s, k, rec));
    forall i | 0 <= i < |vt|
      ensures vt[i] == vs[p := rec][i]
    {
      if i != p {
        assert s.keys[i] != s.keys[p];
      }
    }
  }

  /** Storing under a new key appends its value. */
  lemma ValuesPutNew(s: Store, k: string, rec: DeviceRecord)
    requires Valid(s) && k !in s.recs
    ensures Values(Put(s, k, rec)) == Values(s) + [rec]
  {
    var vs, vt := Values(s), Values(Put(s, k, rec));
    forall i | 0 <= i < |vt|
      ensures vt[i] == (vs + [rec])[i]
    {
      if i < |vs| {
        assert s.keys[i] != k;
      }
    }
  }

  /** Storing a record changes the sum by the difference between it and what it
      replaced. */
  lemma PutSum(s: Store, k: string, rec: DeviceRecord, f: DeviceRecord -> int)
    requires Valid(s)
    ensures Sum(Values(Put(s, k, rec)), f) == Sum(Values(s), f) - (if k in s.recs then f(s.recs[k]) else 0) + f(rec)
  {
    if k in s.recs {
      var p :| 0 <= p < |s.keys| && s.keys[p] == k;
      ValuesPutExisting(s, k, rec, p);
      SumUpdate(Values(s), p, rec, f);
    } else {
      ValuesPutNew(s, k, rec);
      SumSnoc(Values(s), rec, f);
    }
  }

  function Connections(r: DeviceRecord): int { r.connections }
  function EventCount(r: DeviceRecord): int { |r.events| }

  lemma {:induction false} RegistryFresh(reg: seq<RegistryEntry>)
    ensures forall k :: k in RegistryStore(reg).recs ==> RegistryStore(reg).recs[k].connections == 0
    ensures forall k :: k in RegistryStore(reg).recs ==> RegistryStore(reg).recs[k].events == []
  {
    if reg != [] {
      RegistryFresh(reg[..|reg| - 1]);
    }
  }

  lemma {:induction false} RegistrySums(reg: seq<RegistryEntry>)
    ensures Sum(Values(RegistryStore(reg)), Connections) == 0
    ensures Sum(Values(RegistryStore(reg)), EventCount) == 0
  {
    if reg != [] {
      var s := RegistryStore(reg[..|reg| - 1]);
      var last := reg[|reg| - 1];
      RegistrySums(reg[..|reg| - 1]);
      RegistryFresh(reg[..|reg| - 1]);
      PutSum(s, RegistryKey(last), RegistryRecord(last), Connections);
      PutSum(s, RegistryKey(last), RegistryRecord(last), EventCount);
    }
  }

  /** One event adds exactly one connection and one action to the store's totals. */
  lemma EventStepSums(s: Store, e: EventEntry)
    requires Valid(s)
    ensures Sum(Values(EventStep(s, e)), Connections) == Sum(Values(s), Connections) + 1
    ensures Sum(Values(EventStep(s, e)), EventCount) == Sum(Values(s), EventCount) + 1
  {
    match FirstMatchFrom(s, e.deviceName, 0)
    case Some(i) =>
      var k := s.keys[i];
      PutSum(s, k, Touch(s.recs[k], e.timestamp, ActionOf(e)), Connections);
      PutSum(s, k, Touch(s.recs[k], e.timestamp, ActionOf(e)), EventCount);
    case None =>
      var k := EventKey(e);
      if k in s.recs {
        PutSum(s, k, Touch(s.recs[k], e.timestamp, ActionOf(e)), Connections);
        PutSum(s, k, Touch(s.recs[k], e.timestamp, ActionOf(e)), EventCount);
      } else {
        PutSum(s, k, NewEventRecord(e), Connections);
        PutSum(s, k, NewEventRecord(e), EventCount);
      }
  }

  lemma {:induction false} EventsStoreSums(s: Store, events: seq<EventEntry>)
    requires Valid(s)
    ensures Sum(Values(EventsStore(s, events)), Connections) == Sum(Values(s), Connections) + |events|
    ensures Sum(Values(EventsStore(s, events)), EventCount) == Sum(Values(s), EventCount) + |events|
  {
    if events != [] {
      EventsStoreSums(s, events[..|events| - 1]);
      EventStepSums(EventsStore(s, events[..|events| - 1]), events[|events| - 1]);
    }
  }

  /** Every event increments the connections of exactly one record, and registry
      records start at zero: the connections of the result add up to the number of
      events. */
  lemma CorrelateConnections(reg: seq<RegistryEntry>, events: seq<EventEntry>)
    ensures Sum(CorrelateSpec(reg, events), Connections) == |events|
  {
    RegistrySums(reg);
    EventsStoreSums(RegistryStore(reg), events);
  }

  /** Every event's action lands in exactly one record: the actions of the result add
      up to the number of events. */
  lemma CorrelateEventCount(reg: seq<RegistryEntry>, events: seq<EventEntry>)
    ensures Sum(CorrelateSpec(reg, events), EventCount) == |events|
  {
    RegistrySums(reg);
    EventsStoreSums(RegistryStore(reg), events);
  }

  // ---------------------------------------------------------------- keys and records

  /** Every registry entry has a record under `serial or device_id`; the record under
      a key is the one built from the last entry with that key; every key comes from
      some entry. */
  lemma RegistryStoreRecords(reg: seq<RegistryEntry>)
    ensures forall i :: 0 <= i < |reg| ==> RegistryKey(reg[i]) in RegistryStore(reg).recs
    ensures forall i :: 0 <= i < |reg| && (forall j :: i < j < |reg| ==> RegistryKey(reg[j]) != RegistryKey(reg[i]))
              ==> RegistryStore(reg).recs[RegistryKey(reg[i])] == RegistryRecord(reg[i])
    ensures forall k :: k in RegistryStore(reg).recs ==> exists i :: 0 <= i < |reg| && RegistryKey(reg[i]) == k
  {
    RegistryPrefixFacts(reg, |reg|);
    assert reg[..|reg|] == reg;
    forall i | 0 <= i < |reg| && (forall j :: i < j < |reg| ==> RegistryKey(reg[j]) != RegistryKey(reg[i]))
      ensures RegistryStore(reg).recs[RegistryKey(reg[i])] == RegistryRecord(reg[i])
    {
      assert LastWithKey(reg, i, |reg|);
    }
    forall k | k in RegistryStore(reg).recs
      ensures exists i :: 0 <= i < |reg| && RegistryKey(reg[i]) == k
    {
      assert KeyOfSome(reg, |reg|, k);
    }
  }

  /** No entry after the `i`-th and before the `n`-th has the `i`-th entry's key. */
  predicate LastWithKey(reg: seq<RegistryEntry>, i: nat, n: nat)
    requires i < n <= |reg|
  {
    forall j :: i < j < n ==> RegistryKey(reg[j]) != RegistryKey(reg[i])
  }

  /** Some of the first `n` entries has key `k`. */
  predicate KeyOfSome(reg: seq<RegistryEntry>, n: nat, k: string)
    requires n <= |reg|
  {
    exists i :: 0 <= i < n && RegistryKey(reg[i]) == k
  }

  /** The three facts about the records built from the first `n` entries. */
  predicate RegistryFacts(reg: seq<RegistryEntry>, n: nat, m: map<string, DeviceRecord>)
    requires n <= |reg|
  {
    (forall i :: 0 <= i < n ==> RegistryKey(reg[i]) in m)
    && (forall i :: 0 <= i < n && LastWithKey(reg, i, n)
          ==> RegistryKey(reg[i]) in m && m[RegistryKey(reg[i])] == RegistryRecord(reg[i]))
    && (forall k :: k in m ==> KeyOfSome(reg, n, k))
  }

  lemma {:induction false} RegistryPrefixFacts(reg: seq<RegistryEntry>, n: nat)
    requires n <= |reg|
    ensures RegistryFacts(reg, n, RegistryStore(reg[..n]).recs)
  {
    if n > 0 {
      RegistryPrefixFacts(reg, n - 1);
      assert reg[..n][..n - 1] == reg[..n - 1];
      RegistryFactsStep(reg, n - 1, RegistryStore(reg[..n - 1]).recs);
    }
  }

  lemma RegistryFactsStep(reg: seq<RegistryEntry>, n: nat, m: map<string, DeviceRecord>)
    requires n < |reg| && RegistryFacts(reg, n, m)
    ensures RegistryFacts(reg, n + 1, m[RegistryKey(reg[n]) := RegistryRecord(reg[n])])
  {
    var m' := m[RegistryKey(reg[n]) := RegistryRecord(reg[n])];
    forall i | 0 <= i < n + 1 && LastWithKey(reg, i, n + 1)
      ensures RegistryKey(reg[i]) in m' && m'[RegistryKey(reg[i])] == RegistryRecord(reg[i])
    {
      if i < n {
        assert RegistryKey(reg[n]) != RegistryKey(reg[i]);
        assert LastWithKey(reg, i, n);
      }
    }
    forall k | k in m'
      ensures KeyOfSome(reg, n + 1, k)
    {
      if k == RegistryKey(reg[n]) {
        assert RegistryKey(reg[n]) == k;
      } else {
        assert KeyOfSome(reg, n, k);
      }
    }
  }

  /** An event goes to the first record, in insertion order, whose non-empty serial
      occurs in its device name; only that record changes. */
  lemma EventToFirstSerialMatch(s: Store, e: EventEntry, i: nat)
    requires Valid(s) && i < |s.keys|
    requires SerialMatches(s.recs[s.keys[i]], e.deviceName)
    requires forall j :: 0 <= j < i ==> !SerialMatches(s.recs[s.keys[j]], e.deviceName)
    ensures EventStep(s, e).keys == s.keys
    ensures EventStep(s, e).recs == s.recs[s.keys[i] := Touch(s.recs[s.keys[i]], e.timestamp, ActionOf(e))]
  {
  }

  /** An event no serial matches goes to `device_name or "event-{ts}"`: a new key is
      appended with one connection, the timestamp as first and last seen and the one
      action; an existing record there is touched. */
  lemma UnmatchedEventRecord(s: Store, e: EventEntry)
    requires Valid(s)
    requires forall j :: 0 <= j < |s.keys| ==> !SerialMatches(s.recs[s.keys[j]], e.deviceName)
    ensures Truthy(e.deviceName) ==> EventKey(e) == e.deviceName.value
    ensures !Truthy(e.deviceName) ==> EventKey(e) == "event-" + Render(e.timestamp)
    ensures EventKey(e) !in s.recs ==>
              EventStep(s, e).keys == s.keys + [EventKey(e)]
              && EventStep(s, e).recs[EventKey(e)] == DeviceRecord(EventKey(e), e.deviceName, None, None, None,
                                                                   e.timestamp, e.timestamp, 1, [ActionOf(e)])
    ensures EventKey(e) in s.recs ==>
              EventStep(s, e).keys == s.keys
              && EventStep(s, e).recs == s.recs[EventKey(e) := Touch(s.recs[EventKey(e)], e.timestamp, ActionOf(e))]
  {
  }

  // ---------------------------------------------------------------- first and last seen

  /** `first_seen <= last_seen` whenever both are set. */
  predicate SeenOrdered(r: DeviceRecord) {
    r.firstSeen.Some? && r.lastSeen.Some? ==> !StrLess(r.lastSeen.value, r.firstSeen.value)
  }

  /** For a non-empty timestamp `last_seen` becomes the larger and `first_seen` the
      smaller of the old value and the timestamp; otherwise both stay. */
  lemma TouchSeen(rec: DeviceRecord, ts: Option<string>, action: Action)
    ensures var t := Touch(rec, ts, action);
      t.connections == rec.connections + 1 && t.events == rec.events + [action]
      && (!Truthy(ts) ==> t.firstSeen == rec.firstSeen && t.lastSeen == rec.lastSeen)
      && (Truthy(ts) ==>
            t.lastSeen.Some? && t.firstSeen.Some?
            && (t.lastSeen == ts || t.lastSeen == rec.lastSeen)
            && (t.firstSeen == ts || t.firstSeen == rec.firstSeen)
            && !StrLess(t.lastSeen.value, ts.value) && !StrLess(ts.value, t.firstSeen.value)
            && (rec.lastSeen.Some? ==> !StrLess(t.lastSeen.value, rec.lastSeen.value))
            && (rec.firstSeen.Some? ==> !StrLess(rec.firstSeen.value, t.firstSeen.value)))
  {
    if Truthy(ts) {
      StrLessIrreflexive(ts.value);
      if rec.lastSeen.Some? {
        StrLessIrreflexive(rec.lastSeen.value);
        StrLessTotal(rec.lastSeen.value, ts.value);
        if StrLess(rec.lastSeen.value, ts.value) && StrLess(ts.value, rec.lastSeen.value) {
          StrLessTransitive(ts.value, rec.lastSeen.value, ts.value);
        }
      }
      if rec.firstSeen.Some? {
        StrLessIrreflexive(rec.firstSeen.value);
        StrLessTotal(rec.firstSeen.value, ts.value);
        if StrLess(rec.firstSeen.value, ts.value) && StrLess(ts.value, rec.firstSeen.value) {
          StrLessTransitive(ts.value, rec.firstSeen.value, ts.value);
        }
      }
    }
  }

  lemma TouchKeepsOrder(rec: DeviceRecord, ts: Option<string>, action: Action)
    requires SeenOrdered(rec)
    ensures SeenOrdered(Touch(rec, ts, action))
  {
    var t := Touch(rec, ts, action);
    TouchSeen(rec, ts, action);
    if Truthy(ts) && t.lastSeen == rec.lastSeen && t.firstSeen == rec.firstSeen {
      var l, f, x := rec.lastSeen.value, rec.firstSeen.value, ts.value;
      if StrLess(l, f) {
        StrLessTotal(x, f);
        if StrLess(f, x) {
          StrLessTransitive(l, f, x);
        }
      }
    }
    if Truthy(ts) && t.lastSeen == ts && t.firstSeen == ts {
      StrLessIrreflexive(ts.value);
    }
  }

  predicate AllOrdered(s: Store) {
    forall k :: k in s.recs ==> SeenOrdered(s.recs[k])
  }

  /** A registry record starts with `first_seen == last_seen`, so it is ordered. */
  lemma {:induction false} RegistryStoreOrdered(reg: seq<RegistryEntry>)
    ensures forall k :: k in RegistryStore(reg).recs ==> RegistryStore(reg).recs[k].firstSeen == RegistryStore(reg).recs[k].lastSeen
    ensures AllOrdered(RegistryStore(reg))
  {
    if reg != [] {
      RegistryStoreOrdered(reg[..|reg| - 1]);
      StrLessIrreflexive(if reg[|reg| - 1].lastWrite.Some? then reg[|reg| - 1].lastWrite.value else "");
    }
  }

  lemma EventStepOrdered(s: Store, e: EventEntry)
    requires Valid(s) && AllOrdered(s)
    ensures AllOrdered(EventStep(s, e))
  {
    match FirstMatchFrom(s, e.deviceName, 0)
    case Some(i) =>
      TouchKeepsOrder(s.recs[s.keys[i]], e.timestamp, ActionOf(e));
    case None =>
      var k := EventKey(e);
      if k in s.recs {
        TouchKeepsOrder(s.recs[k], e.timestamp, ActionOf(e));
      } else {
        StrLessIrreflexive(if e.timestamp.Some? then e.timestamp.value else "");
      }
  }

  lemma {:induction false} EventsStoreOrdered(s: Store, events: seq<EventEntry>)
    requires Valid(s) && AllOrdered(s)
    ensures AllOrdered(EventsStore(s, events))
  {
    if events != [] {
      EventsStoreOrdered(s, events[..|events| - 1]);
      EventStepOrdered(EventsStore(s, events[..|events| - 1]), events[|events| - 1]);
    }
  }

  /** Every correlated record has `first_seen <= last_seen` when both are set. */
  lemma CorrelateSeenOrdered(reg: seq<RegistryEntry>, events: seq<EventEntry>)
    ensures forall i :: 0 <= i < |CorrelateSpec(reg, events)| ==> SeenOrdered(CorrelateSpec(reg, events)[i])
  {
    RegistryStoreOrdered(reg);
    EventsStoreOrdered(RegistryStore(reg), events);
  }
}
