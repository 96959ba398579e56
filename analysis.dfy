/** The heuristics over correlated records: summaries, suspicious-device rules, the
    bounded anomaly score and the folder and deleted-file counts. */
module Analysis {
  import opened Text
  import opened Dedup
  import Correlation

  /** A list element that is, or is not, a dictionary. */
  datatype Item<T> = DictItem(fields: T) | OtherItem

  /** A deleted-file entry: `estimated_size` and `confidence`, each already defaulted
      to 0 when absent. */
  datatype DeletedFile = DeletedFile(estimatedSize: int, confidence: real)

  /** A folder entry: `name`, `depth` and `total_size`, defaulted to "", 0 and 0. */
  datatype Folder = Folder(name: string, depth: int, totalSize: int)

  /** A number as it compares and as an f-string renders it. */
  datatype Number = Number(value: real, text: string)

  /** A device dictionary as these functions read it. A key that is absent or holds a
      false value is `None` (or empty); `storageUsage` is the `percentage_used` of a
      non-empty `storage_info` dictionary (0 when that key is absent). */
  datatype DeviceDict = DeviceDict(
    deviceId: Option<string>, name: Option<string>, vid: Option<string>, pid: Option<string>,
    serial: Option<string>, firstSeen: Option<string>, lastSeen: Option<string>,
    totalConnections: Option<int>, events: seq<Correlation.Action>,
    connections: Option<int>, registryEntries: Option<int>, eventEntries: Option<int>,
    deletedFiles: seq<Item<DeletedFile>>, storageUsage: Option<real>,
    anomalyScore: Option<Number>)

  /** `int(d.get(key, 0) or 0)`. */
  function IntOr0(v: Option<int>): int {
    if v.Some? then v.value else 0
  }

  // ---------------------------------------------------------------- summarize

  /** The summary dictionary of one record: each listed field copied, the connection
      count under `total_connections`. */
  function SummaryOf(d: Correlation.DeviceRecord): DeviceDict {
    DeviceDict(Some(d.deviceId), d.name, d.vid, d.pid, d.serial, d.firstSeen, d.lastSeen,
               Some(d.connections), d.events, None, None, None, [], None, None)
  }

  method Summarize(devices: seq<Correlation.DeviceRecord>) returns (out: seq<DeviceDict>)
    ensures |out| == |devices|
    ensures forall i :: 0 <= i < |out| ==> out[i] == SummaryOf(devices[i])
    ensures forall i :: 0 <= i < |out| ==>
              out[i].deviceId == Some(devices[i].deviceId) && out[i].serial == devices[i].serial
              && out[i].totalConnections == Some(devices[i].connections) && out[i].events == devices[i].events
              && out[i].connections.None?
  {
    out := [];
    var i := 0;
    while i < |devices|
      invariant 0 <= i <= |devices|
      invariant |out| == i && forall j :: 0 <= j < i ==> out[j] == SummaryOf(devices[j])
    {
      out := out + [SummaryOf(devices[i])];
      i := i + 1;
    }
  }

  // ---------------------------------------------------------------- the anomaly score

  function SerialTerm(d: DeviceDict): real {
    if !Truthy(d.serial) then 25.0 else 0.0
  }

  function RegistryTerm(n: int): real {
    if n > 100 then RMin(25.0, (n - 100) as real / 10.0) else 0.0
  }

  function EventTerm(n: int): real {
    if n > 50 then RMin(20.0, (n - 50) as real / 5.0) else 0.0
  }

  function DeletedTerm(count: nat): real {
    if count > 0 then RMin(20.0, (count * 2) as real) else 0.0
  }

  function StorageTerm(usage: Option<real>): real {
    match usage
    case None => 0.0
    case Some(pct) => if pct > 90.0 then 15.0 else if pct > 75.0 then 10.0 else 0.0
  }

  function ConnectionTerm(n: int): real {
    if n > 10 then RMin(15.0, n as real) else 0.0
  }

  /** The sum of the six terms of `compute_anomaly_score`, before the cap. */
  function RawScore(d: DeviceDict): real {
    SerialTerm(d) + RegistryTerm(IntOr0(d.registryEntries)) + EventTerm(IntOr0(d.eventEntries))
    + DeletedTerm(|d.deletedFiles|) + StorageTerm(d.storageUsage) + ConnectionTerm(IntOr0(d.connections))
  }

  /** `compute_anomaly_score`: the sum capped at 100. */
  function AnomalyScore(d: DeviceDict): real {
    RMin(100.0, RawScore(d))
  }

  method ComputeAnomalyScore(device: DeviceDict) returns (score: real)
    ensures score == AnomalyScore(device)
    ensures 0.0 <= score <= 100.0
    ensures !Truthy(device.serial) ==> score >= 25.0
  {
    score := 0.0;
    if !Truthy(device.serial) {
      score := score + 25.0;
    }
    assert score == SerialTerm(device);
    var regEntries := IntOr0(device.registryEntries);
    if regEntries > 100 {
      score := score + RMin(25.0, (regEntries - 100) as real / 10.0);
    }
    assert score == SerialTerm(device) + RegistryTerm(regEntries);
    ghost var partial := score;
    var eventEntries := IntOr0(device.eventEntries);
    if eventEntries > 50 {
      score := score + RMin(20.0, (eventEntries - 50) as real / 5.0);
    }
    assert score == partial + EventTerm(eventEntries);
    partial := score;
    var deleted := device.deletedFiles;
    if deleted != [] {
      score := score + RMin(20.0, (|deleted| * 2) as real);
    }
    assert score == partial + DeletedTerm(|deleted|);
    partial := score;
    if device.storageUsage.Some? {
      var usage := device.storageUsage.value;
      if usage > 90.0 {
        score := score + 15.0;
      } else if usage > 75.0 {
        score := score + 10.0;
      }
    }
    assert score == partial + StorageTerm(device.storageUsage);
    partial := score;
    var connections := IntOr0(device.connections);
    if connections > 10 {
      score := score + RMin(15.0, connections as real);
    }
    assert score == partial + ConnectionTerm(connections);
    assert score == RawScore(device);
    TermBounds(device);
    score := RMin(100.0, score);
  }

  /** Each term is at most its cap, and it is zero exactly at or below its threshold. */
  lemma TermBounds(d: DeviceDict)
    ensures 0.0 <= SerialTerm(d) <= 25.0 && (SerialTerm(d) == 25.0 <==> !Truthy(d.serial))
    ensures forall n :: 0.0 <= RegistryTerm(n) <= 25.0 && (RegistryTerm(n) == 0.0 <==> n <= 100)
    ensures forall n :: 0.0 <= EventTerm(n) <= 20.0 && (EventTerm(n) == 0.0 <==> n <= 50)
    ensures forall k: nat :: 0.0 <= DeletedTerm(k) <= 20.0 && (DeletedTerm(k) == 0.0 <==> k == 0)
    ensures forall u :: 0.0 <= StorageTerm(u) <= 15.0
              && (StorageTerm(u) == 0.0 <==> u.None? || u.value <= 75.0)
    ensures forall n :: 0.0 <= ConnectionTerm(n) <= 15.0 && (ConnectionTerm(n) == 0.0 <==> n <= 10)
  {
  }

  /** The score always lies in [0, 100]; a missing serial alone contributes exactly
      25, so a device without one scores at least 25. */
  lemma AnomalyScoreBounds(d: DeviceDict)
    ensures 0.0 <= AnomalyScore(d) <= 100.0
    ensures !Truthy(d.serial) ==> AnomalyScore(d) >= 25.0
    ensures Truthy(d.serial) ==> RawScore(d.(serial := None)) == RawScore(d) + 25.0
    ensures RawScore(d) <= 120.0
  {
    TermBounds(d);
  }

  /** Summaries name the count `total_connections` where the score reads
      `connections`: the connection term of a summary is always zero. */
  lemma SummaryHasNoConnectionTerm(r: Correlation.DeviceRecord)
    ensures ConnectionTerm(IntOr0(SummaryOf(r).connections)) == 0.0
    ensures AnomalyScore(SummaryOf(r)) == SerialTerm(SummaryOf(r))
  {
  }

  /** `anomaly_score`: each summary paired with its score, in input order. */
  method ScoreAll(summaries: seq<DeviceDict>) returns (out: seq<(DeviceDict, real)>)
    ensures |out| == |summaries|
    ensures forall i :: 0 <= i < |out| ==>
              out[i].0 == summaries[i] && out[i].1 == AnomalyScore(summaries[i])
              && 0.0 <= out[i].1 <= 100.0
  {
    out := [];
    var i := 0;
    while i < |summaries|
      invariant 0 <= i <= |summaries|
      invariant |out| == i
      invariant forall j :: 0 <= j < i ==>
                  out[j].0 == summaries[j] && out[j].1 == AnomalyScore(summaries[j]) && 0.0 <= out[j].1 <= 100.0
    {
      var score := ComputeAnomalyScore(summaries[i]);
      out := out + [(summaries[i], score)];
      i := i + 1;
    }
  }

  // ---------------------------------------------------------------- suspicious devices

  const NoSerialReason: string := "No serial number but multiple connections"
  const FrequentReason: string := "Unusually frequent connections (>10)"

  function ScoreValue(s: DeviceDict): real {
    if s.anomalyScore.Some? then s.anomalyScore.value.value else 0.0
  }

  /** The reasons of one summary, in their fixed order. */
  function Reasons(s: DeviceDict): (r: seq<string>)
    ensures |r| <= 3
  {
    var connections := IntOr0(s.totalConnections);
    (if !Truthy(s.serial) && connections > 3 then [NoSerialReason] else [])
    + (if connections > 10 then [FrequentReason] else [])
    + (if ScoreValue(s) > 70.0 then ["High anomaly score (" + s.anomalyScore.value.text + ")"] else [])
  }

  predicate Flagged(s: DeviceDict) {
    Reasons(s) != []
  }

  /** A summary is flagged exactly when one of the three rules fires. */
  lemma FlaggedIff(s: DeviceDict)
    ensures Flagged(s) <==>
              (!Truthy(s.serial) && IntOr0(s.totalConnections) > 3)
              || IntOr0(s.totalConnections) > 10
              || ScoreValue(s) > 70.0
  {
  }

  /** The reasons appear in rule order, at most one per rule: the no-serial reason
      first, the score reason last. */
  lemma ReasonsOrder(s: DeviceDict)
    ensures |Reasons(s)| <= 3
    ensures Reasons(s) != [] && !Truthy(s.serial) && IntOr0(s.totalConnections) > 3 ==> Reasons(s)[0] == NoSerialReason
    ensures IntOr0(s.totalConnections) > 10 ==> FrequentReason in Reasons(s)
    ensures ScoreValue(s) > 70.0 ==> Reasons(s)[|Reasons(s)| - 1] == "High anomaly score (" + s.anomalyScore.value.text + ")"
    ensures IntOr0(s.totalConnections) > 10 ==> |Reasons(s)| >= 1 + (if !Truthy(s.serial) then 1 else 0)
  {
  }

  /** The findings: the flagged summaries in input order, each with its reasons joined
      by `; `. */
  function Findings(summaries: seq<DeviceDict>): seq<(DeviceDict, string)> {
    if summaries == [] then []
    else
      var rest := Findings(summaries[..|summaries| - 1]);
      var s := summaries[|summaries| - 1];
      if Flagged(s) then rest + [(s, Join(Reasons(s), "; "))] else rest
  }

  method DetectSuspicious(summaries: seq<DeviceDict>) returns (findings: seq<(DeviceDict, string)>)
    ensures findings == Findings(summaries)
  {
    findings := [];
    var i := 0;
    while i < |summaries|
      invariant 0 <= i <= |summaries|
      invariant findings == Findings(summaries[..i])
    {
      var s := summaries[i];
      var reasons: seq<string> := [];
      var connections := IntOr0(s.totalConnections);
      if !Truthy(s.serial) && connections > 3 {
        reasons := reasons + [NoSerialReason];
      }
      if connections > 10 {
        reasons := reasons + [FrequentReason];
      }
      if ScoreValue(s) > 70.0 {
        reasons := reasons + ["High anomaly score (" + s.anomalyScore.value.text + ")"];
      }
      assert reasons == Reasons(s);
      if reasons != [] {
        findings := findings + [(s, Join(reasons, "; "))];
      }
      assert summaries[..i + 1][..i] == summaries[..i];
      i := i + 1;
    }
    assert summaries[..i] == summaries;
  }

  /** A pair is a finding exactly when its summary is an input that one of the rules
      flags and its text is that summary's reasons joined by `; `. */
  lemma {:induction false} FindingsMembers(summaries: seq<DeviceDict>, s: DeviceDict, text: string)
    ensures (s, text) in Findings(summaries) <==>
              s in summaries && Flagged(s) && text == Join(Reasons(s), "; ")
  {
    if summaries != [] {
      var init := summaries[..|summaries| - 1];
      FindingsMembers(init, s, text);
      assert summaries == init + [summaries[|summaries| - 1]];
    }
  }

  /** The findings keep the input order: their summaries are a subsequence of the
      input. */
  lemma {:induction false} FindingsInOrder(summaries: seq<DeviceDict>)
    ensures IsSubsequence(FirstOf(Findings(summaries)), summaries)
  {
    if summaries != [] {
      var init := summaries[..|summaries| - 1];
      var s := summaries[|summaries| - 1];
      FindingsInOrder(init);
      SubsequenceSnoc(FirstOf(Findings(init)), init, s, Flagged(s));
      assert summaries == init + [s];
      if Flagged(s) {
        assert FirstOf(Findings(summaries)) == FirstOf(Findings(init)) + [s];
      }
    }
  }

  function FirstOf<A, B>(ps: seq<(A, B)>): (r: seq<A>)
    ensures |r| == |ps| && forall i :: 0 <= i < |r| ==> r[i] == ps[i].0
  {
    if ps == [] then [] else FirstOf(ps[..|ps| - 1]) + [ps[|ps| - 1].0]
  }

  /** Extending both sides of a subsequence with one element, or only the longer
      one, keeps it a subsequence. */
  lemma {:induction false} SubsequenceSnoc<T>(ys: seq<T>, xs: seq<T>, x: T, both: bool)
    requires IsSubsequence(ys, xs)
    ensures IsSubsequence(if both then ys + [x] else ys, xs + [x])
    decreases |xs|
  {
    var ys' := if both then ys + [x] else ys;
    if xs == [] {
      assert ys == [];
      if both {
        assert ys' == [x] && ys'[1..] == [];
      }
    } else if ys == [] {
      if both {
        SubsequenceSnoc(ys, xs[1..], x, both);
        assert (xs + [x])[1..] == xs[1..] + [x];
      }
    } else {
      assert (xs + [x])[1..] == xs[1..] + [x];
      if ys[0] == xs[0] && IsSubsequence(ys[1..], xs[1..]) {
        SubsequenceSnoc(ys[1..], xs[1..], x, both);
        assert ys'[1..] == (if both then ys[1..] + [x] else ys[1..]);
      } else {
        SubsequenceSnoc(ys, xs[1..], x, both);
      }
    }
  }

  // ---------------------------------------------------------------- folder structure

  datatype FolderAnalysis = FolderAnalysis(
    totalFolders: nat, maxDepth: int, largestFolders: seq<(string, int)>,
    previousFolderCount: int, foldersAdded: int, foldersDeleted: int)

  function DictFolders(items: seq<Item<Folder>>): (r: seq<Folder>)
    ensures |r| <= |items|
    ensures forall f :: f in r <==> DictItem(f) in items
  {
    if items == [] then []
    else
      var init := DictFolders(items[..|items| - 1]);
      var last := items[|items| - 1];
      assert items == items[..|items| - 1] + [last];
      if last.DictItem? then init + [last.fields] else init
  }

  /** `max([f.depth for dict f], default=0)`. */
  function MaxDepth(fs: seq<Folder>): (r: int)
    ensures fs == [] ==> r == 0
    ensures fs != [] ==> exists i :: 0 <= i < |fs| && fs[i].depth == r
    ensures forall i :: 0 <= i < |fs| ==> fs[i].depth <= r
  {
    if fs == [] then 0
    else if |fs| == 1 then fs[0].depth
    else
      var m := MaxDepth(fs[1..]);
      assert forall i :: 1 <= i < |fs| ==> fs[i] == fs[1..][i - 1];
      if fs[0].depth >= m then fs[0].depth else m
  }

  predicate SortedBySizeDesc(fs: seq<Folder>) {
    forall i, j :: 0 <= i < j < |fs| ==> fs[i].totalSize >= fs[j].totalSize
  }

  /** Insertion after every element at least as large: the stable place in a
      descending order. */
  function InsertBySize(x: Folder, fs: seq<Folder>): (r: seq<Folder>)
    requires SortedBySizeDesc(fs)
    ensures SortedBySizeDesc(r) && multiset(r) == multiset(fs) + multiset{x} && |r| == |fs| + 1
  {
    if fs == [] then [x]
    else if fs[0].totalSize >= x.totalSize then
      var rest := InsertBySize(x, fs[1..]);
      assert fs == [fs[0]] + fs[1..];
      InsertedBounded(fs[0], x, fs[1..], rest);
      [fs[0]] + rest
    else [x] + fs
  }

  lemma InsertedBounded(head: Folder, x: Folder, tail: seq<Folder>, rest: seq<Folder>)
    requires forall j :: 0 <= j < |tail| ==> head.totalSize >= tail[j].totalSize
    requires head.totalSize >= x.totalSize
    requires SortedBySizeDesc(rest) && multiset(rest) == multiset(tail) + multiset{x}
    ensures SortedBySizeDesc([head] + rest)
  {
    forall j | 0 <= j < |rest| ensures head.totalSize >= rest[j].totalSize {
      assert rest[j] in multiset(rest);
      if rest[j] != x {
        assert rest[j] in multiset(tail);
        assert rest[j] in tail;
      }
    }
    forall i, j | 0 <= i < j < |[head] + rest|
      ensures ([head] + rest)[i].totalSize >= ([head] + rest)[j].totalSize
    {
      if i > 0 {
        assert ([head] + rest)[i] == rest[i - 1] && ([head] + rest)[j] == rest[j - 1];
      } else {
        assert ([head] + rest)[j] == rest[j - 1];
      }
    }
  }

  /** `sorted(folders, key=total_size, reverse=True)`. */
  function SortBySizeDesc(fs: seq<Folder>): (r: seq<Folder>)
    ensures SortedBySizeDesc(r) && multiset(r) == multiset(fs) && |r| == |fs|
  {
    if fs == [] then []
    else
      assert fs == fs[..|fs| - 1] + [fs[|fs| - 1]];
      InsertBySize(fs[|fs| - 1], SortBySizeDesc(fs[..|fs| - 1]))
  }

  /** The folders of `fs` whose size is `size`, in the order of `fs`. */
  function OfSize(fs: seq<Folder>, size: int): seq<Folder> {
    if fs == [] then [] else (if fs[0].totalSize == size then [fs[0]] else []) + OfSize(fs[1..], size)
  }

  lemma {:induction false} OfSizeAppend(a: seq<Folder>, b: seq<Folder>, size: int)
    ensures OfSize(a + b, size) == OfSize(a, size) + OfSize(b, size)
    decreases |a|
  {
    if a != [] {
      assert (a + b)[0] == a[0] && (a + b)[1..] == a[1..] + b;
      OfSizeAppend(a[1..], b, size);
    } else {
      assert a + b == b;
    }
  }

  /** A descending sequence that starts below `size` holds no folder of that size. */
  lemma {:induction false} OfSizeBelow(fs: seq<Folder>, size: int)
    requires SortedBySizeDesc(fs) && (fs != [] ==> fs[0].totalSize < size)
    ensures OfSize(fs, size) == []
    decreases |fs|
  {
    if fs != [] {
      if |fs| > 1 {
        assert fs[1..][0] == fs[1];
      }
      OfSizeBelow(fs[1..], size);
    }
  }

  function Own(x: Folder, size: int): seq<Folder> {
    if x.totalSize == size then [x] else []
  }

  lemma OfSizeSingle(x: Folder, size: int)
    ensures OfSize([x], size) == Own(x, size)
  {
    assert [x][1..] == [];
  }

  /** Insertion puts `x` after every folder of its own size. */
  lemma {:induction false} InsertBySizeStable(x: Folder, fs: seq<Folder>, size: int)
    requires SortedBySizeDesc(fs)
    ensures OfSize(InsertBySize(x, fs), size) == OfSize(fs, size) + Own(x, size)
    decreases |fs|
  {
    if fs == [] {
      OfSizeSingle(x, size);
    } else if fs[0].totalSize >= x.totalSize {
      InsertBySizeStable(x, fs[1..], size);
      InsertAfterHead(x, fs, size);
    } else {
      InsertBeforeHead(x, fs, size);
    }
  }

  lemma InsertAfterHead(x: Folder, fs: seq<Folder>, size: int)
    requires SortedBySizeDesc(fs) && fs != [] && fs[0].totalSize >= x.totalSize
    requires OfSize(InsertBySize(x, fs[1..]), size) == OfSize(fs[1..], size) + Own(x, size)
    ensures OfSize(InsertBySize(x, fs), size) == OfSize(fs, size) + Own(x, size)
  {
    InsertBySizeHead(x, fs);
    HeadTail(fs);
    ConsOfSize(fs[0], fs[1..], InsertBySize(x, fs[1..]), Own(x, size), size);
  }

  /** Putting the same folder in front of two sequences keeps a relation between
      their folders of one size. */
  lemma ConsOfSize(h: Folder, t: seq<Folder>, r: seq<Folder>, extra: seq<Folder>, size: int)
    requires OfSize(r, size) == OfSize(t, size) + extra
    ensures OfSize([h] + r, size) == OfSize([h] + t, size) + extra
  {
    OfSizeAppend([h], r, size);
    OfSizeAppend([h], t, size);
    ConcatAssoc(OfSize([h], size), OfSize(t, size), extra);
  }

  lemma ConcatAssoc(a: seq<Folder>, b: seq<Folder>, c: seq<Folder>)
    ensures a + (b + c) == (a + b) + c
  {
  }

  lemma InsertBySizeHead(x: Folder, fs: seq<Folder>)
    requires SortedBySizeDesc(fs) && fs != [] && fs[0].totalSize >= x.totalSize
    ensures InsertBySize(x, fs) == [fs[0]] + InsertBySize(x, fs[1..])
  {
  }

  lemma InsertBeforeHead(x: Folder, fs: seq<Folder>, size: int)
    requires SortedBySizeDesc(fs) && fs != [] && fs[0].totalSize < x.totalSize
    ensures OfSize(InsertBySize(x, fs), size) == OfSize(fs, size) + Own(x, size)
  {
    assert InsertBySize(x, fs) == [x] + fs;
    OfSizeAppend([x], fs, size);
    OfSizeSingle(x, size);
    if x.totalSize == size {
      OfSizeBelow(fs, size);
    }
  }

  lemma HeadTail(fs: seq<Folder>)
    requires fs != []
    ensures [fs[0]] + fs[1..] == fs
  {
  }

  lemma SortBySizeDescStep(fs: seq<Folder>)
    requires fs != []
    ensures SortBySizeDesc(fs) == InsertBySize(fs[|fs| - 1], SortBySizeDesc(fs[..|fs| - 1]))
  {
  }

  lemma StableStep(init: seq<Folder>, last: Folder, sortedInit: seq<Folder>, size: int)
    requires SortedBySizeDesc(sortedInit) && OfSize(sortedInit, size) == OfSize(init, size)
    ensures OfSize(InsertBySize(last, sortedInit), size) == OfSize(init + [last], size)
  {
    InsertBySizeStable(last, sortedInit, size);
    OfSizeAppend(init, [last], size);
    OfSizeSingle(last, size);
  }

  /** `sorted` is stable: folders of equal size keep their input order. */
  lemma {:induction false} SortBySizeStable(fs: seq<Folder>, size: int)
    ensures OfSize(SortBySizeDesc(fs), size) == OfSize(fs, size)
    decreases |fs|
  {
    if fs != [] {
      var init := fs[..|fs| - 1];
      SortBySizeDescStep(fs);
      SortBySizeStable(init, size);
      StableStep(init, fs[|fs| - 1], SortBySizeDesc(init), size);
      InitLast(fs);
    }
  }

  lemma InitLast(fs: seq<Folder>)
    requires fs != []
    ensures fs[..|fs| - 1] + [fs[|fs| - 1]] == fs
  {
  }

  function Max0(n: int): int {
    if n > 0 then n else 0
  }

  function AnalyzeFolderStructure(folderInfo: seq<Item<Folder>>, previousCount: Option<int>): (r: FolderAnalysis)
    ensures r.totalFolders == |folderInfo|
    ensures r.maxDepth == MaxDepth(DictFolders(folderInfo))
    ensures |r.largestFolders| <= 5
    ensures forall i, j :: 0 <= i < j < |r.largestFolders| ==> r.largestFolders[i].1 >= r.largestFolders[j].1
    ensures var top := Largest(DictFolders(folderInfo));
      r.largestFolders == seq(|top|, i requires 0 <= i < |top| => (top[i].name, top[i].totalSize))
    ensures previousCount.None? ==> r.previousFolderCount == 0 && r.foldersAdded == 0 && r.foldersDeleted == 0
    ensures previousCount.Some? ==>
              r.previousFolderCount == previousCount.value
              && r.foldersAdded == Max0(|folderInfo| - previousCount.value)
              && r.foldersDeleted == Max0(previousCount.value - |folderInfo|)
  {
    var fs := DictFolders(folderInfo);
    var top := Largest(fs);
    var prev := if previousCount.Some? then previousCount.value else 0;
    FolderAnalysis(
      |folderInfo|,
      if folderInfo != [] then MaxDepth(fs) else 0,
      seq(|top|, i requires 0 <= i < |top| => (top[i].name, top[i].totalSize)),
      prev,
      if previousCount.Some? then Max0(|folderInfo| - prev) else 0,
      if previousCount.Some? then Max0(prev - |folderInfo|) else 0)
  }

  /** The five largest folders (fewer when there are fewer), largest first. */
  function Largest(fs: seq<Folder>): (r: seq<Folder>)
    ensures |r| <= 5 && |r| == if |fs| < 5 then |fs| else 5
    ensures SortedBySizeDesc(r)
    ensures forall f :: f in r ==> f in fs
  {
    var sorted := SortBySizeDesc(fs);
    var n := if |sorted| < 5 then |sorted| else 5;
    assert forall f :: f in sorted[..n] ==> f in multiset(sorted);
    sorted[..n]
  }

  /** No folder left out of the five is larger than one listed. */
  lemma LargestAreLargest(fs: seq<Folder>, f: Folder, g: Folder)
    requires f in Largest(fs) && g in fs && g !in Largest(fs)
    ensures g.totalSize <= f.totalSize
  {
    var sorted := SortBySizeDesc(fs);
    var n := if |sorted| < 5 then |sorted| else 5;
    assert g in multiset(sorted);
    var j :| 0 <= j < |sorted| && sorted[j] == g;
    var i :| 0 <= i < n && sorted[i] == f;
  }

  /** Against the previous count, at most one of added and deleted is nonzero, and
      their difference is the change in the count. */
  lemma FolderHistory(folderInfo: seq<Item<Folder>>, prev: int)
    ensures var r := AnalyzeFolderStructure(folderInfo, Some(prev));
      r.foldersAdded >= 0 && r.foldersDeleted >= 0
      && (r.foldersAdded == 0 || r.foldersDeleted == 0)
      && r.foldersAdded - r.foldersDeleted == |folderInfo| - prev
  {
  }

  // ---------------------------------------------------------------- deleted files

  datatype DeletedAnalysis = DeletedAnalysis(
    deletedCount: nat, totalDeletedSize: int, recoverableCount: nat,
    highConfidenceCount: nat, deletionTimeline: string)

  /** The dictionary entries whose confidence exceeds `threshold`. */
  function CountAbove(files: seq<Item<DeletedFile>>, threshold: real): (n: nat)
    ensures n <= |files|
  {
    if files == [] then 0
    else
      var last := files[|files| - 1];
      CountAbove(files[..|files| - 1], threshold) + (if last.DictItem? && last.fields.confidence > threshold then 1 else 0)
  }

  function SizeSum(files: seq<Item<DeletedFile>>): int {
    if files == [] then 0
    else
      var last := files[|files| - 1];
      SizeSum(files[..|files| - 1]) + (if last.DictItem? then last.fields.estimatedSize else 0)
  }

  /** A higher threshold never counts more. */
  lemma {:induction false} CountAboveMonotone(files: seq<Item<DeletedFile>>, lo: real, hi: real)
    requires lo <= hi
    ensures CountAbove(files, hi) <= CountAbove(files, lo)
  {
    if files != [] {
      CountAboveMonotone(files[..|files| - 1], lo, hi);
    }
  }

  method AnalyzeDeletedFiles(deletedFiles: seq<Item<DeletedFile>>) returns (r: DeletedAnalysis)
    ensures r.deletedCount == |deletedFiles|
    ensures r.recoverableCount == CountAbove(deletedFiles, 70.0)
    ensures r.highConfidenceCount == CountAbove(deletedFiles, 85.0)
    ensures r.totalDeletedSize == SizeSum(deletedFiles)
    ensures r.highConfidenceCount <= r.recoverableCount <= r.deletedCount
    ensures r.deletionTimeline == if deletedFiles == [] then "Unknown" else "~" + Decimal(|deletedFiles|) + " files detected"
  {
    r := DeletedAnalysis(|deletedFiles|, 0, 0, 0, "Unknown");
    if deletedFiles != [] {
      var totalSize := 0;
      var recoverable := 0;
      var highConfidence := 0;
      var i := 0;
      while i < |deletedFiles|
        invariant 0 <= i <= |deletedFiles|
        invariant totalSize == SizeSum(deletedFiles[..i])
        invariant recoverable == CountAbove(deletedFiles[..i], 70.0)
        invariant highConfidence == CountAbove(deletedFiles[..i], 85.0)
      {
        var deleted := deletedFiles[i];
        if deleted.DictItem? {
          totalSize := totalSize + deleted.fields.estimatedSize;
          var confidence := deleted.fields.confidence;
          if confidence > 70.0 {
            recoverable := recoverable + 1;
          }
          if confidence > 85.0 {
            highConfidence := highConfidence + 1;
          }
        }
        assert deletedFiles[..i + 1][..i] == deletedFiles[..i];
        i := i + 1;
      }
      assert deletedFiles[..i] == deletedFiles;
      CountAboveMonotone(deletedFiles, 70.0, 85.0);
      r := r.(totalDeletedSize := totalSize, recoverableCount := recoverable, highConfidenceCount := highConfidence,
              deletionTimeline := "~" + Decimal(|deletedFiles|) + " files detected");
    }
  }
}
