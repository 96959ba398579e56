/** The UI's device key and the two first-occurrence dedupe passes: devices by key,
    then display rows by their normalised values. */
module UiDedupe {
  import opened Text
  import opened Dedup
  import opened UsbDeviceManager

  /** `s.strip().lower()`. */
  function Norm(s: string): string {
    Lower(Strip(s))
  }

  // ---------------------------------------------------------------- hardware ids

  /** The normalised non-empty hardware ids, in input order. */
  function NormIds(hs: seq<string>): seq<string> {
    if hs == [] then []
    else (if hs[0] != "" then [Norm(hs[0])] else []) + NormIds(hs[1..])
  }

  /** `",".join(sorted(h.strip().lower() for h in hardware_ids if h))`. */
  function HidsKey(hs: seq<string>): string {
    Join(SortStrings(NormIds(hs)), ",")
  }

  // ---------------------------------------------------------------- the device-id pattern

  predicate IsLowerHex(c: char) {
    ('0' <= c <= '9') || ('a' <= c <= 'f')
  }

  /** `tag` and four digits of `[0-9a-f]` at `k`. */
  predicate TaggedHexAt(s: string, tag: string, k: int) {
    OccursAt(s, tag, k) && k + |tag| + 4 <= |s|
    && forall t :: k + |tag| <= t < k + |tag| + 4 ==> IsLowerHex(s[t])
  }

  /** The end of the run of non-backslash characters starting at `i`. */
  function RunEnd(s: string, i: nat): (r: nat)
    requires i <= |s|
    decreases |s| - i
    ensures i <= r <= |s| && (r == |s| || s[r] == '\\')
    ensures forall t :: i <= t < r ==> s[t] != '\\'
  {
    if i == |s| || s[i] == '\\' then i else RunEnd(s, i + 1)
  }

  /** The last `pid_` match starting in `lo..hi`: the greedy `[^\\]*` backs off from
      the end of its run to the first place where `pid_` and four digits follow. */
  function LastPidFrom(s: string, lo: nat, hi: int): (r: Option<nat>)
    decreases hi - lo
    ensures r.Some? ==> lo <= r.value <= hi && TaggedHexAt(s, "pid_", r.value)
    ensures forall p :: lo <= p <= hi && (r.None? || r.value < p) ==> !TaggedHexAt(s, "pid_", p)
  {
    if hi < lo then None
    else if TaggedHexAt(s, "pid_", hi) then Some(hi)
    else LastPidFrom(s, lo, hi - 1)
  }

  /** Where `vid_[0-9a-f]{4}[^\\]*pid_[0-9a-f]{4}` ends when it matches at `k`. */
  function DevMatchEnd(s: string, k: nat): (r: Option<nat>)
    ensures r.Some? ==> TaggedHexAt(s, "vid_", k) && r.value >= k + 16 && TaggedHexAt(s, "pid_", r.value - 8)
  {
    if !TaggedHexAt(s, "vid_", k) then None
    else
      match LastPidFrom(s, k + 8, RunEnd(s, k + 8))
      case Some(p) => Some(p + 8)
      case None => None
  }

  /** The leftmost match at or after `i`: its start and its end. */
  function FirstDevMatch(s: string, i: nat): (r: Option<(nat, nat)>)
    decreases |s| - i
    ensures r.Some? ==> i <= r.value.0 && DevMatchEnd(s, r.value.0) == Some(r.value.1)
    ensures forall k :: i <= k && (r.None? || k < r.value.0) ==> DevMatchEnd(s, k).None?
  {
    if i >= |s| then None
    else
      match DevMatchEnd(s, i)
      case Some(e) => Some((i, e))
      case None => FirstDevMatch(s, i + 1)
  }

  /** The serial-like tail of a device id with at least three `\`-separated parts: the
      last part up to its first `&`, stripped. */
  function TailClean(devid: string): string {
    var parts := Split(devid, '\\');
    if |parts| >= 3 then
      var tail := parts[|parts| - 1];
      Strip(if Contains(tail, "&") then Split(tail, '&')[0] else tail)
    else ""
  }

  // ---------------------------------------------------------------- the key

  /** The `dev:` key of a normalised device id, when the pattern occurs in it. */
  function DevKey(devid: string): (r: Option<string>)
    ensures r.Some? <==> FirstDevMatch(devid, 0).Some?
  {
    match FirstDevMatch(devid, 0)
    case Some(m) =>
      var base := devid[m.0..m.1];
      var tail := TailClean(devid);
      Some("dev:" + base + (if tail != "" then ":" + tail else ""))
    case None => None
  }

  function FallbackKey(d: UsbDevice): string {
    Join([Norm(d.name), Norm(d.manufacturer), Norm(d.deviceType)], "|")
  }

  /** `ui_key`: the serial, else the hardware ids, else the device-id pattern, else
      name, manufacturer and type. */
  function UiKey(d: UsbDevice): string {
    var serial := Norm(d.serial);
    if serial != "" then "serial:" + serial + ":" + Norm(d.manufacturer)
    else if d.hardwareIds != [] && HidsKey(d.hardwareIds) != "" then
      "hid:" + Norm(d.vid) + ":" + Norm(d.pid) + ":" + HidsKey(d.hardwareIds)
    else
      var devid := Norm(d.deviceId);
      var dev := if devid != "" then DevKey(devid) else None;
      if dev.Some? then dev.value else FallbackKey(d)
  }

  /** A non-empty serial decides the key on its own: any two devices with the same
      normalised serial and manufacturer share a key, whatever else differs. */
  lemma SerialKey(d: UsbDevice, e: UsbDevice)
    requires Norm(d.serial) != ""
    requires Norm(e.serial) == Norm(d.serial) && Norm(e.manufacturer) == Norm(d.manufacturer)
    ensures UiKey(d) == "serial:" + Norm(d.serial) + ":" + Norm(d.manufacturer)
    ensures UiKey(e) == UiKey(d)
  {
  }

  /** Without a serial, non-empty hardware ids give the `hid:` key. */
  lemma HardwareIdKey(d: UsbDevice)
    requires Norm(d.serial) == "" && HidsKey(d.hardwareIds) != ""
    ensures UiKey(d) == "hid:" + Norm(d.vid) + ":" + Norm(d.pid) + ":" + HidsKey(d.hardwareIds)
  {
  }

  /** Otherwise a device id in which the pattern occurs gives its `dev:` key, and
      failing that the key is name, manufacturer and type joined by `|`. */
  lemma DeviceIdKey(d: UsbDevice)
    requires Norm(d.serial) == "" && HidsKey(d.hardwareIds) == ""
    ensures var devid := Norm(d.deviceId);
      UiKey(d) == if devid != "" && DevKey(devid).Some? then DevKey(devid).value
                  else Norm(d.name) + "|" + Norm(d.manufacturer) + "|" + Norm(d.deviceType)
  {
    Join3(Norm(d.name), Norm(d.manufacturer), Norm(d.deviceType), "|");
  }

  /** The `dev:` key is built from the leftmost match of the pattern, with the
      cleaned tail when there is one. */
  lemma DevKeyLeftmost(devid: string)
    requires FirstDevMatch(devid, 0).Some?
    ensures var m := FirstDevMatch(devid, 0).value;
      && TaggedHexAt(devid, "vid_", m.0) && TaggedHexAt(devid, "pid_", m.1 - 8)
      && (forall k :: 0 <= k < m.0 ==> DevMatchEnd(devid, k).None?)
      && DevKey(devid) == Some("dev:" + devid[m.0..m.1] + (if TailClean(devid) != "" then ":" + TailClean(devid) else ""))
  {
    var m := FirstDevMatch(devid, 0).value;
    assert DevMatchEnd(devid, m.0) == Some(m.1);
  }

  lemma Join3(a: string, b: string, c: string, sep: string)
    ensures Join([a, b, c], sep) == a + sep + b + sep + c
  {
    assert Join([c], sep) == c;
    assert [b, c][1..] == [c];
    assert Join([b, c], sep) == b + sep + c;
    assert [a, b, c][1..] == [b, c];
    assert Join([a, b, c], sep) == a + sep + (b + sep + c);
  }

  // ---------------------------------------------------------------- rows

  /** A display row: type, manufacturer, name, serial and connection status. */
  datatype Row = Row(deviceType: string, manufacturer: string, name: string, serial: string, status: string)

  function OrUnknown(s: string): string {
    if s != "" then s else "Unknown"
  }

  /** The serial column: the serial, `N/A` for hubs and unknown devices, otherwise
      `Unknown`. */
  function SerialDisplay(d: UsbDevice): (r: string)
    ensures r != ""
    ensures r == d.serial || (d.serial == "" && (r == "N/A" || r == "Unknown"))
    ensures r == "N/A" <==> (d.serial == "N/A" || (d.serial == "" && (d.deviceType == "hub" || d.deviceType == "unknown")))
  {
    if d.serial != "" then d.serial
    else if d.deviceType in ["hub", "unknown"] then "N/A"
    else "Unknown"
  }

  function RowOf(d: UsbDevice): Row {
    Row(OrUnknown(d.deviceType), OrUnknown(d.manufacturer), OrUnknown(d.name), SerialDisplay(d),
        if d.connectionStatus == "Connected" then "Connected" else "Disconnected")
  }

  /** The row's values, each stripped and lower-cased. */
  function RowKey(r: Row): seq<string> {
    [Norm(r.deviceType), Norm(r.manufacturer), Norm(r.name), Norm(r.serial), Norm(r.status)]
  }

  /** What a row shows of its device: no cell is empty, a known type, manufacturer
      and name appear as they are, the serial column is `SerialDisplay`, and the
      status reads `Connected` exactly for a connected device, `Disconnected`
      otherwise. */
  predicate Shows(row: Row, d: UsbDevice) {
    && row.deviceType != "" && row.manufacturer != "" && row.name != ""
    && (d.deviceType != "" ==> row.deviceType == d.deviceType)
    && (d.manufacturer != "" ==> row.manufacturer == d.manufacturer)
    && (d.name != "" ==> row.name == d.name)
    && row.serial == SerialDisplay(d)
    && (row.status == "Connected" || row.status == "Disconnected")
    && (row.status == "Connected" <==> d.connectionStatus == "Connected")
  }

  function RowsOf(ds: seq<UsbDevice>): (r: seq<Row>)
    ensures |r| == |ds| && forall i :: 0 <= i < |ds| ==> Shows(r[i], ds[i])
  {
    seq(|ds|, i requires 0 <= i < |ds| => RowOf(ds[i]))
  }

  // ---------------------------------------------------------------- the two passes

  /** `simulate` on the enumerated devices: the first device of each key in input
      order and, from those, the first row of each normalised value tuple. */
  method Simulate(devices: seq<UsbDevice>) returns (deduped: seq<UsbDevice>, rows: seq<Row>)
    ensures deduped == KeepFirst(devices, UiKey, {})
    ensures rows == KeepFirst(RowsOf(deduped), RowKey, {})
    ensures DistinctKeys(deduped, UiKey) && KeySet(deduped, UiKey) == KeySet(devices, UiKey)
    ensures DistinctKeys(rows, RowKey) && KeySet(rows, RowKey) == KeySet(RowsOf(deduped), RowKey)
  {
    // device level: the seen-set of keys
    var seen;
    seen, deduped := KeepFirstLoop(devices, UiKey, {});
    // row level: the seen-set of normalised row tuples
    var seenRows;
    seenRows, rows := KeepFirstLoop(RowsOf(deduped), RowKey, {});
    KeepFirstDistinct(devices, UiKey, {});
    KeepFirstKeys(devices, UiKey, {});
    KeepFirstDistinct(RowsOf(deduped), RowKey, {});
    KeepFirstKeys(RowsOf(deduped), RowKey, {});
  }

  /** Each kept device is the first device of the input with its key. */
  lemma DedupKeepsFirst(devices: seq<UsbDevice>, j: nat)
    requires j < |KeepFirst(devices, UiKey, {})|
    ensures exists i :: 0 <= i < |devices| && KeepFirst(devices, UiKey, {})[j] == devices[i]
              && forall k :: 0 <= k < i ==> UiKey(devices[k]) != UiKey(devices[i])
  {
    KeepFirstIsFirstOccurrence(devices, UiKey, {}, j);
  }

  /** The kept devices are in input order. */
  lemma DedupKeepsOrder(devices: seq<UsbDevice>)
    ensures IsSubsequence(KeepFirst(devices, UiKey, {}), devices)
  {
    KeepFirstSubsequence(devices, UiKey, {});
  }
}
