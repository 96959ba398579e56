/** Device-ID parsing and the keyword classification of the device manager. */
module UsbDeviceManager {
  import opened Text
  import UrbDecoder

  // ---------------------------------------------------------------- classification

  const StorageWords: seq<string> := ["disk", "storage", "mass storage", "usbstor", "flash", "thumb"]
  const InputWords: seq<string> := ["mouse", "keyboard", "hid", "input", "touchpad", "trackpad"]
  const NetworkWords: seq<string> := ["network", "ethernet", "wifi", "wireless", "lan", "wlan", "bluetooth"]
  const AudioVideoWords: seq<string> := ["audio", "sound", "speaker", "microphone", "webcam", "camera", "video"]
  const HubWords: seq<string> := ["hub", "root hub", "composite"]
  const PrinterWords: seq<string> := ["printer", "print"]
  const SerialWords: seq<string> := ["serial", "com port", "uart"]

  /** Some keyword occurs in the (lower-cased) name or description. */
  predicate AnyWordIn(words: seq<string>, name: string, desc: string) {
    exists i :: 0 <= i < |words| && (Contains(name, words[i]) || Contains(desc, words[i]))
  }

  /** The rule of each category, on the lower-cased fields, in test order. */
  predicate StorageRule(name: string, desc: string, cls: string, pnp: string) {
    AnyWordIn(StorageWords, name, desc) || pnp == "diskdrive" || cls == "diskdrive"
  }
  predicate InputRule(name: string, desc: string, pnp: string) {
    AnyWordIn(InputWords, name, desc) || pnp == "mouse" || pnp == "keyboard" || pnp == "hid"
  }
  predicate NetworkRule(name: string, desc: string, pnp: string) {
    AnyWordIn(NetworkWords, name, desc) || pnp == "net" || pnp == "network"
  }
  predicate AudioVideoRule(name: string, desc: string, pnp: string) {
    AnyWordIn(AudioVideoWords, name, desc) || pnp == "media" || pnp == "camera" || pnp == "sound"
  }
  predicate HubRule(name: string, desc: string, pnp: string) {
    AnyWordIn(HubWords, name, desc) || (pnp == "usb" && Contains(desc, "hub"))
  }
  predicate PrinterRule(name: string, desc: string, pnp: string) {
    AnyWordIn(PrinterWords, name, desc) || pnp == "printer"
  }
  predicate SerialRule(name: string, desc: string, pnp: string) {
    AnyWordIn(SerialWords, name, desc) || pnp == "ports"
  }

  const DeviceTypes: set<string> := {"storage", "input", "network", "audio_video", "hub", "printer", "serial", "unknown"}

  /** `classify_device_type`, given `str()` of the `name`, `description`,
      `device_class` and `pnp_class` values. */
  function ClassifyDeviceType(name0: string, desc0: string, class0: string, pnp0: string): (r: string)
    ensures r in DeviceTypes
  {
    var name, desc, cls, pnp := Lower(name0), Lower(desc0), Lower(class0), Lower(pnp0);
    if StorageRule(name, desc, cls, pnp) then "storage"
    else if InputRule(name, desc, pnp) then "input"
    else if NetworkRule(name, desc, pnp) then "network"
    else if AudioVideoRule(name, desc, pnp) then "audio_video"
    else if HubRule(name, desc, pnp) then "hub"
    else if PrinterRule(name, desc, pnp) then "printer"
    else if SerialRule(name, desc, pnp) then "serial"
    else "unknown"
  }

  /** Each category is chosen exactly when its rule holds and no earlier rule does. */
  lemma ClassifyPriority(name0: string, desc0: string, class0: string, pnp0: string)
    ensures var name, desc, cls, pnp := Lower(name0), Lower(desc0), Lower(class0), Lower(pnp0);
      var r := ClassifyDeviceType(name0, desc0, class0, pnp0);
      && (r == "storage" <==> StorageRule(name, desc, cls, pnp))
      && (r == "input" <==> !StorageRule(name, desc, cls, pnp) && InputRule(name, desc, pnp))
      && (r == "network" <==>
            (!StorageRule(name, desc, cls, pnp) && !InputRule(name, desc, pnp) && NetworkRule(name, desc, pnp)))
      && (r == "unknown" <==>
            (!StorageRule(name, desc, cls, pnp) && !InputRule(name, desc, pnp)
             && !NetworkRule(name, desc, pnp) && !AudioVideoRule(name, desc, pnp)
             && !HubRule(name, desc, pnp) && !PrinterRule(name, desc, pnp)
             && !SerialRule(name, desc, pnp)))
  {
  }

  /** Storage is tested first: a name mentioning a disk is storage whatever else it
      mentions (a "disk" that is also a "mouse" included). */
  lemma DiskIsStorage(name0: string, desc0: string, class0: string, pnp0: string)
    requires Contains(Lower(name0), "disk")
    ensures ClassifyDeviceType(name0, desc0, class0, pnp0) == "storage"
  {
    assert StorageWords[0] == "disk";
  }

  /** The classification ignores the case of its inputs. */
  lemma ClassifyIgnoresCase(name0: string, desc0: string, class0: string, pnp0: string)
    ensures ClassifyDeviceType(Lower(name0), Lower(desc0), Lower(class0), Lower(pnp0))
            == ClassifyDeviceType(name0, desc0, class0, pnp0)
  {
    LowerIdempotent(name0);
    LowerIdempotent(desc0);
    LowerIdempotent(class0);
    LowerIdempotent(pnp0);
  }

  // ---------------------------------------------------------------- VID and PID

  /** `k` is the position of the first occurrence of `marker` in `s`. */
  predicate FirstOccurrence(s: string, marker: string, k: int) {
    OccursAt(s, marker, k) && forall j :: 0 <= j < k ==> !OccursAt(s, marker, j)
  }

  /** `extract_vid_pid` is the same substring extraction as the URB decoder's: when
      `VID_` occurs, the VID is the (at most four) characters right after its first
      occurrence, and "" when it does not; the same for `PID_`. */
  lemma ExtractVidPidShape(deviceId: string)
    ensures var r := UrbDecoder.ExtractVidPid(deviceId);
      && |r.0| <= 4 && |r.1| <= 4
      && ((exists k :: OccursAt(deviceId, "VID_", k)) <==>
            exists k :: FirstOccurrence(deviceId, "VID_", k) && r.0 == deviceId[k + 4..Min(k + 8, |deviceId|)])
      && ((exists k :: OccursAt(deviceId, "PID_", k)) <==>
            exists k :: FirstOccurrence(deviceId, "PID_", k) && r.1 == deviceId[k + 4..Min(k + 8, |deviceId|)])
      && ((forall k :: !OccursAt(deviceId, "VID_", k)) ==> r.0 == "")
      && ((forall k :: !OccursAt(deviceId, "PID_", k)) ==> r.1 == "")
  {
    var v, p := Find(deviceId, "VID_"), Find(deviceId, "PID_");
    if v >= 0 {
      assert FirstOccurrence(deviceId, "VID_", v);
    }
    if p >= 0 {
      assert FirstOccurrence(deviceId, "PID_", p);
    }
  }

  // ---------------------------------------------------------------- speed

  const SpeedNames: set<string> := {"USB 3.2 (20 Gbps)", "USB 3.1 (10 Gbps)", "USB 3.0 (5 Gbps)",
                                    "USB 2.0 (480 Mbps)", "USB 1.1 (12 Mbps)", "USB 1.0 (1.5 Mbps)", "Unknown"}

  /** `get_usb_speed`, given `str()` of the `description` value. */
  function UsbSpeed(desc0: string): (r: string)
    ensures r in SpeedNames
  {
    var desc := Lower(desc0);
    if Contains(desc, "usb 3.2") || Contains(desc, "superspeed+") then "USB 3.2 (20 Gbps)"
    else if Contains(desc, "usb 3.1") || Contains(desc, "superspeed+") then "USB 3.1 (10 Gbps)"
    else if Contains(desc, "usb 3.0") || Contains(desc, "superspeed") then "USB 3.0 (5 Gbps)"
    else if Contains(desc, "usb 2.0") || Contains(desc, "high-speed") || Contains(desc, "hi-speed") then "USB 2.0 (480 Mbps)"
    else if Contains(desc, "usb 1.1") || Contains(desc, "full-speed") then "USB 1.1 (12 Mbps)"
    else if Contains(desc, "usb 1.0") || Contains(desc, "low-speed") then "USB 1.0 (1.5 Mbps)"
    else "Unknown"
  }

  /** `superspeed+` always means USB 3.2, so the second `superspeed+` test can never
      decide: USB 3.1 is reported only for a description naming `usb 3.1`. */
  lemma SuperSpeedPlus(desc0: string)
    ensures Contains(Lower(desc0), "superspeed+") ==> UsbSpeed(desc0) == "USB 3.2 (20 Gbps)"
    ensures UsbSpeed(desc0) == "USB 3.1 (10 Gbps)" ==>
              Contains(Lower(desc0), "usb 3.1") && !Contains(Lower(desc0), "superspeed+")
    ensures UsbSpeed(desc0) == "Unknown" ==>
              !Contains(Lower(desc0), "usb 3.0") && !Contains(Lower(desc0), "usb 2.0")
              && !Contains(Lower(desc0), "usb 1.1") && !Contains(Lower(desc0), "usb 1.0")
  {
  }

  // ---------------------------------------------------------------- summary

  /** `USBDevice`. */
  datatype UsbDevice = UsbDevice(
    deviceId: string, name: string, description: string, manufacturer: string, deviceType: string,
    vid: string, pid: string, serial: string, status: string, driverVersion: string,
    location: string, speed: string, powerConsumption: string, capabilities: seq<string>,
    hardwareIds: seq<string>, compatibleIds: seq<string>, deviceClass: string, service: string,
    connectionStatus: string, lastArrival: Option<string>, lastRemoval: Option<string>)

  /** The display dictionary: fifteen of the device's fields under their own names. */
  datatype DeviceSummary = DeviceSummary(
    deviceId: string, name: string, description: string, manufacturer: string, deviceType: string,
    vid: string, pid: string, serial: string, status: string, speed: string, deviceClass: string,
    connectionStatus: string, hardwareIds: seq<string>, compatibleIds: seq<string>, service: string)

  function GetDeviceSummary(d: UsbDevice): DeviceSummary {
    DeviceSummary(d.deviceId, d.name, d.description, d.manufacturer, d.deviceType, d.vid, d.pid,
                  d.serial, d.status, d.speed, d.deviceClass, d.connectionStatus, d.hardwareIds,
                  d.compatibleIds, d.service)
  }

  /** The fifteen summarised fields of two devices agree. */
  predicate SameSummaryFields(a: UsbDevice, b: UsbDevice) {
    && a.deviceId == b.deviceId && a.name == b.name && a.description == b.description
    && a.manufacturer == b.manufacturer && a.deviceType == b.deviceType
    && a.vid == b.vid && a.pid == b.pid && a.serial == b.serial && a.status == b.status
    && a.speed == b.speed && a.deviceClass == b.deviceClass && a.connectionStatus == b.connectionStatus
    && a.hardwareIds == b.hardwareIds && a.compatibleIds == b.compatibleIds && a.service == b.service
  }

  /** Two devices have the same summary exactly when they agree on the fifteen
      summarised fields: nothing of those fields is lost, and nothing else enters. */
  lemma SummaryDeterminesFields(a: UsbDevice, b: UsbDevice)
    ensures GetDeviceSummary(a) == GetDeviceSummary(b) <==> SameSummaryFields(a, b)
  {
  }

  /** The summary leaves out the driver, location, power, capability and arrival
      fields: devices differing only there summarise alike. */
  lemma SummaryIgnoresOtherFields(d: UsbDevice, driver: string, location: string, power: string,
                                  caps: seq<string>, arrival: Option<string>, removal: Option<string>)
    ensures GetDeviceSummary(d) == GetDeviceSummary(d.(driverVersion := driver, location := location,
              powerConsumption := power, capabilities := caps, lastArrival := arrival, lastRemoval := removal))
  {
  }
}
