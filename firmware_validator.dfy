/** The BadUSB firmware validator: signature, vendor and name-pattern tables, the
    descriptor and combo-device checks, the capped risk score with its level and
    recommendations, and the dispatch of bridge messages by action. */
module FirmwareValidator {
  import opened Text

  // ---------------------------------------------------------------- tables

  /** An entry of the known BadUSB signatures. */
  datatype Signature = Signature(name: string, riskScore: real, kind: string, indicators: seq<string>)

  /** `BADUSB_SIGNATURES`, keyed by the exact (vendor id, product id) pair. */
  function BadUsbSignature(vendor: Option<string>, product: Option<string>): Option<Signature> {
    if vendor == Some("0x1234") && product == Some("0x5678") then
      Some(Signature("Generic HID Device (Ducky Clone)", 0.95, "HID_ATTACK",
                     ["rapid_key_injection", "mass_storage_hid_combo"]))
    else if vendor == Some("0x0951") && product == Some("0x1666") then
      Some(Signature("Kingston USB (Suspected Modified)", 0.7, "COMBO_DEVICE",
                     ["multiple_interfaces", "hidden_hid"]))
    else None
  }

  /** The keys of `BADUSB_SIGNATURES`. */
  const SignatureKeys: set<(string, string)> := {("0x1234", "0x5678"), ("0x0951", "0x1666")}

  datatype VendorInfo = VendorInfo(name: string, risk: real)

  /** `SUSPICIOUS_VENDORS`, keyed by the exact vendor id. */
  function SuspiciousVendor(vendor: Option<string>): Option<VendorInfo> {
    if vendor == Some("0x0000") || vendor == Some("0xFFFF") then Some(VendorInfo("Invalid Vendor", 0.8))
    else if vendor == Some("0xDEAD") then Some(VendorInfo("Debug/Test Device", 0.6))
    else if vendor == Some("0xBEEF") then Some(VendorInfo("Test Device", 0.6))
    else None
  }

  /** The keys of `SUSPICIOUS_VENDORS`. */
  const SuspiciousVendorKeys: set<string> := {"0x0000", "0xFFFF", "0xDEAD", "0xBEEF"}

  /** An entry of `MALICIOUS_PATTERNS`. */
  datatype Pattern = Pattern(pattern: string, score: real, kind: string)

  /** `MALICIOUS_PATTERNS` in its declaration order. */
  const MaliciousPatterns: seq<Pattern> := [
    Pattern("DuckyPad", 0.9, "KEYSTROKE_INJECTION"),
    Pattern("Teensy", 0.85, "KEYBOARD_EMULATOR"),
    Pattern("Digispark", 0.8, "ATtiny_DEV_BOARD"),
    Pattern("Arduino", 0.6, "DEV_PLATFORM"),
    Pattern("CH340", 0.4, "SERIAL_ADAPTER"),
    Pattern("PL2303", 0.3, "SERIAL_ADAPTER")
  ]

  /** The known storage-plus-HID combinations. */
  const SuspectCombos: seq<(string, string)> := [("0x0951", "0x1666"), ("0x0781", "0x5580")]

  // ---------------------------------------------------------------- interfaces

  /** An interface entry; the fields a kind of entry does not carry are `None`. */
  datatype Interface = Interface(
    interfaceType: string, classCode: string, subclass: Option<string>, protocol: Option<string>,
    hidden: Option<bool>, riskLevel: Option<string>, evidence: Option<string>)

  const MassStorageInterface := Interface("Mass Storage", "0x08", Some("0x06"), None, None, None, None)
  const ComboHidInterface := Interface("HID", "0x03", None, None, Some(true), None, None)
  const HiddenHidInterface := Interface("HID", "0x03", Some("0x01"), Some("keyboard"), Some(true),
    Some("CRITICAL"), Some("Hidden HID interface detected - keystroke injection capable"))

  // ---------------------------------------------------------------- messages

  /** The messages the checks report, each rendered to its text by `Render`. */
  datatype Message =
    | SignatureMatch(signatureName: string)
    | NoSignature
    | SuspiciousVendorId(vendorId: string, vendorName: string)
    | LegitimateVendor
    | SuspiciousPatterns(patternNames: seq<string>)
    | LegitimateName
    | UnusualProductId
    | ComboDevice
    | SinglePurpose
    | LengthMismatch(expected: int, actual: int)
    | InterfaceDefinedClass
    | ConfigurationCount(count: int)

  function Render(m: Message): string {
    match m
    case SignatureMatch(name) => "CRITICAL: Device matches known BadUSB signature - " + name
    case NoSignature => "No known BadUSB signatures detected"
    case SuspiciousVendorId(id, name) => "WARNING: Suspicious vendor ID " + id + " - " + name
    case LegitimateVendor => "Vendor ID appears legitimate"
    case SuspiciousPatterns(names) => "Device name contains suspicious patterns: " + Join(names, ", ")
    case LegitimateName => "Device name appears legitimate"
    case UnusualProductId => "Mass storage device with unusual product ID"
    case ComboDevice => "Combo device detected - multiple interface classes"
    case SinglePurpose => "Single-purpose device"
    case LengthMismatch(expected, actual) =>
      "Configuration descriptor length mismatch: " + Decimal(expected) + " vs " + Decimal(actual)
    case InterfaceDefinedClass => "Device uses interface-defined class (suspicious)"
    case ConfigurationCount(count) => "Device has " + Decimal(count) + " configurations (unusual)"
  }

  // ---------------------------------------------------------------- single checks

  datatype SignatureCheck = SignatureCheck(matched: bool, riskScore: real, message: Message, details: Option<Signature>)

  /** `_check_signatures`. */
  function CheckSignatures(vendor: Option<string>, product: Option<string>): (r: SignatureCheck)
    ensures r.matched == r.details.Some?
    ensures r.matched ==> r.riskScore == r.details.value.riskScore
    ensures !r.matched ==> r.riskScore == 0.0 && r.message == NoSignature
  {
    match BadUsbSignature(vendor, product)
    case Some(sig) =>
      SignatureCheck(true, sig.riskScore, SignatureMatch(sig.name), Some(sig))
    case None => SignatureCheck(false, 0.0, NoSignature, None)
  }

  /** A signature matches exactly when the pair, compared as written, is a key of the
      table (no case folding, no missing id), and then it reports that entry, whose
      score is at least 0.7. */
  lemma SignatureMatchIff(vendor: Option<string>, product: Option<string>)
    ensures var r := CheckSignatures(vendor, product);
      && (r.matched <==> (vendor.Some? && product.Some? && (vendor.value, product.value) in SignatureKeys))
      && (r.matched ==> r.details == BadUsbSignature(vendor, product) && 0.7 <= r.riskScore < 1.0)
  {
  }

  datatype VendorCheck = VendorCheck(suspicious: bool, riskScore: real, message: Message)

  /** `_check_vendor`. */
  function CheckVendor(vendor: Option<string>): (r: VendorCheck)
    ensures !r.suspicious ==> r.riskScore == 0.0 && r.message == LegitimateVendor
    ensures r.suspicious ==> vendor.Some? && r.message.SuspiciousVendorId? && r.message.vendorId == vendor.value
  {
    match SuspiciousVendor(vendor)
    case Some(info) =>
      VendorCheck(true, info.risk, SuspiciousVendorId(vendor.value, info.name))
    case None => VendorCheck(false, 0.0, LegitimateVendor)
  }

  /** A vendor is suspicious exactly when its id is a key of the table, and then it
      adds at least 0.6 to the risk. */
  lemma VendorSuspiciousIff(vendor: Option<string>)
    ensures CheckVendor(vendor).suspicious <==> (vendor.Some? && vendor.value in SuspiciousVendorKeys)
    ensures CheckVendor(vendor).suspicious ==> CheckVendor(vendor).riskScore == SuspiciousVendor(vendor).value.risk
    ensures CheckVendor(vendor).suspicious ==> 0.6 <= CheckVendor(vendor).riskScore <= 0.8
  {
  }

  // ---------------------------------------------------------------- device name

  datatype PatternHit = PatternHit(pattern: string, kind: string, riskScore: real)

  datatype NameCheck = NameCheck(patterns: seq<PatternHit>, riskScore: real, message: Message)

  /** `pattern.lower() in device_name.lower()`. */
  predicate Matches(name: string, p: Pattern) {
    Contains(Lower(name), Lower(p.pattern))
  }

  function HitOf(p: Pattern): PatternHit {
    PatternHit(p.pattern, p.kind, p.score)
  }

  /** The hits of `ps` on `name`, in the order of `ps`. */
  function Hits(name: string, ps: seq<Pattern>): seq<PatternHit> {
    if ps == [] then []
    else Hits(name, ps[..|ps| - 1]) + (if Matches(name, ps[|ps| - 1]) then [HitOf(ps[|ps| - 1])] else [])
  }

  function ScoreSum(hs: seq<PatternHit>): real {
    if hs == [] then 0.0 else ScoreSum(hs[..|hs| - 1]) + hs[|hs| - 1].riskScore
  }

  function PatternNames(hs: seq<PatternHit>): seq<string> {
    seq(|hs|, i requires 0 <= i < |hs| => hs[i].pattern)
  }

  /** What `_check_device_name` reports: the hits and, when there are any, their mean
      score capped at 1. */
  function NameCheckOf(name: string): NameCheck {
    NameCheckIn(name, MaliciousPatterns)
  }

  /** The name check against any pattern table. */
  function NameCheckIn(name: string, ps: seq<Pattern>): NameCheck {
    var hits := Hits(name, ps);
    if hits != [] then
      NameCheck(hits, RMin(1.0, ScoreSum(hits) / |hits| as real),
                SuspiciousPatterns(PatternNames(hits)))
    else NameCheck([], 0.0, LegitimateName)
  }

  /** The loop of `_check_device_name` over a pattern table: the hits in table order
      and the total of their scores. */
  method CollectHits(name: string, ps: seq<Pattern>) returns (patterns: seq<PatternHit>, totalRisk: real)
    ensures patterns == Hits(name, ps) && totalRisk == ScoreSum(patterns)
  {
    patterns := [];
    totalRisk := 0.0;
    var lowered := Lower(name);
    for i := 0 to |ps|
      invariant patterns == Hits(name, ps[..i])
      invariant totalRisk == ScoreSum(patterns)
    {
      var p := ps[i];
      assert ps[..i + 1][..i] == ps[..i];
      if Contains(lowered, Lower(p.pattern)) {
        assert (patterns + [HitOf(p)])[..|patterns|] == patterns;
        patterns := patterns + [HitOf(p)];
        totalRisk := totalRisk + p.score;
      }
    }
    assert ps[..|ps|] == ps;
  }

  /** `_check_device_name`: the hits of the pattern table, their mean score capped at 1. */
  method CheckDeviceName(name: string) returns (r: NameCheck)
    ensures r == NameCheckOf(name)
  {
    var patterns, totalRisk := CollectHits(name, MaliciousPatterns);
    if patterns != [] {
      totalRisk := RMin(1.0, totalRisk / |patterns| as real);
      r := NameCheck(patterns, totalRisk, SuspiciousPatterns(PatternNames(patterns)));
    } else {
      r := NameCheck([], 0.0, LegitimateName);
    }
  }

  /** A hit is reported exactly for the patterns occurring in the name, ignoring case. */
  lemma {:induction false} HitsIff(name: string, ps: seq<Pattern>, h: PatternHit)
    ensures h in Hits(name, ps) <==> exists p :: p in ps && Matches(name, p) && h == HitOf(p)
  {
    if ps != [] {
      var init := ps[..|ps| - 1];
      var last := ps[|ps| - 1];
      HitsIff(name, init, h);
      assert ps == init + [last];
      if h in Hits(name, ps) && h !in Hits(name, init) {
        assert h == HitOf(last) && Matches(name, last);
      }
      if exists p :: p in ps && Matches(name, p) && h == HitOf(p) {
        var p :| p in ps && Matches(name, p) && h == HitOf(p);
        if p != last {
          assert p in init;
        }
      }
    }
  }

  lemma {:induction false} HitScoresBounded(name: string, ps: seq<Pattern>)
    requires forall p :: p in ps ==> 0.3 <= p.score <= 0.9
    ensures var hs := Hits(name, ps);
      0.3 * |hs| as real <= ScoreSum(hs) <= 0.9 * |hs| as real
  {
    if ps != [] {
      var init := ps[..|ps| - 1];
      assert forall p :: p in init ==> p in ps;
      HitScoresBounded(name, init);
      var hs := Hits(name, init);
      assert ps[|ps| - 1] in ps;
      if !Matches(name, ps[|ps| - 1]) {
        assert Hits(name, ps) == hs;
      } else {
        var hs' := hs + [HitOf(ps[|ps| - 1])];
        assert Hits(name, ps) == hs';
        assert hs'[..|hs'| - 1] == hs;
        assert ScoreSum(hs') == ScoreSum(hs) + ps[|ps| - 1].score;
        assert |hs'| as real == |hs| as real + 1.0;
      }
    }
  }

  lemma MeanBounded(sum: real, n: real, lo: real, hi: real)
    requires n > 0.0 && lo * n <= sum <= hi * n
    ensures lo <= sum / n <= hi
  {
    assert sum / n * n == sum;
  }

  /** The name risk is 0 without hits and otherwise the mean of the matched scores,
      which lies in [0.3, 0.9], so the cap at 1 never applies. */
  lemma NameRisk(name: string)
    ensures var r := NameCheckOf(name);
      && (r.patterns == [] <==> r.riskScore == 0.0)
      && (r.patterns != [] ==> r.riskScore == ScoreSum(r.patterns) / |r.patterns| as real
                               && 0.3 <= r.riskScore <= 0.9)
      && 0.0 <= r.riskScore <= 1.0
  {
    NameRiskIn(name, MaliciousPatterns);
  }

  lemma NameRiskIn(name: string, ps: seq<Pattern>)
    requires forall p :: p in ps ==> 0.3 <= p.score <= 0.9
    ensures var r := NameCheckIn(name, ps);
      && (r.patterns == [] <==> r.riskScore == 0.0)
      && (r.patterns != [] ==> r.riskScore == ScoreSum(r.patterns) / |r.patterns| as real
                               && 0.3 <= r.riskScore <= 0.9)
  {
    var hits := Hits(name, ps);
    if hits != [] {
      HitScoresBounded(name, ps);
      MeanBounded(ScoreSum(hits), |hits| as real, 0.3, 0.9);
    }
  }

  lemma {:induction false} HitsIgnoreCase(a: string, b: string, ps: seq<Pattern>)
    requires Lower(a) == Lower(b)
    ensures Hits(a, ps) == Hits(b, ps)
  {
    if ps != [] {
      HitsIgnoreCase(a, b, ps[..|ps| - 1]);
    }
  }

  /** The name check ignores the case of the name. */
  lemma NameCheckIgnoresCase(name: string)
    ensures NameCheckOf(Lower(name)) == NameCheckOf(name)
  {
    LowerIdempotent(name);
    HitsIgnoreCase(Lower(name), name, MaliciousPatterns);
  }

  // ---------------------------------------------------------------- descriptors and combos

  datatype DescriptorCheck = DescriptorCheck(anomalies: seq<Message>, riskScore: real)

  /** `_analyze_descriptors`: a Kingston vendor id with one of two product ids. */
  function AnalyzeDescriptors(vendor: Option<string>, product: Option<string>): (r: DescriptorCheck)
    ensures r.riskScore == 0.1 * |r.anomalies| as real && |r.anomalies| <= 1
  {
    if vendor == Some("0x0951") && product.Some? && product.value in ["0x1666", "0x1667"] then
      DescriptorCheck([UnusualProductId], 0.1)
    else DescriptorCheck([], 0.0)
  }

  datatype ComboCheck = ComboCheck(detected: bool, message: Message, interfaces: seq<Interface>, riskScore: real)

  /** The pair is one of the suspect combinations. */
  predicate IsSuspectCombo(vendor: Option<string>, product: Option<string>) {
    vendor.Some? && product.Some? && (vendor.value, product.value) in SuspectCombos
  }

  /** `_detect_combo_device`. */
  function DetectComboDevice(vendor: Option<string>, product: Option<string>): (r: ComboCheck)
    ensures |r.interfaces| == (if r.detected then 2 else 0)
    ensures r.riskScore == (if r.detected then 0.3 else 0.0)
  {
    var detected := IsSuspectCombo(vendor, product);
    ComboCheck(detected,
               if detected then ComboDevice else SinglePurpose,
               if detected then [MassStorageInterface, ComboHidInterface] else [],
               if detected then 0.3 else 0.0)
  }

  /** The descriptor check finds an anomaly exactly for the Kingston vendor id with
      one of its two product ids. */
  lemma UnusualProductIdIff(vendor: Option<string>, product: Option<string>)
    ensures AnalyzeDescriptors(vendor, product).anomalies != []
      <==> vendor == Some("0x0951") && (product == Some("0x1666") || product == Some("0x1667"))
  {
  }

  /** A combo device is detected exactly for the two suspect pairs. */
  lemma ComboIff(vendor: Option<string>, product: Option<string>)
    ensures DetectComboDevice(vendor, product).detected
      <==> vendor.Some? && product.Some? && (vendor.value, product.value) in {("0x0951", "0x1666"), ("0x0781", "0x5580")}
  {
  }

  /** Of the two combinations only the Kingston one is also a known signature. */
  lemma ComboAndSignature(vendor: Option<string>, product: Option<string>)
    ensures IsSuspectCombo(vendor, product) && BadUsbSignature(vendor, product).Some?
      <==> vendor == Some("0x0951") && product == Some("0x1666")
  {
  }

  // ---------------------------------------------------------------- responses

  datatype ConfigDescriptor = ConfigDescriptor(totalLength: Option<int>, actualLength: Option<int>)

  datatype DeviceDescriptor = DeviceDescriptor(classCode: Option<string>, subclass: Option<string>)

  /** The descriptor dictionary; an absent key is `None`. */
  datatype Descriptors = Descriptors(
    configuration: Option<ConfigDescriptor>, device: Option<DeviceDescriptor>, configurationCount: Option<int>)

  datatype Checks = Checks(
    signatureMatch: SignatureCheck, vendorCheck: VendorCheck, deviceName: Option<NameCheck>,
    descriptors: DescriptorCheck, comboDevice: ComboCheck)

  /** The response dictionaries, without their timestamps. */
  datatype Response =
    | Assessment(
        vendorId: Option<string>, productId: Option<string>, deviceName: Option<string>,
        riskScore: real, riskLevel: string, checks: Checks, findings: seq<Message>,
        recommendations: seq<string>, hiddenInterfaces: seq<Interface>,
        signaturesMatched: seq<Signature>, forensicActions: Option<seq<string>>)
    | HiddenReport(
        vendorId: Option<string>, productId: Option<string>, interfaces: seq<Interface>,
        count: int, forensicNote: string)
    | DescriptorReport(status: string, anomalies: seq<Message>, riskScore: real, analysis: Descriptors)
    | Error(error: string)

  /** The `status` entry of a response. */
  function Status(r: Response): string {
    match r
    case Assessment(_, _, _, _, _, _, _, _, _, _, _) => "success"
    case HiddenReport(_, _, _, _, _) => "success"
    case DescriptorReport(status, _, _, _) => status
    case Error(_) => "error"
  }

  // ---------------------------------------------------------------- risk assessment

  /** The five checks `validate_firmware` runs; the name check only for a non-empty name. */
  function ChecksOf(vendor: Option<string>, product: Option<string>, name: Option<string>): Checks {
    Checks(CheckSignatures(vendor, product), CheckVendor(vendor),
           if Truthy(name) then Some(NameCheckOf(name.value)) else None,
           AnalyzeDescriptors(vendor, product), DetectComboDevice(vendor, product))
  }

  /** The uncapped score: the sum of the scores of the checks, an absent name check
      counting 0. */
  function RawRisk(c: Checks): real {
    c.signatureMatch.riskScore + c.vendorCheck.riskScore
    + (if c.deviceName.Some? then c.deviceName.value.riskScore else 0.0)
    + c.descriptors.riskScore + c.comboDevice.riskScore
  }

  function SignatureFindings(c: SignatureCheck): seq<Message> {
    if c.matched then [c.message] else []
  }

  function VendorFindings(c: VendorCheck): seq<Message> {
    if c.suspicious then [c.message] else []
  }

  function NameFindings(c: Option<NameCheck>): seq<Message> {
    if c.Some? && c.value.patterns != [] then [c.value.message] else []
  }

  function ComboFindings(c: ComboCheck): seq<Message> {
    if c.detected then [c.message] else []
  }

  /** The findings: the message of each check that fired, the descriptor anomalies
      themselves, in the order the checks run. */
  function FindingsOf(c: Checks): seq<Message> {
    SignatureFindings(c.signatureMatch) + VendorFindings(c.vendorCheck) + NameFindings(c.deviceName)
    + c.descriptors.anomalies + ComboFindings(c.comboDevice)
  }

  const Levels: set<string> := {"CRITICAL", "HIGH", "MEDIUM", "LOW"}

  /** The level of a score: CRITICAL from 0.7, HIGH from 0.5, MEDIUM from 0.3. */
  function RiskLevel(score: real): (r: string)
    ensures r in Levels
  {
    if score >= 0.7 then "CRITICAL" else if score >= 0.5 then "HIGH" else if score >= 0.3 then "MEDIUM" else "LOW"
  }

  /** The recommendation block of each level. */
  function Recommendations(level: string): seq<string> {
    match level
    case "CRITICAL" => ["Block device immediately - potential BadUSB detected", "Quarantine device for forensic analysis"]
    case "HIGH" => ["Exercise caution - suspicious device characteristics", "Monitor for malicious activity"]
    case "MEDIUM" => ["Additional verification recommended"]
    case _ => ["Device appears legitimate"]
  }

  /** What `validate_firmware` returns. */
  function AssessmentOf(vendor: Option<string>, product: Option<string>, name: Option<string>): (r: Response)
    ensures r.Assessment?
  {
    var c := ChecksOf(vendor, product, name);
    var score := RMin(1.0, RawRisk(c));
    Assessment(vendor, product, name, score, RiskLevel(score), c, FindingsOf(c),
               Recommendations(RiskLevel(score)), c.comboDevice.interfaces,
               if c.signatureMatch.matched then [c.signatureMatch.details.value] else [], None)
  }

  /** The level block of `validate_firmware`: the level of the capped score and its
      recommendations, appended one by one. */
  method AssignLevel(riskScore: real) returns (level: string, recommendations: seq<string>)
    ensures level == RiskLevel(riskScore) && recommendations == Recommendations(level)
  {
    recommendations := [];
    if riskScore >= 0.7 {
      level := "CRITICAL";
      recommendations := recommendations + ["Block device immediately - potential BadUSB detected"];
      recommendations := recommendations + ["Quarantine device for forensic analysis"];
    } else if riskScore >= 0.5 {
      level := "HIGH";
      recommendations := recommendations + ["Exercise caution - suspicious device characteristics"];
      recommendations := recommendations + ["Monitor for malicious activity"];
    } else if riskScore >= 0.3 {
      level := "MEDIUM";
      recommendations := recommendations + ["Additional verification recommended"];
    } else {
      level := "LOW";
      recommendations := recommendations + ["Device appears legitimate"];
    }
  }

  /** One step of `validate_firmware`: a check that fired adds its score and its
      findings. */
  method AddCheck(riskScore: real, findings: seq<Message>, fired: bool, risk: real, found: seq<Message>)
    returns (riskScore': real, findings': seq<Message>)
    ensures riskScore' == riskScore + (if fired then risk else 0.0)
    ensures findings' == findings + (if fired then found else [])
  {
    riskScore', findings' := riskScore, findings;
    if fired {
      riskScore' := riskScore' + risk;
      findings' := findings' + found;
    }
  }

  /** The name check of `validate_firmware`, run only for a non-empty name. */
  method NameStep(name: Option<string>, riskScore: real, findings: seq<Message>)
    returns (nameCheck: Option<NameCheck>, riskScore': real, findings': seq<Message>)
    ensures nameCheck == (if Truthy(name) then Some(NameCheckOf(name.value)) else None)
    ensures riskScore' == riskScore + (if nameCheck.Some? then nameCheck.value.riskScore else 0.0)
    ensures findings' == findings + NameFindings(nameCheck)
  {
    nameCheck, riskScore', findings' := None, riskScore, findings;
    if Truthy(name) {
      var nc := CheckDeviceName(name.value);
      nameCheck := Some(nc);
      NameRisk(name.value);
      riskScore', findings' := AddCheck(riskScore, findings, nc.patterns != [], nc.riskScore, [nc.message]);
    }
  }

  /** The five checks of `validate_firmware` in turn, each adding to the score and to
      the findings when it fires. */
  method RunChecks(vendor: Option<string>, product: Option<string>, name: Option<string>)
    returns (checks: Checks, riskScore: real, findings: seq<Message>)
    ensures checks == ChecksOf(vendor, product, name)
    ensures riskScore == RawRisk(checks) && findings == FindingsOf(checks)
  {
    riskScore := 0.0;
    findings := [];

    var sigCheck := CheckSignatures(vendor, product);
    riskScore, findings := AddCheck(riskScore, findings, sigCheck.matched, sigCheck.riskScore, [sigCheck.message]);
    assert findings == SignatureFindings(sigCheck);

    var vendorCheck := CheckVendor(vendor);
    riskScore, findings := AddCheck(riskScore, findings, vendorCheck.suspicious, vendorCheck.riskScore,
                                    [vendorCheck.message]);
    assert findings == SignatureFindings(sigCheck) + VendorFindings(vendorCheck);
    ghost var findings2 := findings;

    var nameCheck;
    nameCheck, riskScore, findings := NameStep(name, riskScore, findings);
    assert findings == findings2 + NameFindings(nameCheck);
    ghost var findings3 := findings;

    var descCheck := AnalyzeDescriptors(vendor, product);
    riskScore, findings := AddCheck(riskScore, findings, descCheck.anomalies != [], descCheck.riskScore,
                                    descCheck.anomalies);
    assert findings == findings3 + descCheck.anomalies;
    ghost var findings4 := findings;

    var comboCheck := DetectComboDevice(vendor, product);
    riskScore, findings := AddCheck(riskScore, findings, comboCheck.detected, 0.3, [comboCheck.message]);
    assert findings == findings4 + ComboFindings(comboCheck);

    checks := Checks(sigCheck, vendorCheck, nameCheck, descCheck, comboCheck);
  }

  /** `validate_firmware`: the checks, then the cap at 1 and the level. */
  method ValidateFirmware(vendor: Option<string>, product: Option<string>, name: Option<string>)
    returns (r: Response)
    ensures r == AssessmentOf(vendor, product, name)
  {
    var checks, riskScore, findings := RunChecks(vendor, product, name);
    var matched := if checks.signatureMatch.matched then [checks.signatureMatch.details.value] else [];
    var hidden := if checks.comboDevice.detected then checks.comboDevice.interfaces else [];
    riskScore := RMin(1.0, riskScore);
    var level, recommendations := AssignLevel(riskScore);
    r := Assessment(vendor, product, name, riskScore, level, checks,
                    findings, recommendations, hidden, matched, None);
  }

  /** Each check scores a positive amount exactly when it reports something. */
  lemma ChecksScores(vendor: Option<string>, product: Option<string>, name: Option<string>)
    ensures var sig := CheckSignatures(vendor, product);
      sig.riskScore >= 0.0 && (sig.riskScore > 0.0 <==> sig.matched)
    ensures var ven := CheckVendor(vendor);
      ven.riskScore >= 0.0 && (ven.riskScore > 0.0 <==> ven.suspicious)
    ensures var desc := AnalyzeDescriptors(vendor, product);
      desc.riskScore >= 0.0 && (desc.riskScore > 0.0 <==> desc.anomalies != [])
    ensures var combo := DetectComboDevice(vendor, product);
      combo.riskScore >= 0.0 && (combo.riskScore > 0.0 <==> combo.detected)
  {
  }

  /** The score lies in [0, 1]; it is 0 exactly when nothing was found, and then the
      level is LOW with the single recommendation that the device appears legitimate. */
  lemma AssessmentBounds(vendor: Option<string>, product: Option<string>, name: Option<string>)
    ensures var r := AssessmentOf(vendor, product, name);
      && 0.0 <= r.riskScore <= 1.0
      && (r.riskScore == 0.0 <==> r.findings == [])
      && (r.findings == [] ==> r.riskLevel == "LOW" && r.recommendations == ["Device appears legitimate"])
  {
    ChecksScores(vendor, product, name);
    if Truthy(name) {
      NameRisk(name.value);
    }
  }

  /** A known signature alone makes the device CRITICAL; a suspicious vendor alone
      makes it at least HIGH. */
  lemma SignatureOrVendorLevel(vendor: Option<string>, product: Option<string>, name: Option<string>)
    ensures var r := AssessmentOf(vendor, product, name);
      && (BadUsbSignature(vendor, product).Some? ==> r.riskLevel == "CRITICAL")
      && (SuspiciousVendor(vendor).Some? ==> r.riskLevel in {"CRITICAL", "HIGH"})
  {
    ChecksScores(vendor, product, name);
    SignatureMatchIff(vendor, product);
    VendorSuspiciousIff(vendor);
    if Truthy(name) {
      NameRisk(name.value);
    }
  }

  /** The level follows the thresholds. */
  lemma LevelThresholds(score: real)
    ensures RiskLevel(score) == "CRITICAL" <==> score >= 0.7
    ensures RiskLevel(score) == "HIGH" <==> 0.5 <= score < 0.7
    ensures RiskLevel(score) == "MEDIUM" <==> 0.3 <= score < 0.5
    ensures RiskLevel(score) == "LOW" <==> score < 0.3
  {
  }

  /** Each level has its own block of recommendations, so an assessment carries
      exactly one block. */
  lemma RecommendationsDistinct(a: string, b: string)
    requires a in Levels && b in Levels && a != b
    ensures Recommendations(a) != Recommendations(b)
  {
  }

  function LevelRank(level: string): int {
    if level == "CRITICAL" then 3 else if level == "HIGH" then 2 else if level == "MEDIUM" then 1 else 0
  }

  /** A higher score never gives a lower level. */
  lemma RiskLevelMonotone(s: real, t: real)
    requires s <= t
    ensures LevelRank(RiskLevel(s)) <= LevelRank(RiskLevel(t))
  {
  }

  // ---------------------------------------------------------------- scan

  /** The forensic actions `scan_for_badusb` adds above each threshold. */
  function ForensicActions(score: real): Option<seq<string>> {
    if score >= 0.7 then
      Some(["Isolate device from network", "Capture device firmware for analysis",
            "Monitor for command execution", "Log all USB activity", "Alert security team immediately"])
    else if score >= 0.5 then
      Some(["Monitor device closely", "Document all activity", "Capture packets", "Log to SIEM system"])
    else None
  }

  /** What `scan_for_badusb` returns. */
  function ScanOf(vendor: Option<string>, product: Option<string>, name: Option<string>): Response {
    var a := AssessmentOf(vendor, product, name);
    a.(forensicActions := ForensicActions(a.riskScore))
  }

  /** `scan_for_badusb`: the assessment with the forensic actions for its score. */
  method ScanForBadusb(vendor: Option<string>, product: Option<string>, name: Option<string>)
    returns (r: Response)
    ensures r == ScanOf(vendor, product, name)
  {
    r := ValidateFirmware(vendor, product, name);
    if r.riskScore >= 0.7 {
      r := r.(forensicActions := Some(["Isolate device from network", "Capture device firmware for analysis",
                                       "Monitor for command execution", "Log all USB activity",
                                       "Alert security team immediately"]));
    } else if r.riskScore >= 0.5 {
      r := r.(forensicActions := Some(["Monitor device closely", "Document all activity", "Capture packets",
                                       "Log to SIEM system"]));
    }
  }

  /** Forensic actions are added exactly at the CRITICAL and HIGH levels: five at
      CRITICAL and four at HIGH. */
  lemma ForensicActionsByLevel(score: real)
    ensures ForensicActions(score).Some? <==> RiskLevel(score) in {"CRITICAL", "HIGH"}
    ensures RiskLevel(score) == "CRITICAL" ==> |ForensicActions(score).value| == 5
    ensures RiskLevel(score) == "HIGH" ==> |ForensicActions(score).value| == 4
  {
  }

  // ---------------------------------------------------------------- hidden interfaces

  /** The interfaces `detect_hidden_interfaces` reports. */
  function HiddenInterfacesOf(vendor: Option<string>, product: Option<string>): seq<Interface> {
    var sig := BadUsbSignature(vendor, product);
    (if sig.Some? && "hidden_hid" in sig.value.indicators then [HiddenHidInterface] else [])
    + DetectComboDevice(vendor, product).interfaces
  }

  function HiddenReportOf(vendor: Option<string>, product: Option<string>): Response {
    var interfaces := HiddenInterfacesOf(vendor, product);
    HiddenReport(vendor, product, interfaces, |interfaces|,
                 "Detected " + Decimal(|interfaces|) + " suspicious interfaces")
  }

  /** `detect_hidden_interfaces`. */
  method DetectHiddenInterfaces(vendor: Option<string>, product: Option<string>) returns (r: Response)
    ensures r == HiddenReportOf(vendor, product)
  {
    var interfaces: seq<Interface> := [];
    var sig := BadUsbSignature(vendor, product);
    if sig.Some? {
      if "hidden_hid" in sig.value.indicators {
        interfaces := interfaces + [HiddenHidInterface];
      }
    }
    var comboCheck := DetectComboDevice(vendor, product);
    if comboCheck.detected {
      interfaces := interfaces + comboCheck.interfaces;
    }
    r := HiddenReport(vendor, product, interfaces, |interfaces|,
                      "Detected " + Decimal(|interfaces|) + " suspicious interfaces");
  }

  /** The count is the number of interfaces listed, at most three; the hidden keyboard
      is listed exactly when the matched signature names `hidden_hid`. */
  lemma HiddenInterfacesCount(vendor: Option<string>, product: Option<string>)
    ensures var r := HiddenReportOf(vendor, product);
      && r.count == |r.interfaces| <= 3
      && (HiddenHidInterface in r.interfaces
          <==> (BadUsbSignature(vendor, product).Some? && "hidden_hid" in BadUsbSignature(vendor, product).value.indicators))
      && (r.count == 3 <==> vendor == Some("0x0951") && product == Some("0x1666"))
  {
  }

  // ---------------------------------------------------------------- descriptor check

  /** `.get(key, 0)` on a length. */
  function OrZero(v: Option<int>): int {
    if v.Some? then v.value else 0
  }

  predicate HasLengthMismatch(d: Descriptors) {
    d.configuration.Some? && OrZero(d.configuration.value.totalLength) != OrZero(d.configuration.value.actualLength)
  }

  predicate HasInterfaceDefinedClass(d: Descriptors) {
    d.device.Some? && d.device.value.classCode == Some("0x00") && d.device.value.subclass == Some("0x00")
  }

  predicate HasManyConfigurations(d: Descriptors) {
    d.configurationCount.Some? && d.configurationCount.value > 1
  }

  /** The anomalies of the three rules, in rule order. */
  function DescriptorAnomalies(d: Descriptors): seq<Message> {
    (if HasLengthMismatch(d) then
       [LengthMismatch(OrZero(d.configuration.value.totalLength), OrZero(d.configuration.value.actualLength))]
     else [])
    + (if HasInterfaceDefinedClass(d) then [InterfaceDefinedClass] else [])
    + (if HasManyConfigurations(d) then [ConfigurationCount(d.configurationCount.value)] else [])
  }

  /** A rule's weight when it fires, else 0. */
  function Weight(fired: bool, w: real): real {
    if fired then w else 0.0
  }

  /** The descriptor score: 0.2 for a length mismatch, 0.1 for an interface-defined
      class, 0.15 for several configurations. */
  function DescriptorRisk(d: Descriptors): real {
    Weight(HasLengthMismatch(d), 0.2) + Weight(HasInterfaceDefinedClass(d), 0.1) + Weight(HasManyConfigurations(d), 0.15)
  }

  function DescriptorReportOf(d: Descriptors): Response {
    var anomalies := DescriptorAnomalies(d);
    DescriptorReport(if anomalies == [] then "success" else "warning", anomalies, DescriptorRisk(d), d)
  }

  /** `check_device_descriptors`. */
  method CheckDeviceDescriptors(descriptors: Descriptors) returns (r: Response)
    ensures r == DescriptorReportOf(descriptors)
  {
    var anomalies: seq<Message> := [];
    var riskScore := 0.0;
    if descriptors.configuration.Some? {
      var expected := OrZero(descriptors.configuration.value.totalLength);
      var actual := OrZero(descriptors.configuration.value.actualLength);
      if expected != actual {
        anomalies := anomalies + [LengthMismatch(expected, actual)];
        riskScore := riskScore + 0.2;
      }
    }
    ghost var first := anomalies;
    assert riskScore == Weight(HasLengthMismatch(descriptors), 0.2);
    if descriptors.device.Some? {
      var device := descriptors.device.value;
      if device.classCode == Some("0x00") && device.subclass == Some("0x00") {
        anomalies := anomalies + [InterfaceDefinedClass];
        riskScore := riskScore + 0.1;
      }
    }
    assert anomalies == first + (if HasInterfaceDefinedClass(descriptors) then [InterfaceDefinedClass] else []);
    ghost var second := anomalies;
    assert riskScore == Weight(HasLengthMismatch(descriptors), 0.2) + Weight(HasInterfaceDefinedClass(descriptors), 0.1);
    if descriptors.configurationCount.Some? {
      if descriptors.configurationCount.value > 1 {
        anomalies := anomalies + [ConfigurationCount(descriptors.configurationCount.value)];
        riskScore := riskScore + 0.15;
      }
    }
    assert anomalies == second + (if HasManyConfigurations(descriptors) then [ConfigurationCount(descriptors.configurationCount.value)] else []);
    r := DescriptorReport(if anomalies == [] then "success" else "warning", anomalies, riskScore, descriptors);
  }

  function Indicator(b: bool): nat {
    if b then 1 else 0
  }

  /** One anomaly per rule that fires, in rule order and naming what it found; the
      score is the sum of the weights of those rules, 0 exactly when none fires and
      at most 0.45; the status is `success` exactly when no anomaly was found. */
  lemma DescriptorStatus(d: Descriptors)
    ensures var r := DescriptorReportOf(d);
      var l, c, k := Indicator(HasLengthMismatch(d)), Indicator(HasInterfaceDefinedClass(d)), Indicator(HasManyConfigurations(d));
      && |r.anomalies| == l + c + k
      && (HasLengthMismatch(d) ==> r.anomalies[0] == LengthMismatch(OrZero(d.configuration.value.totalLength), OrZero(d.configuration.value.actualLength)))
      && (HasInterfaceDefinedClass(d) ==> r.anomalies[l] == InterfaceDefinedClass)
      && (HasManyConfigurations(d) ==> r.anomalies[l + c] == ConfigurationCount(d.configurationCount.value))
      && r.riskScore == 0.2 * l as real + 0.1 * c as real + 0.15 * k as real
      && (r.riskScore == 0.0 <==> r.anomalies == [])
      && 0.0 <= r.riskScore <= 0.45
      && (r.status == "success" <==> r.anomalies == [])
      && (r.status == "success" || r.status == "warning")
  {
  }

  // ---------------------------------------------------------------- dispatch

  /** The `data` of a message; `descriptors` absent is the empty dictionary. */
  datatype Data = Data(vendorId: Option<string>, productId: Option<string>, deviceName: Option<string>,
                       descriptors: Descriptors)

  datatype Request = Request(action: Option<string>, data: Data)

  const Actions: set<string> := {"validate_firmware", "detect_hidden_interfaces", "check_device_descriptors", "scan_for_badusb"}

  /** The action of a message, `unknown` when absent. */
  function ActionOf(m: Request): string {
    if m.action.Some? then m.action.value else "unknown"
  }

  /** `process_message`: the handler named by the action, or an error naming it. */
  method ProcessMessage(m: Request) returns (r: Response)
    ensures ActionOf(m) == "validate_firmware" ==> r == AssessmentOf(m.data.vendorId, m.data.productId, m.data.deviceName)
    ensures ActionOf(m) == "detect_hidden_interfaces" ==> r == HiddenReportOf(m.data.vendorId, m.data.productId)
    ensures ActionOf(m) == "check_device_descriptors" ==> r == DescriptorReportOf(m.data.descriptors)
    ensures ActionOf(m) == "scan_for_badusb" ==> r == ScanOf(m.data.vendorId, m.data.productId, m.data.deviceName)
    ensures ActionOf(m) !in Actions ==> r == Error("Unknown action: " + ActionOf(m))
    ensures Status(r) == "error" <==> ActionOf(m) !in Actions
  {
    var action := ActionOf(m);
    var data := m.data;
    if action == "validate_firmware" {
      r := ValidateFirmware(data.vendorId, data.productId, data.deviceName);
    } else if action == "detect_hidden_interfaces" {
      r := DetectHiddenInterfaces(data.vendorId, data.productId);
    } else if action == "check_device_descriptors" {
      r := CheckDeviceDescriptors(data.descriptors);
    } else if action == "scan_for_badusb" {
      r := ScanForBadusb(data.vendorId, data.productId, data.deviceName);
    } else {
      r := Error("Unknown action: " + action);
    }
  }
}
