# USB forensics tool: a verified model of its core

This project models the analysis core of a USB forensics tool for Windows. The tool:

- decodes USB Request Blocks (URBs) from ETW trace files written by the USB driver stack;
- drives `logman` trace sessions, and a real-time worker that re-parses the growing trace file;
- merges registry entries and event-log entries into one record per device;
- scores those records for anomalies and flags suspicious ones;
- classifies devices by keyword and derives their USB speed;
- extracts vendor and product ids from registry key names;
- deduplicates the device list and the device table the UI shows;
- validates devices against BadUSB signatures, suspicious vendors and name patterns, and dispatches validator messages by action;
- looks devices up in embedded vendor, product and security tables.

Each source file has its own module.

| module | source file |
|---|---|
| `UrbTables`, `UrbDecoder`, `Capture` | `urb_capture.py` |
| `Correlation` | `correlation.py` |
| `Analysis` | `analysis.py` |
| `UsbDeviceManager` | `usb_device_manager.py` |
| `RegistryParser` | `registry_parser.py` |
| `UiDedupe` | `simulate_ui_dedupe.py` |
| `FirmwareValidator` | `extensions/firmware_validator.py` |
| `OnlineLookup` | `enhanced_online_lookup.py` |

Two modules support the others:

- `Text` holds the Python string and number operations the code relies on: `strip`, `lower`, `in`, hexadecimal and decimal formatting, `bytes.fromhex`, string ordering, `sorted`, `split`, `join` and `urllib.parse.quote`.
- `Dedup` holds the keep-first-per-key loop shared by the real-time worker and the UI dedupe.

Most loops of the source are Dafny methods with loop invariants, each proved equal to a specification function; lemmas prove the source's promises about those functions. One loop that only searches and returns is a recursive function instead: the domain search of `search_manufacturer_site` (`OnlineLookup.FirstDomain`). The search for a record whose serial matches in `correlate` is the `while` loop of `Correlation.AddEvent`, specified by the function `Correlation.FirstMatchFrom`. The row loop of `simulate` builds one row per device and is the function `UiDedupe.RowsOf`. Objects whose fields the source updates are classes:

- `Capture.UrbCapture`;
- its real-time worker, `Capture.RealtimeWorker`;
- the event observer, `Capture.UrbParserObserver`.

Their methods state the whole new state through `old(...)`. The ones that step the trace sessions and the worker (`StartEtwCapture`, `StartWorker`, `Poll`, `AbortWorker` and their neighbours) have no single specification function: their clauses relate the new fields to the old ones, the command outcomes and `ParseResult`.

Two places where the code differs from what its documentation suggests. The model follows the code in both:

- `get_device_security_info` merges the vulnerable-device entry with `dict.update`. The entry's key is `vulnerabilities`, so `known_vulnerabilities` stays empty even for the vulnerable device (`OnlineLookup.SecurityRating`).
- `anomaly_score` scores summaries made by `summarize`. Summaries carry the connection count under `total_connections`, but `compute_anomaly_score` reads `connections`. So the connection term never applies to a summary (`Analysis.SummaryHasNoConnectionTerm`).

Three further behaviours of the code are modelled as written:

- The status-name fall-back formats the unmasked status, so a negative status is rendered with a minus sign (`UrbTables.UnknownNegativeStatusName`).
- In `get_usb_speed` the second `superspeed+` test can never fire, because the first one already caught it (`UsbDeviceManager.SuperSpeedPlus`).
- The timestamps of `correlate` are compared as strings, as Python compares them (`Correlation.TouchSeen`).

## Model

| member | source | states |
|---|---|---|
| UrbTables.UnknownFunctionName | urb_capture.py:343-348 | a 16-bit code outside the function table is named `UNKNOWN_0x` followed by exactly four upper-case hex digits whose value is the code, and never gets a `URB_FUNCTION_` name |
| UrbTables.FunctionNameInjective | urb_capture.py:49-95 | two different 16-bit function codes never get the same name when one of them is outside the table |
| UrbTables.StatusNameMasked | urb_capture.py:350-355 | the name of a table status depends only on the status modulo 2^32, so a sign-extended status names like its 32-bit value |
| UrbTables.UnknownStatusName | urb_capture.py:350-355 | a 32-bit status outside the table is named `STATUS_0x` and exactly eight upper-case hex digits spelling the status |
| UrbTables.UnknownNegativeStatusName | urb_capture.py:350-355 | a negative status whose 32-bit residue is not a table code is rendered `STATUS_0x-…`: the fall-back formats the unmasked value |
| UrbTables.UnknownWideStatusName | urb_capture.py:350-355 | a status at or above 2^32 whose residue is not in the table gets more than eight digits |
| UrbTables.ControlTransferName | urb_capture.py:59 | example: code 8 is `URB_FUNCTION_CONTROL_TRANSFER` |
| UrbTables.SelectConfigurationName | urb_capture.py:51 | example: code 0 is `URB_FUNCTION_SELECT_CONFIGURATION` |
| UrbTables.SuccessStatusName | urb_capture.py:101 | example: status 0 is `USBD_STATUS_SUCCESS` |
| UrbTables.UnknownFunctionNameFF | urb_capture.py:348 | example: code 0xFF is named `UNKNOWN_0x00FF` |
| Text.FormatHexFixedWidth | urb_capture.py:348 | `f"{n:0wX}"` for 0 <= n < 16^w is exactly w upper-case hex digits whose value is n |
| Text.FromHexOfBytesHex | urb_capture.py:273 | `bytes.fromhex` of the hexadecimal text of some bytes gives those bytes back |
| UrbDecoder.UsbProviderHasPrefix | urb_capture.py:215-229 | an event passes the provider filter only if its provider name contains `Microsoft-Windows-USB-` |
| UrbDecoder.GetAlias | urb_capture.py:256-261 | the value read is one stored under the primary or the alternative name, and the default only when neither name is present (the precedence is in `ExtractUrbAliases`) |
| UrbDecoder.ExtractVidPid | urb_capture.py:326-341 | vid and pid are the (at most) four characters after the first `VID_` and the first `PID_`, or "" when the marker is absent |
| UrbDecoder.EndpointDirection | urb_capture.py:267 | the direction is `IN` or `OUT` |
| UrbDecoder.EndpointDirectionBit | urb_capture.py:267 | for an address byte the direction is `IN` exactly when bit 7 is set |
| UrbDecoder.EndpointDirectionLowByte | urb_capture.py:267 | only the low byte of the (two's complement) endpoint value decides the direction |
| UrbDecoder.DecodeBuffer | urb_capture.py:270-275 | bytes are kept, a string is decoded as hex with spaces removed (undecodable text gives empty bytes), and an integer buffer fails the event |
| UrbDecoder.ExtractUrb | urb_capture.py:241-324 | an event yields a URB exactly when its fields have the types the decoder computes with; the URB copies the event's data, timestamp and ids, stores at most 1024 buffer bytes, has the five setup keys exactly for a control transfer, and zero request fields otherwise |
| UrbDecoder.ExtractUrbNames | urb_capture.py:264-299 | the function and status names, vid/pid and direction of a URB are those of its own code, status, device id and endpoint |
| UrbDecoder.ExtractUrbAliases | urb_capture.py:256-261 | each of function, status, device id, endpoint, transfer length and actual length comes from the primary name, else the alternative, else the default |
| UrbDecoder.ControlTransferSetup | urb_capture.py:278-314 | a control transfer carries the five setup-packet fields, and its request fields are the setup packet's; `wLength` and the transfer length share the `Length` fall-back |
| UrbDecoder.ExtractUrbHexBuffer | urb_capture.py:270-302 | a buffer given as the hex text of some bytes is stored as those bytes, cut to 1024 |
| UrbDecoder.HexTextDecodes | urb_capture.py:270-275 | a string buffer that `bytes.fromhex` accepts once its spaces are removed decodes to exactly those bytes |
| UrbDecoder.SpacedHexDecodes | urb_capture.py:270-275 | text that is the hex of some bytes with spaces put anywhere decodes to those bytes |
| UrbDecoder.ExtractUrbHexText | urb_capture.py:270-302 | the URB of an event whose buffer is valid hex text, spaces removed, stores those bytes cut to 1024 |
| UrbDecoder.SpacedMixedCaseHex | urb_capture.py:270-275 | example: `"DE ad 0F"` decodes to the bytes DE AD 0F |
| UrbDecoder.ExtractUrbBadHex | urb_capture.py:271-275 | malformed hex text does not fail the event: the buffer is empty |
| UrbDecoder.ExtractUrbBufferPrefix | urb_capture.py:302 | the stored buffer is the first min(n, 1024) bytes of the decoded buffer |
| UrbDecoder.EventUrb | urb_capture.py:223-239 | only an event of a USB provider whose parsing does not raise can yield a URB |
| UrbDecoder.EmptyEventData | urb_capture.py:232-286 | an event without `parse_etw` decodes with every default: function 0 (`SELECT_CONFIGURATION`), status 0 (`SUCCESS`), empty device, endpoint 0 `OUT`, empty buffer and no setup packet |
| UrbDecoder.DecodeEventsAppend | urb_capture.py:223-239 | decoding a concatenated event stream concatenates the results, so records keep their events' order and one event's failure leaves the others alone |
| UrbDecoder.DecodeEventsNone | urb_capture.py:225-239 | a stream whose events all yield nothing yields nothing |
| UrbDecoder.DecodeEventsOrigin | urb_capture.py:223-239 | at most one URB per event, and each URB is the decoding of some event of a USB provider |
| UrbDecoder.ControlTransferScenario | urb_capture.py:256-299 | a control transfer with status 0 on endpoint 0x80 decodes as `URB_FUNCTION_CONTROL_TRANSFER`, `USBD_STATUS_SUCCESS`, `IN`, with the five setup keys and an empty buffer |
| Capture.SessionProvider | urb_capture.py:684-689 | the session provider is one of those requested, and USBPORT only when none is requested |
| Capture.SessionUsesOnlyFirstProvider | urb_capture.py:684-689 | a requested provider appears on the `logman create` command line exactly when it is the first one |
| Capture.ParseResult | urb_capture.py:186-373 | URBs come only from a present file read by the installed library without a reader failure; there are at most as many as events, each decoded from one of them |
| Capture.UrbParserObserver.constructor | urb_capture.py:213-221 | a new observer has collected nothing |
| Capture.UrbParserObserver.OnEventRecord | urb_capture.py:223-239 | one event appends its URB, if it yields one, to the collected list |
| Capture.UrbCapture.constructor | urb_capture.py:159-169 | a new capture object holds the platform checks, no trace file, no running worker and no issued commands |
| Capture.UrbCapture.ParseEtlFile | urb_capture.py:186-373 | the observer fed every event in order returns exactly `ParseResult` |
| Capture.UrbCapture.StartEtwCapture | urb_capture.py:429-524 | refused without availability or a creatable directory; otherwise sets the trace file, issues the stop and a create with USBPORT (plus a delete when create exits non-zero), returns the path only when create exits 0, and schedules a stop only for a positive duration |
| Capture.UrbCapture.StopEtwCapture | urb_capture.py:526-543 | issues `logman stop` and succeeds exactly when it exits 0 |
| Capture.UrbCapture.StartRealtimeCapture | urb_capture.py:547-587 | starts exactly when capture is available and nothing runs; then registers the callback, sets the running flag and passes the given providers, or the default three |
| Capture.UrbCapture.StopRealtimeCapture | urb_capture.py:589-601 | returns whether a worker was running, and the running flag is cleared afterwards |
| Capture.UrbCapture.StartEtwSession | urb_capture.py:660-700 | issues stop, delete and a create with the session provider, and succeeds exactly when create exits 0 |
| Capture.UrbCapture.StopEtwSession | urb_capture.py:702-713 | issues `logman stop` and succeeds exactly when it exits 0 |
| Capture.UrbCapture.StartWorker | urb_capture.py:603-624 | a worker whose trace directory cannot be made clears the running flag; otherwise it starts a session and a fresh polling state with nothing processed |
| Capture.UrbCapture.FinishWorker | urb_capture.py:647-648 | the worker's end stops the session |
| Capture.RealtimeWorker.constructor | urb_capture.py:622-624 | polling starts at size 0, at the start time, with no URB ids processed |
| Capture.RealtimeWorker.Poll | urb_capture.py:626-658 | re-parses only when the file exists, has grown and the last parse is over five seconds old; then it marks every parsed URB id and delivers, in parse order, each URB whose id is new; a delivery on which the callback raises ends the turn right after that URB, leaving the last size and parse time unchanged; no URB id is ever delivered twice |
| Capture.UrbCapture.AbortWorker | urb_capture.py:647-658 | after a raising callback the worker stops the session and clears the running flag |
| Dedup.KeepFirstDistinct | simulate_ui_dedupe.py:38-45 | nothing kept has an already-seen key and no two kept elements share a key |
| Dedup.KeepFirstKeys | simulate_ui_dedupe.py:38-45 | the kept keys are exactly the input's keys that were not already seen |
| Dedup.KeepFirstSubsequence | simulate_ui_dedupe.py:38-45 | the kept elements keep their input order |
| Dedup.KeepFirstIsFirstOccurrence | simulate_ui_dedupe.py:38-45 | each kept element is the first input element with its key |
| Dedup.MarkNew | urb_capture.py:637-643 | the loop adds every key to the seen set and collects, when asked, exactly the keep-first elements; when collecting an element raises, it stops right after the first new element that raises, with that element collected |
| Dedup.FirstFailureFromIs | urb_capture.py:637-643 | the stopping point is the first new element that raises: no new element before it raises |
| Dedup.AppendKeptStaysDistinct | urb_capture.py:624-643 | delivering the new elements of a batch after earlier deliveries keeps all delivered keys distinct and seen |
| Dedup.KeepFirstAcrossBatches | urb_capture.py:624-643 | an element seen in one batch is not delivered again from the next |
| UiDedupe.RunEnd | simulate_ui_dedupe.py:17 | the run of non-backslash characters of `[^\\]*` ends at a backslash or at the end |
| UiDedupe.LastPidFrom | simulate_ui_dedupe.py:17 | the greedy `[^\\]*` backs off to the last `pid_` and four hex digits inside the run |
| UiDedupe.DevMatchEnd | simulate_ui_dedupe.py:17 | a match at k starts with `vid_` and four hex digits and ends with `pid_` and four hex digits |
| UiDedupe.FirstDevMatch | simulate_ui_dedupe.py:17 | the match found is the leftmost one |
| UiDedupe.DevKey | simulate_ui_dedupe.py:15-27 | a device id has a `dev:` key exactly when the pattern occurs in it |
| UiDedupe.SerialKey | simulate_ui_dedupe.py:7-10 | a non-empty serial decides the key: devices with the same normalised serial and manufacturer share a key whatever else differs |
| UiDedupe.HardwareIdKey | simulate_ui_dedupe.py:11-14 | without a serial, hardware ids that normalise to something give the `hid:` key |
| UiDedupe.DeviceIdKey | simulate_ui_dedupe.py:15-32 | otherwise the device-id pattern gives the `dev:` key, and failing that the key is name, manufacturer and type joined by `|` |
| UiDedupe.DevKeyLeftmost | simulate_ui_dedupe.py:17-27 | the `dev:` key is built from the leftmost pattern match, with the cleaned tail when there is one |
| UiDedupe.SerialDisplay | simulate_ui_dedupe.py:51-56 | the serial column is never empty, is the serial or (without one) `N/A` or `Unknown`, and reads `N/A` exactly for a serial `N/A` or a hub or unknown device without a serial |
| UiDedupe.RowsOf | simulate_ui_dedupe.py:50-63 | one row per device, in order; no cell is empty, known type, manufacturer and name are shown as they are, and the status is `Connected` exactly for a connected device, else `Disconnected` |
| UiDedupe.Simulate | simulate_ui_dedupe.py:35-68 | the devices kept are the first of each key in input order, the rows the first of each normalised value tuple; both have distinct keys and cover every key of their input |
| UiDedupe.DedupKeepsFirst | simulate_ui_dedupe.py:38-45 | each kept device is the first input device with its key |
| UiDedupe.DedupKeepsOrder | simulate_ui_dedupe.py:38-45 | the kept devices are in input order |
| UsbDeviceManager.ClassifyDeviceType | usb_device_manager.py:53-102 | the type is one of the eight categories |
| UsbDeviceManager.ClassifyPriority | usb_device_manager.py:53-102 | storage, input and network are each chosen exactly when their rule holds and no earlier rule does, and `unknown` exactly when no rule holds |
| UsbDeviceManager.DiskIsStorage | usb_device_manager.py:61-62 | a name mentioning `disk` is storage whatever else holds |
| UsbDeviceManager.ClassifyIgnoresCase | usb_device_manager.py:55-58 | the classification ignores the case of its inputs |
| UsbDeviceManager.ExtractVidPidShape | usb_device_manager.py:105-117 | vid and pid are the at most four characters after the first `VID_` and `PID_`, or "" without the marker |
| UsbDeviceManager.UsbSpeed | usb_device_manager.py:120-138 | the speed is one of the seven speed names |
| UsbDeviceManager.SuperSpeedPlus | usb_device_manager.py:125-128 | `superspeed+` always gives USB 3.2, so USB 3.1 comes only from `usb 3.1`; `Unknown` means none of `usb 3.0`, `usb 2.0`, `usb 1.1` or `usb 1.0` occurs |
| UsbDeviceManager.SummaryDeterminesFields | usb_device_manager.py:306-324 | two devices have equal summaries exactly when they agree on the fifteen summarised fields |
| UsbDeviceManager.SummaryIgnoresOtherFields | usb_device_manager.py:306-324 | the summary does not depend on the fields it does not list |
| RegistryParser.FirstHexMatch | registry_parser.py:113 | the match found is the leftmost `VID_` (or `PID_`) followed by four hex digits |
| RegistryParser.FirstWordMatch | registry_parser.py:116 | the match found is the leftmost `Ven[_-]?` (or `Prod[_-]?`) followed by an alphanumeric character |
| RegistryParser.AlnumRun | registry_parser.py:116 | the group is the whole maximal alphanumeric run |
| RegistryParser.ExtractIdCases | registry_parser.py:113-117 | the id is the four hex digits after the leftmost hex match, else the whole non-empty word after the leftmost word match, else `UNKNOWN` |
| RegistryParser.HexBranchShape | registry_parser.py:113-115 | whenever the marker is somewhere followed by four hex digits, the id is four hex digits |
| RegistryParser.NoMatchUnknown | registry_parser.py:134-138 | without any match of either pattern the product id is `UNKNOWN` |
| Correlation.OrElse | correlation.py:79 | `s or d` is d or the string in s, and is empty only when s is falsy and d is empty |
| Correlation.Put | correlation.py:90 | storing under a key updates the map; a new key goes to the end of the insertion order, an existing one keeps its place |
| Correlation.Values | correlation.py:138 | `records.values()` has one entry per key, lists every stored record and nothing else |
| Correlation.FirstMatchFrom | correlation.py:107-108 | finds the first record in insertion order whose non-empty serial occurs in the event's name |
| Correlation.Correlate | correlation.py:58-140 | the registry loop and the event loop compute exactly `CorrelateSpec` |
| Correlation.AddEvent | correlation.py:95-136 | one event updates the store exactly as `EventStep` says |
| Correlation.PutSum | correlation.py:90 | storing a record changes a sum over the records by the difference between it and what it replaced |
| Correlation.RegistrySums | correlation.py:78-90 | registry records have no connections and no events |
| Correlation.EventStepSums | correlation.py:105-136 | one event adds exactly one connection and one action to the store's totals |
| Correlation.EventsStoreSums | correlation.py:94-136 | the event loop adds exactly one connection and one action per event |
| Correlation.CorrelateConnections | correlation.py:58-140 | the connections of the result add up to the number of events |
| Correlation.CorrelateEventCount | correlation.py:58-140 | the actions of the result add up to the number of events |
| Correlation.RegistryStoreRecords | correlation.py:78-90 | every registry entry has a record under `serial or device_id`; that record is built from the last entry with the key; every key comes from some entry |
| Correlation.EventToFirstSerialMatch | correlation.py:107-119 | an event goes to the first record whose serial matches, and only that record changes |
| Correlation.UnmatchedEventRecord | correlation.py:121-136 | an unmatched event goes to `device_name or "event-{ts}"`: a new record with one connection, first and last seen at its timestamp and its action, or else the existing record there is touched |
| Correlation.TouchSeen | correlation.py:109-116 | a touch adds one connection and the action; a non-empty timestamp raises `last_seen` to the larger and lowers `first_seen` to the smaller value, an absent one leaves both |
| Correlation.TouchKeepsOrder | correlation.py:110-115 | a touch keeps `first_seen <= last_seen` |
| Correlation.RegistryStoreOrdered | correlation.py:86-87 | every registry record starts with `first_seen == last_seen`, and so is ordered |
| Correlation.EventStepOrdered | correlation.py:105-136 | one event keeps every record ordered |
| Correlation.EventsStoreOrdered | correlation.py:94-136 | the event loop keeps every record ordered |
| Correlation.CorrelateSeenOrdered | correlation.py:58-140 | every correlated record has `first_seen <= last_seen` when both are set |
| Text.StrLessTotal | correlation.py:111-114 | two different timestamps always compare one way or the other |
| Analysis.Summarize | analysis.py:23-50 | one summary per record, in order, each copying the record's fields with the count under `total_connections` |
| Analysis.AnomalyScore | analysis.py:87-138 | the score is the six-term sum capped at 100 |
| Analysis.ComputeAnomalyScore | analysis.py:103-138 | the accumulated score equals `AnomalyScore`, lies in [0, 100] and is at least 25 without a serial |
| Analysis.TermBounds | analysis.py:105-136 | each term is at most its cap (25, 25, 20, 20, 15, 15) and zero exactly at or below its threshold |
| Analysis.AnomalyScoreBounds | analysis.py:87-138 | the score lies in [0, 100]; a missing serial adds exactly 25; the raw sum never exceeds 120 |
| Analysis.SummaryHasNoConnectionTerm | analysis.py:45 | a summary's connection term is zero, since the count is under `total_connections` and the score reads `connections` |
| Analysis.ScoreAll | analysis.py:403-421 | each summary paired with its anomaly score, in input order |
| Analysis.FlaggedIff | analysis.py:73-80 | a summary is flagged exactly when one of the three rules fires |
| Analysis.ReasonsOrder | analysis.py:69-78 | at most one reason per rule, so at most three, in rule order: the no-serial reason first, the frequency reason when over ten, the score reason last with the score's text |
| Analysis.DetectSuspicious | analysis.py:53-84 | the loop computes exactly `Findings` |
| Analysis.FindingsMembers | analysis.py:67-84 | a pair is a finding exactly when its summary is an input that a rule flags, with its reasons joined by `; ` |
| Analysis.FindingsInOrder | analysis.py:67-84 | the findings keep the input order |
| Analysis.DictFolders | analysis.py:232-239 | only dictionary entries are considered |
| Analysis.MaxDepth | analysis.py:231-235 | the maximum depth is that of some folder and at least every folder's, or 0 without folders |
| Analysis.SortBySizeDesc | analysis.py:238-242 | the sorted folders are a permutation of the input, by size descending |
| Analysis.SortBySizeStable | analysis.py:238-242 | the sort is stable: the folders of each size keep their input order |
| Analysis.Largest | analysis.py:238-242 | at most five folders, largest first, all from the input |
| Analysis.LargestAreLargest | analysis.py:238-242 | no folder left out of the five is larger than one listed |
| Analysis.AnalyzeFolderStructure | analysis.py:196-256 | counts all entries and takes the maximum depth; the largest folders are the (name, size) pairs of `Largest` of the dictionary entries; with a previous count it records that count and the folders added and deleted, without one all three are 0 |
| Analysis.FolderHistory | analysis.py:250-254 | against a previous count at most one of added and deleted is non-zero, and their difference is the change in count |
| Analysis.CountAbove | analysis.py:294-303 | the count of files above a threshold is at most the number of entries |
| Analysis.CountAboveMonotone | analysis.py:300-303 | a higher threshold never counts more, so high-confidence never exceeds recoverable |
| Analysis.AnalyzeDeletedFiles | analysis.py:259-313 | counts the entries, those above 70 and above 85 confidence, the total size and the timeline text |
| FirmwareValidator.CheckSignatures | extensions/firmware_validator.py:355-372 | a match carries the signature and its score; no match scores 0 with the no-signature message |
| FirmwareValidator.SignatureMatchIff | extensions/firmware_validator.py:355-366 | a signature matches exactly when the pair, compared as written, is a table key; its score is then between 0.7 and 1 |
| FirmwareValidator.CheckVendor | extensions/firmware_validator.py:374-388 | a legitimate vendor scores 0; a suspicious one reports its own id |
| FirmwareValidator.VendorSuspiciousIff | extensions/firmware_validator.py:374-382 | a vendor is suspicious exactly when its id is a table key, and then scores the table risk, between 0.6 and 0.8 |
| FirmwareValidator.CollectHits | extensions/firmware_validator.py:395-402 | the loop collects the matching patterns in table order and the sum of their scores |
| FirmwareValidator.CheckDeviceName | extensions/firmware_validator.py:390-417 | the name check equals `NameCheckOf` |
| FirmwareValidator.HitsIff | extensions/firmware_validator.py:395-401 | a hit is reported exactly for a pattern occurring in the name, ignoring case |
| FirmwareValidator.NameRisk | extensions/firmware_validator.py:404-417 | the name risk is 0 without hits and otherwise the capped mean of the hit scores, between 0.3 and 0.9 |
| FirmwareValidator.NameCheckIgnoresCase | extensions/firmware_validator.py:396 | the name check ignores the case of the name |
| FirmwareValidator.AnalyzeDescriptors | extensions/firmware_validator.py:419-433 | at most one anomaly, scoring 0.1 each |
| FirmwareValidator.UnusualProductIdIff | extensions/firmware_validator.py:425-428 | an anomaly exactly for vendor `0x0951` with product `0x1666` or `0x1667` |
| FirmwareValidator.DetectComboDevice | extensions/firmware_validator.py:435-464 | a detected combo lists two interfaces and scores 0.3; otherwise none and 0 |
| FirmwareValidator.ComboIff | extensions/firmware_validator.py:441-447 | a combo is detected exactly for (`0x0951`, `0x1666`) and (`0x0781`, `0x5580`) |
| FirmwareValidator.ComboAndSignature | extensions/firmware_validator.py:32-47 | of the combos only the Kingston pair is also a known signature |
| FirmwareValidator.RiskLevel | extensions/firmware_validator.py:202-215 | the level is one of the four levels |
| FirmwareValidator.AssessmentOf | extensions/firmware_validator.py:125-217 | the validation always returns an assessment |
| FirmwareValidator.AssignLevel | extensions/firmware_validator.py:202-215 | the level of the score and that level's recommendations |
| FirmwareValidator.NameStep | extensions/firmware_validator.py:173-179 | the name check runs only for a non-empty name and adds its score and message |
| FirmwareValidator.RunChecks | extensions/firmware_validator.py:156-196 | the five checks in turn give exactly the uncapped score and the findings of `ChecksOf` |
| FirmwareValidator.ValidateFirmware | extensions/firmware_validator.py:125-221 | the validation equals `AssessmentOf` |
| FirmwareValidator.ChecksScores | extensions/firmware_validator.py:156-196 | each check scores a positive amount exactly when it reports something |
| FirmwareValidator.AssessmentBounds | extensions/firmware_validator.py:199-215 | the score lies in [0, 1]; it is 0 exactly when nothing was found, and then the level is LOW |
| FirmwareValidator.SignatureOrVendorLevel | extensions/firmware_validator.py:159-215 | a known signature alone makes the device CRITICAL; a suspicious vendor alone makes it at least HIGH |
| FirmwareValidator.LevelThresholds | extensions/firmware_validator.py:202-215 | CRITICAL from 0.7, HIGH in [0.5, 0.7), MEDIUM in [0.3, 0.5), LOW below 0.3 |
| FirmwareValidator.RecommendationsDistinct | extensions/firmware_validator.py:202-215 | each level has its own recommendations |
| FirmwareValidator.RiskLevelMonotone | extensions/firmware_validator.py:202-215 | a higher score never gives a lower level |
| FirmwareValidator.ScanForBadusb | extensions/firmware_validator.py:318-349 | the scan equals the assessment with the forensic actions of its score |
| FirmwareValidator.ForensicActionsByLevel | extensions/firmware_validator.py:333-347 | forensic actions appear exactly at CRITICAL (five) and HIGH (four) |
| FirmwareValidator.DetectHiddenInterfaces | extensions/firmware_validator.py:223-269 | the report equals `HiddenReportOf` |
| FirmwareValidator.HiddenInterfacesCount | extensions/firmware_validator.py:235-265 | the count is the number of interfaces listed, at most three; the hidden keyboard appears exactly for a signature with `hidden_hid`, and three interfaces exactly for the Kingston pair |
| FirmwareValidator.CheckDeviceDescriptors | extensions/firmware_validator.py:271-316 | the report equals `DescriptorReportOf` |
| FirmwareValidator.DescriptorStatus | extensions/firmware_validator.py:282-312 | one anomaly per rule that fires, in rule order; the score is the sum of the weights; the status is `warning` exactly when there is an anomaly |
| FirmwareValidator.ProcessMessage | extensions/firmware_validator.py:71-115 | each known action goes to its handler with the message's data; any other action is an error naming it, and only then is the status `error` |
| OnlineLookup.GetProduct | enhanced_online_lookup.py:199-220 | the product is the table entry of the lower-cased pair |
| OnlineLookup.ProductKeysLower | enhanced_online_lookup.py:202-217 | every key of the product table is lower case |
| OnlineLookup.GetVendorIgnoresCase | enhanced_online_lookup.py:196 | the vendor lookup ignores the case of the id |
| OnlineLookup.GetVendorUpperCase | enhanced_online_lookup.py:196 | example: `046D` finds Logitech of Switzerland |
| OnlineLookup.GetProductIgnoresCase | enhanced_online_lookup.py:219-220 | the product lookup ignores the case of both ids |
| OnlineLookup.GetProductFinds | enhanced_online_lookup.py:219-220 | any spelling of a table pair finds that pair's entry |
| OnlineLookup.ProductClassesKnown | enhanced_online_lookup.py:202-217 | no product of the table has the class `Unknown` |
| OnlineLookup.GetDeviceSecurityInfo | enhanced_online_lookup.py:223-249 | the record built equals `SecurityInfoOf` |
| OnlineLookup.SecurityRating | enhanced_online_lookup.py:241-247 | rated Medium with its vulnerability and two recommendations exactly for the lowered pair (`0781`, `5567`), otherwise Good with the two default recommendations; known vulnerabilities and recalls stay empty |
| OnlineLookup.VulnerableIsKnownProduct | enhanced_online_lookup.py:233-238 | the one vulnerable device is SanDisk's Cruzer Blade |
| OnlineLookup.FirstDomainIff | enhanced_online_lookup.py:97-102 | a domain is found exactly when some key occurs in the lowered vendor name, and it is the first such key's |
| OnlineLookup.ManufacturerSiteFirstKey | enhanced_online_lookup.py:76-102 | the page is `https://www.{domain}/products` of the first key in the vendor name, or none |
| OnlineLookup.ManufacturerSiteIgnoresCase | enhanced_online_lookup.py:97 | the guess ignores the case of the vendor name |
| OnlineLookup.ImageUrls | enhanced_online_lookup.py:62-73 | always exactly three image URLs, none containing a space |
| OnlineLookup.QuoteHasNoSpace | enhanced_online_lookup.py:68 | `urllib.parse.quote` leaves no space |
| OnlineLookup.SearchWebForDevice | enhanced_online_lookup.py:25-59 | at most five image URLs |
| OnlineLookup.WebSearchResult | enhanced_online_lookup.py:44-52 | the cut at five never applies: the three image URLs of the query, and the manufacturer page as product page |
| OnlineLookup.UsbIdsFields | enhanced_online_lookup.py:105-132 | vendor fields are set exactly for a table vendor, product fields exactly for a given pid of a table product; subclass and protocol stay unset |
| OnlineLookup.GetComprehensiveDeviceInfo | enhanced_online_lookup.py:252-304 | the record built equals `DeviceInfoOf` |
| OnlineLookup.DeviceInfoFallbacks | enhanced_online_lookup.py:267-297 | the manufacturer is the vendor's name or `Unknown`; the product name is the product's, else the device name, else `Unknown Device`; the class is `Unknown` exactly without a product |
| OnlineLookup.DeviceInfoParts | enhanced_online_lookup.py:267-297 | the stored parts are the lookups', the web search and security record of the fall-back names |
| OnlineLookup.CruzerBladeScenario | enhanced_online_lookup.py:267-297 | a Cruzer Blade pair in any case is reported as SanDisk's Cruzer Blade, Mass Storage, rated Medium |

## Left out

- The alternative `tracerpt` parser of `urb_capture.py` is not modelled, because its XML result is never turned into URBs. The model returns no URBs on that path, as the code does.
- Processes, files, clocks, threads and the lock are parameters: a command's outcome, whether a file exists, its size, the current time and the library's event stream. Each runs as one sequential step. The timer that stops a capture is recorded, not run.
- Timestamps of events and of `datetime.now()` are inputs, or left out. This covers `fetched_time`, the validator's `timestamp` fields and the reports directory read from settings.
- Logging is left out everywhere.
- Python floats are exact reals in the model, so rounding is not modelled. `round(size / 1024**2, 2)` in `analyze_folder_structure` and `analyze_deleted_files` is kept as the raw integer sizes.
- `str.lower()` is ASCII-only in the model. Unicode case mapping is not modelled.
- `DeviceRecord` keeps only the fields `correlate` sets. The optional storage, folder, file, deleted-file, online and scan fields keep their empty defaults and are not modelled.
- Records are values. Python's aliasing between a dictionary entry and the list `records.values()` returns is not modelled.
- `analyze_storage_patterns`, `analyze_device_reputation` and `enrich_summary` in `analysis.py` are not modelled, because no core operation depends on them.
- UiDedupe.HidsKey: the model does not prove that the `hid:` key is independent of the order of the hardware ids. It does sort them, as the code does.
- Anomaly scores are rendered in the reason text through a supplied text field, not through Python's float `repr`.
- Firmware validator inputs are typed: an id is a string or absent. Non-string JSON values, a non-dictionary `data` and a `null` action are not modelled, nor are the `TypeError` paths they would reach through `_error`.
- The validator's messages are a datatype that `Render` turns into the source's text.
- `search_queries` in `search_web_for_device` is built and never used, so it is not modelled.
- The `try`/`except` blocks of `enhanced_online_lookup.py` guard code that cannot raise on string inputs, so they are not modelled.
- The `country` entry of `query_usb_ids_database` is an `Option`, since the code adds the key only for a known vendor. The empty dictionaries of `get_comprehensive_device_info` are `None`.
- OnlineLookup.GetVendor: the model does not prove that every key of the 53-entry vendor table is lower case, because that proof is too large for the solver. `GetVendorUpperCase` shows it for one key.
- Event property values are integers, strings or bytes (`UrbDecoder.FieldValue`). A `None` or float value is not modelled.
- Removing the temporary trace file in the `finally` of the real-time worker is file I/O and is not modelled.
- Devices enumerated through WMI, the mock device lists, the registry walk and the event-log reader model the platform, not the analysis, so they are not modelled. Their results are the inputs of the modelled operations.
