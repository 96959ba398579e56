/** The URB capture engine: parsing a trace file through an event observer, the ETW
    trace sessions driven through `logman`, and the real-time worker that re-parses
    a growing trace file and hands each new URB to a callback once.

    The process adapter is modelled by its results: each method that runs a command
    takes the `ProcResult` it gets and records the argument vector it issues in
    `commands`. The trace file is modelled by what the trace-reading library makes
    of it (`TraceFile`). */
module Capture {
  import opened Text
  import opened UrbDecoder
  import opened Dedup

  const SessionName: string := "USB-Forensics-URB-Trace"

  const DefaultProvider: string := "Microsoft-Windows-USB-USBPORT"

  /** The provider list used when none is given. */
  const DefaultProviders: seq<string> := [
    DefaultProvider,
    "Microsoft-Windows-USB-USBXHCI",
    "Microsoft-Windows-USB-UCX"
  ]

  /** What running one external command gives: an exit code, a timeout, or a
      missing executable. */
  datatype ProcResult = Exited(code: int) | TimedOut | NotFound

  const StopCommand: seq<string> := ["logman", "stop", SessionName, "-ets"]

  const DeleteCommand: seq<string> := ["logman", "delete", SessionName, "-ets"]

  /** `logman create trace` attaches exactly one provider. */
  function CreateCommand(provider: string, output: string): seq<string> {
    ["logman", "create", "trace", SessionName, "-p", provider, "-o", output, "-ets"]
  }

  /** The provider a session is created with: the first one requested, or USBPORT
      when the list is empty. */
  function SessionProvider(providers: seq<string>): (r: string)
    ensures r in providers || (providers == [] && r == DefaultProvider)
  {
    if providers != [] then providers[0] else DefaultProvider
  }

  /** Of the requested providers only the first reaches the command line. */
  lemma SessionUsesOnlyFirstProvider(providers: seq<string>, output: string, i: nat)
    requires i < |providers|
    requires providers[i] !in {"logman", "create", "trace", SessionName, "-p", "-o", "-ets", output}
    ensures (providers[i] in CreateCommand(SessionProvider(providers), output))
              <==> (providers[i] == providers[0])
  {
  }

  /** What the trace-reading library makes of the trace path: nothing there, or
      the event stream it reads, and whether reading it raises at some point. */
  datatype TraceFile = Absent | Present(events: seq<EtlEvent>, readerFails: bool)

  /** `parse_etl_file`: the decoded URBs, or none at all when the file is missing,
      when the library is not installed (the fall-back path yields no URBs), or when
      the reader raises (what was collected so far is discarded). */
  function ParseResult(file: TraceFile, parserInstalled: bool): (r: seq<UrbTransfer>)
    ensures r != [] ==> file.Present? && parserInstalled && !file.readerFails
    ensures file.Present? ==> |r| <= |file.events|
    ensures forall u :: u in r ==> exists e :: e in file.events && EventUrb(e) == Some(u)
  {
    if file.Absent? || !parserInstalled || file.readerFails then []
    else
      DecodeEventsOrigin(file.events);
      DecodeEvents(file.events)
  }

  /** `URBParserObserver`: receives the events of one trace in order and collects
      the URBs it can decode. */
  class UrbParserObserver {
    var urbList: seq<UrbTransfer>

    constructor()
      ensures urbList == []
    {
      urbList := [];
    }

    /** `on_event_record`. */
    method OnEventRecord(e: EtlEvent)
      modifies this
      ensures urbList == old(urbList) + OptionSeq(EventUrb(e))
    {
      if !IsUsbProvider(e.providerName) {
        return;
      }
      var data: EventData;
      match e.etw {
        case ParseRaises => return;
        case NoParseMethod => data := map[];
        case Parsed(d) => data := d;
      }
      var urb := ExtractUrb(e, data);
      if urb.Some? {
        urbList := urbList + [urb.value];
      }
    }
  }

  /** The string a URB is recognised by across re-parses: timestamp, device,
      endpoint and transfer length, joined by `|`. */
  function UrbId(u: UrbTransfer): string {
    u.timestamp + "|" + u.deviceId + "|" + Decimal(u.endpointAddress) + "|" + Render(u.transferBufferLength)
  }

  /** `str` of an event-data value. */
  function Render(v: FieldValue): string {
    match v
    case IntVal(i) => Decimal(i)
    case StrVal(s) => s
    case BytesVal(b) => BytesRepr(b)
  }

  /** `URBCapture`. The platform, privilege, tool and library checks are fixed when
      the object is made. */
  class UrbCapture {
    const isWindows: bool
    const isAdmin: bool
    const logmanAvailable: bool
    const parserInstalled: bool
    var traceFile: Option<string>
    var realtimeRunning: bool
    /** A truthy callback is registered. */
    var callbackSet: bool
    /** The provider list handed to the last worker started. */
    var workerProviders: Option<seq<string>>
    /** Every command issued, in order. */
    var commands: seq<seq<string>>
    /** The delays of the stop timers scheduled. */
    var scheduledStops: seq<int>

    constructor(isWindows: bool, isAdmin: bool, logmanAvailable: bool, parserInstalled: bool)
      ensures this.isWindows == isWindows && this.isAdmin == isAdmin
      ensures this.logmanAvailable == logmanAvailable && this.parserInstalled == parserInstalled
      ensures traceFile == None && !realtimeRunning && !callbackSet && workerProviders == None
      ensures commands == [] && scheduledStops == []
    {
      this.isWindows := isWindows;
      this.isAdmin := isAdmin;
      this.logmanAvailable := logmanAvailable;
      this.parserInstalled := parserInstalled;
      traceFile := None;
      realtimeRunning := false;
      callbackSet := false;
      workerProviders := None;
      commands := [];
      scheduledStops := [];
    }

    /** `is_available`. */
    predicate IsAvailable() {
      isWindows && isAdmin && logmanAvailable
    }

    /** `parse_etl_file`: the observer is fed every event of the stream in order. */
    method ParseEtlFile(file: TraceFile) returns (urbs: seq<UrbTransfer>)
      ensures urbs == ParseResult(file, parserInstalled)
    {
      if file.Absent? {
        return [];
      }
      if !parserInstalled {
        return [];
      }
      var observer := new UrbParserObserver();
      var events := file.events;
      var i := 0;
      while i < |events|
        invariant 0 <= i <= |events|
        invariant observer.urbList == DecodeEvents(events[..i])
      {
        DecodeEventsStep(events, i);
        observer.OnEventRecord(events[i]);
        i := i + 1;
      }
      assert events[..i] == events;
      if file.readerFails {
        return [];
      }
      urbs := observer.urbList;
    }

    /** `start_etw_capture`. An absent or empty output path is replaced by the
        default one; `makeDirsOk` says whether creating its directory succeeds. The
        preliminary stop of a leftover session is issued and its outcome ignored. */
    method StartEtwCapture(durationSeconds: int, outputFile: Option<string>, defaultOutput: string,
                           makeDirsOk: bool, createResult: ProcResult)
      returns (path: Option<string>)
      modifies this
      ensures !IsAvailable() || !makeDirsOk ==> path == None && unchanged(this)
      ensures IsAvailable() && makeDirsOk ==>
        var out := if outputFile == None || outputFile == Some("") then defaultOutput else outputFile.value;
        && traceFile == Some(out)
        && path == (if createResult == Exited(0) then Some(out) else None)
        && commands == old(commands) + [StopCommand, CreateCommand(DefaultProvider, out)]
                       + (if createResult.Exited? && createResult.code != 0 then [DeleteCommand] else [])
        && scheduledStops == old(scheduledStops)
                             + (if createResult == Exited(0) && durationSeconds > 0 then [durationSeconds] else [])
        && realtimeRunning == old(realtimeRunning) && callbackSet == old(callbackSet)
        && workerProviders == old(workerProviders)
    {
      if !IsAvailable() {
        return None;
      }
      var out := if outputFile == None || outputFile == Some("") then defaultOutput else outputFile.value;
      if !makeDirsOk {
        return None;
      }
      traceFile := Some(out);
      commands := commands + [StopCommand];
      var providers := DefaultProviders;
      commands := commands + [CreateCommand(providers[0], out)];
      match createResult {
        case TimedOut => return None;
        case NotFound => return None;
        case Exited(code) =>
          if code != 0 {
            commands := commands + [DeleteCommand];
            return None;
          }
      }
      if durationSeconds > 0 {
        scheduledStops := scheduledStops + [durationSeconds];
      }
      path := Some(out);
    }

    /** `stop_etw_capture`: true exactly when `logman stop` exits with 0. */
    method StopEtwCapture(result: ProcResult) returns (ok: bool)
      modifies this
      ensures ok == (result == Exited(0))
      ensures commands == old(commands) + [StopCommand]
      ensures traceFile == old(traceFile) && realtimeRunning == old(realtimeRunning)
      ensures callbackSet == old(callbackSet) && workerProviders == old(workerProviders)
      ensures scheduledStops == old(scheduledStops)
    {
      commands := commands + [StopCommand];
      ok := result == Exited(0);
    }

    /** `start_realtime_capture`: refused when capture is unavailable or a worker is
        already running; otherwise registers the callback, sets the running flag and
        hands the worker the providers, the default list when none are given. */
    method StartRealtimeCapture(callback: bool, providers: Option<seq<string>>) returns (ok: bool)
      modifies this
      ensures ok == (IsAvailable() && !old(realtimeRunning))
      ensures !ok ==> unchanged(this)
      ensures ok ==> (realtimeRunning && callbackSet == callback
        && workerProviders == Some(if providers == None || providers == Some([]) then DefaultProviders
                                   else providers.value)
        && traceFile == old(traceFile) && commands == old(commands)
        && scheduledStops == old(scheduledStops))
    {
      if !IsAvailable() {
        return false;
      }
      if realtimeRunning {
        return false;
      }
      callbackSet := callback;
      realtimeRunning := true;
      var chosen := if providers == None || providers == Some([]) then DefaultProviders else providers.value;
      workerProviders := Some(chosen);
      ok := true;
    }

    /** `stop_realtime_capture`: false when nothing runs; otherwise clears the flag
        the worker loop tests. */
    method StopRealtimeCapture() returns (ok: bool)
      modifies this
      ensures ok == old(realtimeRunning)
      ensures !realtimeRunning
      ensures traceFile == old(traceFile) && callbackSet == old(callbackSet)
      ensures workerProviders == old(workerProviders) && commands == old(commands)
      ensures scheduledStops == old(scheduledStops)
    {
      if !realtimeRunning {
        return false;
      }
      realtimeRunning := false;
      ok := true;
    }

    /** `_start_etw_session`: stop and delete any leftover session, ignoring the
        outcome, then create one with the first provider. */
    method StartEtwSession(outputFile: string, providers: seq<string>, createResult: ProcResult)
      returns (ok: bool)
      modifies this
      ensures ok == (createResult == Exited(0))
      ensures commands == old(commands)
                          + [StopCommand, DeleteCommand, CreateCommand(SessionProvider(providers), outputFile)]
      ensures traceFile == old(traceFile) && realtimeRunning == old(realtimeRunning)
      ensures callbackSet == old(callbackSet) && workerProviders == old(workerProviders)
      ensures scheduledStops == old(scheduledStops)
    {
      commands := commands + [StopCommand];
      commands := commands + [DeleteCommand];
      var provider := if providers != [] then providers[0] else DefaultProvider;
      commands := commands + [CreateCommand(provider, outputFile)];
      ok := createResult == Exited(0);
    }

    /** `_stop_etw_session`. */
    method StopEtwSession(result: ProcResult) returns (ok: bool)
      modifies this
      ensures ok == (result == Exited(0))
      ensures commands == old(commands) + [StopCommand]
      ensures traceFile == old(traceFile) && realtimeRunning == old(realtimeRunning)
      ensures callbackSet == old(callbackSet) && workerProviders == old(workerProviders)
      ensures scheduledStops == old(scheduledStops)
    {
      commands := commands + [StopCommand];
      ok := result == Exited(0);
    }

    /** A raising callback leaves the polling loop: the `finally` stops the session
        and the `except` clears the running flag. */
    method AbortWorker(stopResult: ProcResult)
      modifies this
      ensures commands == old(commands) + [StopCommand]
      ensures !realtimeRunning
      ensures traceFile == old(traceFile) && callbackSet == old(callbackSet)
      ensures workerProviders == old(workerProviders) && scheduledStops == old(scheduledStops)
    {
      FinishWorker(stopResult);
      realtimeRunning := false;
    }

    /** The start of `_realtime_worker`: when the directory of the temporary trace
        cannot be made the worker fails and clears the running flag; otherwise it
        starts the session (whatever its outcome) and its polling state. */
    method StartWorker(tempTrace: string, providers: seq<string>, makeDirsOk: bool,
                       createResult: ProcResult, startTime: real)
      returns (w: RealtimeWorker?)
      modifies this
      ensures !makeDirsOk ==> w == null && !realtimeRunning && commands == old(commands)
      ensures makeDirsOk ==> (w != null && fresh(w) && w.capture == this && w.tempTrace == tempTrace
        && w.lastSize == 0 && w.lastParseTime == startTime
        && w.processedUrbIds == {} && w.delivered == [] && w.Valid()
        && realtimeRunning == old(realtimeRunning)
        && commands == old(commands)
                       + [StopCommand, DeleteCommand, CreateCommand(SessionProvider(providers), tempTrace)])
      ensures traceFile == old(traceFile) && callbackSet == old(callbackSet)
      ensures workerProviders == old(workerProviders) && scheduledStops == old(scheduledStops)
    {
      if !makeDirsOk {
        realtimeRunning := false;
        return null;
      }
      var _ := StartEtwSession(tempTrace, providers, createResult);
      w := new RealtimeWorker(this, tempTrace, startTime);
    }

    /** The `finally` of `_realtime_worker`: the session is stopped once the loop
        ends. */
    method FinishWorker(stopResult: ProcResult)
      modifies this
      ensures commands == old(commands) + [StopCommand]
      ensures traceFile == old(traceFile) && realtimeRunning == old(realtimeRunning)
      ensures callbackSet == old(callbackSet) && workerProviders == old(workerProviders)
      ensures scheduledStops == old(scheduledStops)
    {
      var _ := StopEtwSession(stopResult);
    }
  }

  /** The polling state of `_realtime_worker`, with the URBs it has handed to the
      callback so far. */
  class RealtimeWorker {
    const capture: UrbCapture
    const tempTrace: string
    var lastSize: int
    var lastParseTime: real
    var processedUrbIds: set<string>
    var delivered: seq<UrbTransfer>

    /** Each URB identity reaches the callback at most once, and only identities
        already marked processed have. */
    ghost predicate Valid()
      reads this
    {
      DistinctKeys(delivered, UrbId) && KeySet(delivered, UrbId) <= processedUrbIds
    }

    constructor(capture: UrbCapture, tempTrace: string, startTime: real)
      ensures this.capture == capture && this.tempTrace == tempTrace
      ensures lastSize == 0 && lastParseTime == startTime
      ensures processedUrbIds == {} && delivered == []
      ensures Valid()
    {
      this.capture := capture;
      this.tempTrace := tempTrace;
      lastSize := 0;
      lastParseTime := startTime;
      processedUrbIds := {};
      delivered := [];
    }

    /** One turn of the polling loop after its sleep. The file is re-parsed only
        when it exists, has grown since the last parse and the last parse is more
        than five seconds old; then every URB whose identity is new is marked and,
        when a callback is registered, delivered, in parse order. `raises` says on
        which URBs the callback raises: the first such delivery ends the turn, with
        the URBs before it and that one marked and delivered and the size and time
        of the last parse left as they were, and the worker then ends through
        `UrbCapture.AbortWorker`. */
    method Poll(fileExists: bool, currentSize: int, currentTime: real, contents: TraceFile,
                raises: UrbTransfer -> bool)
      returns (parsed: bool, raised: bool)
      requires Valid()
      modifies this
      ensures Valid()
      ensures parsed == (fileExists && currentSize > old(lastSize) && currentTime - old(lastParseTime) > 5.0)
      ensures !parsed ==> (!raised && lastSize == old(lastSize) && lastParseTime == old(lastParseTime)
                && processedUrbIds == old(processedUrbIds) && delivered == old(delivered))
      ensures parsed ==>
        var urbs := ParseResult(contents, capture.parserInstalled);
        var n := StopAt(urbs, UrbId, old(processedUrbIds), capture.callbackSet, raises);
        && raised == (capture.callbackSet && FirstFailure(urbs, UrbId, old(processedUrbIds), raises) < |urbs|)
        && processedUrbIds == old(processedUrbIds) + KeySet(urbs[..n], UrbId)
        && delivered == old(delivered)
                        + (if capture.callbackSet then KeepFirst(urbs[..n], UrbId, old(processedUrbIds)) else [])
        && (!raised ==> n == |urbs| && lastSize == currentSize && lastParseTime == currentTime)
        && (raised ==> lastSize == old(lastSize) && lastParseTime == old(lastParseTime)
                       && delivered != [] && raises(delivered[|delivered| - 1]))
    {
      parsed, raised := false, false;
      if !fileExists || currentSize <= lastSize || currentTime - lastParseTime <= 5.0 {
        return;
      }
      parsed := true;
      var urbs := capture.ParseEtlFile(contents);
      ghost var n := StopAt(urbs, UrbId, processedUrbIds, capture.callbackSet, raises);
      AppendKeptStaysDistinct(delivered, urbs[..n], UrbId, processedUrbIds, capture.callbackSet);
      var processed, calls;
      processed, calls, raised := MarkNew(urbs, UrbId, processedUrbIds, capture.callbackSet, raises);
      processedUrbIds, delivered := processed, delivered + calls;
      if !raised {
        lastParseTime := currentTime;
        lastSize := currentSize;
      }
    }
  }
}
