/** The entry scanner of app/routes/scanner.tsx: the handler fed with every
    decoded QR payload, the outcome of each `scanQR` call, the five-second
    auto-clear timer and the "clear" button, over the page's scan state and
    its bounded history of recent scans. The camera is left out; the network
    reply, the URL parser and the clock are parameters. */
module Scanner {
  import opened Wrappers
  import opened Api
  import QrPayload

  /** One row of the scan history, newest first. */
  datatype HistoryEntry = HistoryEntry(timestamp: int, result: ScanResult, codeId: string)

  const HistoryCap: nat := 10

  /** `[entry, ...prev.slice(0, 9)]`: the new entry in front of at most nine
      older ones. */
  function Remember(history: seq<HistoryEntry>, entry: HistoryEntry): (h: seq<HistoryEntry>)
    ensures |h| == if |history| < HistoryCap then |history| + 1 else HistoryCap
    ensures h[0] == entry && h[1..] == history[..|h| - 1]
  {
    [entry] + history[..if |history| < 9 then |history| else 9]
  }

  /** The history after remembering `entries` one after another, oldest first. */
  function RememberAll(history: seq<HistoryEntry>, entries: seq<HistoryEntry>): seq<HistoryEntry>
    decreases |entries|
  {
    if entries == [] then history
    else Remember(RememberAll(history, entries[..|entries| - 1]), entries[|entries| - 1])
  }

  function Reversed<T>(s: seq<T>): (r: seq<T>)
    ensures |r| == |s| && forall i :: 0 <= i < |s| ==> r[i] == s[|s| - 1 - i]
  {
    if s == [] then [] else [s[|s| - 1]] + Reversed(s[..|s| - 1])
  }

  function Min(a: int, b: int): int {
    if a < b then a else b
  }

  /** After any run of successful scans the history holds the ten most recent
      entries, newest first (older history entries fill any remaining room). */
  lemma {:induction false} RememberAllKeepsNewest(history: seq<HistoryEntry>, entries: seq<HistoryEntry>)
    requires |history| <= HistoryCap
    ensures RememberAll(history, entries) == (Reversed(entries) + history)[..Min(HistoryCap, |entries| + |history|)]
    decreases |entries|
  {
    if entries != [] {
      var init, e := entries[..|entries| - 1], entries[|entries| - 1];
      RememberAllKeepsNewest(history, init);
      var prev := RememberAll(history, init);
      var all := Reversed(entries) + history;
      assert Reversed(entries) == [e] + Reversed(init);
      assert all == [e] + (Reversed(init) + history);
      var h := Remember(prev, e);
      assert |h| == Min(HistoryCap, |entries| + |history|);
      forall i | 0 <= i < |h| ensures h[i] == all[i] {
        if i > 0 {
          assert h[i] == prev[i - 1];
        }
      }
    }
  }

  /** Fifteen successful scans on an empty history leave exactly the last
      ten, newest first. */
  lemma FifteenScansKeepLastTen(entries: seq<HistoryEntry>)
    requires |entries| == 15
    ensures |RememberAll([], entries)| == 10
    ensures forall i :: 0 <= i < 10 ==> RememberAll([], entries)[i] == entries[14 - i]
  {
    RememberAllKeepsNewest([], entries);
  }

  /** The generic text shown when a `scanQR` call rejects. */
  const ScanFailed: string := "Failed to verify QR code"

  /** A `scanQR(codeId)` call made through the gateway of a build whose
      `VITE_API_URL` is `env`: whatever the backend answers, a failure is
      never an `ApiError`, so the scanner shows the generic text and never a
      message from the server. */
  method VerifyThroughGateway(env: Option<string>, codeId: string, attempts: seq<Attempt>)
    returns (shown: Option<string>, sent: seq<Request>)
    requires |attempts| == 3
    ensures shown.Some? ==> shown.value == "Failed to verify QR code"
    ensures shown.None? <==> FirstAccepted(attempts).Some? && attempts[FirstAccepted(attempts).value].response.body.Some?
    ensures 1 <= |sent| <= 3 && forall i :: 0 <= i < |sent| ==> sent[i].url == Candidates(PrimaryUrl(env))[i] + "/api/scan"
    ensures sent[0].url == PrimaryUrl(env) + "/api/scan"
  {
    var call := ScanQR(codeId);
    var result;
    result, sent := ApiRequest(PrimaryUrl(env), call.endpoint, call.options, attempts);
    shown := if result.Err? then Some(ErrorText(result.error, ScanFailed)) else None;
  }

  class ScannerPage {
    var isScanning: bool
    var lastScanResult: Option<ScanResult>
    var lastScannedCode: Option<string>
    var error: Option<string>
    var history: seq<HistoryEntry>
    /** Codes whose `scanQR` call is still awaited by a `handleScan` invocation. */
    var inFlight: seq<string>
    /** Auto-clear timers scheduled and not yet fired. */
    var pendingClears: nat

    /** The page's invariant: the history is bounded; while a call is
        awaited nothing else is displayed; a displayed result is always the
        newest history entry and comes with its code. */
    ghost predicate Valid()
      reads this
    {
      |history| <= HistoryCap &&
      (isScanning ==> inFlight != [] && lastScanResult.None? && lastScannedCode.None? && error.None?) &&
      (lastScanResult.Some? ==>
         error.None? && lastScannedCode.Some? && history != [] &&
         history[0].result == lastScanResult.value && history[0].codeId == lastScannedCode.value)
    }

    constructor ()
      ensures Valid()
      ensures !isScanning && lastScanResult.None? && lastScannedCode.None? && error.None?
      ensures history == [] && inFlight == [] && pendingClears == 0
    {
      isScanning := false;
      lastScanResult := None;
      lastScannedCode := None;
      error := None;
      history := [];
      inFlight := [];
      pendingClears := 0;
    }

    /** `handleScan(data)` up to its `await`. `issued` is the code passed to
        `scanQR`, if any. */
    method HandleScan(data: string, parsed: QrPayload.UrlParse) returns (issued: Option<string>)
      requires Valid()
      modifies this
      ensures Valid()
      ensures history == old(history) && pendingClears == old(pendingClears)
      ensures old(isScanning) ==> issued.None? && unchanged(this)
      ensures !old(isScanning) ==>
        var code := QrPayload.ExtractCodeFromQRData(data, parsed);
        if code.None? then
          issued.None? && !isScanning && error == Some("Invalid QR code format") &&
          lastScanResult.None? && lastScannedCode.None? && inFlight == old(inFlight)
        else if old(lastScannedCode) == code then
          issued.None? && unchanged(this)
        else
          issued == code && isScanning && error.None? &&
          lastScanResult.None? && lastScannedCode.None? && inFlight == old(inFlight) + [code.value]
    {
      issued := None;
      if isScanning {
        return;
      }
      var codeId := QrPayload.ExtractCodeFromQRData(data, parsed);
      if codeId.None? {
        isScanning, lastScanResult, lastScannedCode, error := false, None, None, Some("Invalid QR code format");
        return;
      }
      if lastScannedCode == codeId {
        return;
      }
      isScanning, lastScanResult, lastScannedCode, error := true, None, None, None;
      inFlight := inFlight + [codeId.value];
      issued := codeId;
    }

    /** The awaited `scanQR` call for `inFlight[k]` settles with `reply` at
        time `now`. A reply of either status is displayed and remembered; a
        rejection shows an error and keeps the code as the duplicate marker. */
    method ScanSettled(k: nat, reply: Result<ScanResult, Exc>, now: int)
      requires Valid() && k < |inFlight|
      modifies this
      ensures Valid()
      ensures inFlight == old(inFlight[..k] + inFlight[k + 1..])
      ensures !isScanning && lastScannedCode == Some(old(inFlight[k]))
      ensures reply.Ok? ==>
        lastScanResult == Some(reply.value) && error.None? &&
        history == Remember(old(history), HistoryEntry(now, reply.value, old(inFlight[k]))) &&
        pendingClears == old(pendingClears) + 1
      ensures reply.Err? ==>
        lastScanResult.None? && error == Some(ErrorText(reply.error, ScanFailed)) &&
        history == old(history) && pendingClears == old(pendingClears)
    {
      var codeId := inFlight[k];
      inFlight := inFlight[..k] + inFlight[k + 1..];
      match reply {
        case Ok(result) =>
          isScanning, lastScanResult, lastScannedCode, error := false, Some(result), Some(codeId), None;
          history := Remember(history, HistoryEntry(now, result, codeId));
          pendingClears := pendingClears + 1;
        case Err(e) =>
          isScanning, lastScanResult, lastScannedCode, error := false, None, Some(codeId), Some(ErrorText(e, ScanFailed));
      }
    }

    /** A five-second auto-clear timer fires: only the displayed result and the
        duplicate marker go. */
    method AutoClearFired()
      requires Valid() && pendingClears > 0
      modifies this
      ensures Valid()
      ensures pendingClears == old(pendingClears) - 1
      ensures lastScanResult.None? && lastScannedCode.None?
      ensures isScanning == old(isScanning) && error == old(error)
      ensures history == old(history) && inFlight == old(inFlight)
    {
      lastScanResult, lastScannedCode := None, None;
      pendingClears := pendingClears - 1;
    }

    /** `clearResults`: back to the initial scan state with an empty history.
        Calls still awaited and timers still scheduled are not cancelled. */
    method ClearResults()
      requires Valid()
      modifies this
      ensures Valid()
      ensures !isScanning && lastScanResult.None? && lastScannedCode.None? && error.None?
      ensures history == []
      ensures inFlight == old(inFlight) && pendingClears == old(pendingClears)
    {
      isScanning, lastScanResult, lastScannedCode, error := false, None, None, None;
      history := [];
    }
  }

  /** Duplicate suppression: the same payload decoded
      twice around a successful verification makes exactly one `scanQR` call,
      and a payload that does not resolve makes none. */
  method ScanSameCodeTwice(data: string, parsed: QrPayload.UrlParse, result: ScanResult, now: int)
    returns (first: Option<string>, second: Option<string>)
    ensures first == QrPayload.ExtractCodeFromQRData(data, parsed)
    ensures second.None?
  {
    var page := new ScannerPage();
    first := page.HandleScan(data, parsed);
    if first.Some? {
      page.ScanSettled(0, Ok(result), now);
    }
    second := page.HandleScan(data, parsed);
  }

  function CallCount(issued: Option<string>): nat {
    if issued.Some? then 1 else 0
  }

  /** Frames decoded while a verification is awaited are dropped whatever
      they hold, so one call is outstanding however many frames arrive. */
  method FramesDuringVerificationDropped(data: string, parsed: QrPayload.UrlParse,
                                         frames: seq<(string, QrPayload.UrlParse)>)
    returns (calls: nat)
    requires QrPayload.ExtractCodeFromQRData(data, parsed).Some?
    ensures calls == 1
  {
    var page := new ScannerPage();
    var first := page.HandleScan(data, parsed);
    calls := CallCount(first);
    var i := 0;
    while i < |frames|
      invariant 0 <= i <= |frames|
      invariant page.Valid() && page.isScanning
      invariant calls == 1
    {
      var again := page.HandleScan(frames[i].0, frames[i].1);
      calls := calls + CallCount(again);
      i := i + 1;
    }
  }
}
