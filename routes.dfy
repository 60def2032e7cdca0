/** The POST handlers of netiV3/app/routes.py: required-field checks and the
    translation of an adapter's result into a `(json, status)` response, plus the
    language lookup run before every request. */
module Routes {
  import opened Wrappers
  import opened Text
  import opened Json
  import opened Process
  import PortScan
  import Device
  import Domain

  /** `request.json`: the body's fields, or the exception reading it raised (its
      `str(e)`), e.g. a body that is not a JSON object. */
  datatype Request = Body(fields: map<string, string>) | Unreadable(error: string)

  /** A `jsonify(...)` response with its status code, or an exception that escapes
      the handler and is left to the web framework. */
  datatype Response = Response(body: map<string, Value>, status: nat) | Uncaught(error: string)

  /** `data.get(key)` */
  function Get(fields: map<string, string>, key: string): (v: Option<string>)
    ensures v.Some? <==> key in fields
    ensures v.Some? ==> v.value == fields[key]
  {
    if key in fields then Some(fields[key]) else None
  }

  /** Python truthiness of a string that may be `None`: `None` and `''` are falsy,
      every other string is truthy. */
  function Truthy(v: Option<string>): (b: bool)
    ensures v.None? ==> !b
    ensures v.Some? ==> (b <==> |v.value| > 0)
  {
    v.Some? && v.value != ""
  }

  /** `jsonify({'error': message}), status` */
  function ErrorResponse(message: string, status: nat): (r: Response)
    ensures r.Response? && r.body.Keys == {"error"} && r.body["error"] == Str(message)
    ensures r.status == status
  {
    Response(map["error" := Str(message)], status)
  }

  /** `if output['stderr']: error else result`: a present but empty stderr counts as
      no error, and the (possibly missing) stdout is returned instead. */
  function EnvelopeResponse(e: Envelope): (r: Response)
    ensures r.Response? && r.status == 200
    ensures Truthy(e.stderr) ==> r.body == map["error" := Str(e.stderr.value)]
    ensures !Truthy(e.stderr) ==> r.body == map["result" := OfOption(e.stdout)]
  {
    if Truthy(e.stderr) then ErrorResponse(e.stderr.value, 200)
    else Response(map["result" := OfOption(e.stdout)], 200)
  }

  /** What a probe route answers for each way its command can end. A failing
      command whose output is only whitespace is reported as a successful result of
      `null`. */
  lemma ProcessOutcomeResponse(o: ProcessOutcome)
    ensures o.Exited? && o.code == 0 ==>
              EnvelopeResponse(RunCommand(o)) == Response(map["result" := Str(o.out)], 200)
    ensures o.Exited? && o.code != 0 && !AllSpace(o.out + "\n" + o.err) ==>
              EnvelopeResponse(RunCommand(o)) == ErrorResponse(Trim(o.out + "\n" + o.err), 200)
    ensures o.Exited? && o.code != 0 && AllSpace(o.out + "\n" + o.err) ==>
              EnvelopeResponse(RunCommand(o)) == Response(map["result" := Null], 200)
    ensures o.TimedOut? ==> EnvelopeResponse(RunCommand(o)) == ErrorResponse(TimeoutMessage, 200)
    ensures o.LaunchFailed? ==>
              EnvelopeResponse(RunCommand(o)) == ErrorResponse(UnexpectedPrefix + o.msg, 200)
  {
    if o.LaunchFailed? {
      assert |UnexpectedPrefix + o.msg| > 0;
    }
  }

  const EmptyTarget := "Target cannot be empty"

  /** `run_ping` */
  function RunPing(req: Request, quote: string -> string,
                   exec: seq<string> -> ProcessOutcome): (r: Response)
    ensures req.Unreadable? ==> r == ErrorResponse(req.error, 500)
    ensures req.Body? && !Truthy(Get(req.fields, "target")) ==> r == ErrorResponse(EmptyTarget, 400)
    ensures req.Body? && Truthy(Get(req.fields, "target")) ==>
              r == EnvelopeResponse(RunCommand(exec(["ping", "-c", "4", quote(req.fields["target"])])))
  {
    match req
    case Unreadable(error) => ErrorResponse(error, 500)
    case Body(fields) =>
      var target := Get(fields, "target");
      if !Truthy(target) then ErrorResponse(EmptyTarget, 400)
      else EnvelopeResponse(PingScan(target.value, quote, exec))
  }

  /** `run_traceroute` */
  function RunTraceroute(req: Request, quote: string -> string,
                         exec: seq<string> -> ProcessOutcome): (r: Response)
    ensures req.Unreadable? ==> r == ErrorResponse(req.error, 500)
    ensures req.Body? && !Truthy(Get(req.fields, "target")) ==> r == ErrorResponse(EmptyTarget, 400)
    ensures req.Body? && Truthy(Get(req.fields, "target")) ==>
              r == EnvelopeResponse(RunCommand(exec(["traceroute", quote(req.fields["target"])])))
  {
    match req
    case Unreadable(error) => ErrorResponse(error, 500)
    case Body(fields) =>
      var target := Get(fields, "target");
      if !Truthy(target) then ErrorResponse(EmptyTarget, 400)
      else EnvelopeResponse(TracerouteScan(target.value, quote, exec))
  }

  /** `run_nslookup` */
  function RunNslookup(req: Request, quote: string -> string,
                       exec: seq<string> -> ProcessOutcome): (r: Response)
    ensures req.Unreadable? ==> r == ErrorResponse(req.error, 500)
    ensures req.Body? && !Truthy(Get(req.fields, "target")) ==> r == ErrorResponse(EmptyTarget, 400)
    ensures req.Body? && Truthy(Get(req.fields, "target")) ==>
              r == EnvelopeResponse(RunCommand(exec(["nslookup", quote(req.fields["target"])])))
  {
    match req
    case Unreadable(error) => ErrorResponse(error, 500)
    case Body(fields) =>
      var target := Get(fields, "target");
      if !Truthy(target) then ErrorResponse(EmptyTarget, 400)
      else EnvelopeResponse(NslookupScan(target.value, quote, exec))
  }

  /** A probe request without a usable target is refused before any command runs:
      the answer does not depend on the process environment. */
  lemma EmptyTargetRunsNothing(req: Request, quote: string -> string,
                               e1: seq<string> -> ProcessOutcome, e2: seq<string> -> ProcessOutcome)
    requires req.Body? && !Truthy(Get(req.fields, "target"))
    ensures RunPing(req, quote, e1) == RunPing(req, quote, e2) == ErrorResponse(EmptyTarget, 400)
    ensures RunTraceroute(req, quote, e1) == RunTraceroute(req, quote, e2) == ErrorResponse(EmptyTarget, 400)
    ensures RunNslookup(req, quote, e1) == RunNslookup(req, quote, e2) == ErrorResponse(EmptyTarget, 400)
  {
  }

  /** `run_nmap`; `scannerFault` is what constructing the port scanner raised, if
      anything. An exception escaping `perform_nmap_scan` is caught by the route's
      `except` and answered with status 500. */
  function RunNmap(req: Request, scannerFault: Option<string>,
                   scan: (string, string) -> PortScan.ScanOutcome): (r: Response)
    ensures req.Unreadable? ==> r == ErrorResponse(req.error, 500)
    ensures req.Body? && !(Truthy(Get(req.fields, "target")) && Truthy(Get(req.fields, "scan_type"))) ==>
              r == ErrorResponse("Target and scan_type are required.", 400)
    ensures req.Body? && Truthy(Get(req.fields, "target")) && Truthy(Get(req.fields, "scan_type")) ==>
              match PortScan.PerformNmap(req.fields["target"], req.fields["scan_type"], scannerFault, scan)
              case Returned(e) => r == EnvelopeResponse(e)
              case Escaped(error) => r == ErrorResponse(error, 500)
  {
    match req
    case Unreadable(error) => ErrorResponse(error, 500)
    case Body(fields) =>
      var target, scanType := Get(fields, "target"), Get(fields, "scan_type");
      if !(Truthy(target) && Truthy(scanType)) then ErrorResponse("Target and scan_type are required.", 400)
      else
        match PortScan.PerformNmap(target.value, scanType.value, scannerFault, scan)
        case Returned(e) => EnvelopeResponse(e)
        case Escaped(error) => ErrorResponse(error, 500)
  }

  /** Without a usable port scanner every complete request, whatever its scan type,
      is answered 500 with the constructor's message. */
  lemma MissingScannerAnswers500(req: Request, fault: string, scan: (string, string) -> PortScan.ScanOutcome)
    requires req.Body? && Truthy(Get(req.fields, "target")) && Truthy(Get(req.fields, "scan_type"))
    ensures RunNmap(req, Some(fault), scan) == ErrorResponse(fault, 500)
  {
  }

  /** A scan that finds no host reaches the client as an error carrying the
      informational note; the engine's csv summary is dropped. */
  lemma NoHostScanShowsNote(req: Request, scan: (string, string) -> PortScan.ScanOutcome, csv: string)
    requires req.Body? && Truthy(Get(req.fields, "target")) && Truthy(Get(req.fields, "scan_type"))
    requires req.fields["scan_type"] in PortScan.ScanArgs
    requires scan(req.fields["target"], PortScan.ScanArgs[req.fields["scan_type"]]) == PortScan.Hosts([], csv)
    ensures RunNmap(req, None, scan) == ErrorResponse(PortScan.NoResultsNote, 200)
  {
    assert |PortScan.NoResultsNote| > 0;
  }

  /** A scan with at least one host reaches the client as the report. */
  lemma HostScanShowsReport(req: Request, scan: (string, string) -> PortScan.ScanOutcome,
                            hosts: seq<PortScan.Host>, csv: string)
    requires req.Body? && Truthy(Get(req.fields, "target")) && Truthy(Get(req.fields, "scan_type"))
    requires req.fields["scan_type"] in PortScan.ScanArgs
    requires scan(req.fields["target"], PortScan.ScanArgs[req.fields["scan_type"]]) == PortScan.Hosts(hosts, csv)
    requires hosts != []
    ensures RunNmap(req, None, scan) == Response(map["result" := Str(PortScan.Report(hosts))], 200)
  {
  }

  /** What `analyze_results_with_gemini` returned: a completed analysis or an
      error message. */
  datatype AnalysisOutcome = Analysis(text: string) | AnalysisFailed(message: string)

  /** `analyze_results`; `analyze(api_key, results)` is the language-model call. */
  function AnalyzeResults(req: Request, analyze: (string, string) -> AnalysisOutcome): (r: Response)
    ensures req.Unreadable? ==> r == ErrorResponse(req.error, 500)
    ensures req.Body? && !(Truthy(Get(req.fields, "api_key")) && Truthy(Get(req.fields, "results"))) ==>
              r == ErrorResponse("API key and results are required.", 400)
    ensures req.Body? && Truthy(Get(req.fields, "api_key")) && Truthy(Get(req.fields, "results")) ==>
              match analyze(req.fields["api_key"], req.fields["results"])
              case Analysis(text) => r == Response(map["analysis" := Str(text)], 200)
              case AnalysisFailed(message) => r == ErrorResponse(message, 500)
  {
    match req
    case Unreadable(error) => ErrorResponse(error, 500)
    case Body(fields) =>
      var apiKey, results := Get(fields, "api_key"), Get(fields, "results");
      if !(Truthy(apiKey) && Truthy(results)) then ErrorResponse("API key and results are required.", 400)
      else
        match analyze(apiKey.value, results.value)
        case Analysis(text) => Response(map["analysis" := Str(text)], 200)
        case AnalysisFailed(message) => ErrorResponse(message, 500)
  }

  /** `run_domain_scan_route`: the logic result is wrapped under `result` whatever
      its status. */
  function RunDomainScanRoute(req: Request, enumerate: (string, nat) -> Domain.EnumOutcome): (r: Response)
    ensures req.Unreadable? ==> r == ErrorResponse(req.error, 500)
    ensures req.Body? && !Truthy(Get(req.fields, "target_domain")) ==>
              r == ErrorResponse("Target domain cannot be empty", 400)
    ensures req.Body? && Truthy(Get(req.fields, "target_domain")) ==>
              r.Response? && r.status == 200 && r.body.Keys == {"result"}
              && r.body["result"] == Object(Domain.RunDomainScan(req.fields["target_domain"],
                                                                 Get(req.fields, "scan_type"), enumerate))
  {
    match req
    case Unreadable(error) => ErrorResponse(error, 500)
    case Body(fields) =>
      var targetDomain := Get(fields, "target_domain");
      if !Truthy(targetDomain) then ErrorResponse("Target domain cannot be empty", 400)
      else
        var result := Domain.RunDomainScan(targetDomain.value, Get(fields, "scan_type"), enumerate);
        Response(map["result" := Object(result)], 200)
  }

  const AiPlaceholder := "Ini adalah placeholder untuk analisis AI. Fitur ini akan diimplementasikan selanjutnya."

  const DeviceFields: set<string> := {"device_type", "host", "username", "password"}

  /** `all([device_type, host, username, password])` */
  function HasDeviceFields(fields: map<string, string>): (b: bool)
    ensures b <==> forall f :: f in DeviceFields ==> Truthy(Get(fields, f))
  {
    Truthy(Get(fields, "device_type")) && Truthy(Get(fields, "host"))
    && Truthy(Get(fields, "username")) && Truthy(Get(fields, "password"))
  }

  /** The POST branch of `network_device_target`. It has no `try`, so an unreadable
      body escapes the handler. A completed result gains exactly the key
      `ai_analysis` and keeps every other entry; an error result is returned as it
      came. */
  function NetworkDeviceTarget(req: Request,
                               connect: (string, string, string) -> Device.ConnectOutcome,
                               exec: string -> Device.ExecOutcome): (r: Response)
    ensures req.Unreadable? <==> r.Uncaught?
    ensures req.Unreadable? ==> r == Uncaught(req.error)
    ensures req.Body? && !HasDeviceFields(req.fields) ==>
              r == Response(ErrorDict("Missing required fields."), 400)
    ensures req.Body? && HasDeviceFields(req.fields) ==>
              var f := req.fields;
              var info := Device.GetNetworkDeviceInfo(f["device_type"], f["host"], f["username"], f["password"],
                                                      connect, exec);
              r.Response? && r.status == 200
              && (!IsCompleted(info) ==> r.body == info)
              && (IsCompleted(info) ==>
                    "ai_analysis" !in info && r.body.Keys == info.Keys + {"ai_analysis"}
                    && r.body["ai_analysis"] == Str(AiPlaceholder)
                    && forall k :: k in info ==> r.body[k] == info[k])
  {
    match req
    case Unreadable(error) => Uncaught(error)
    case Body(fields) =>
      if !HasDeviceFields(fields) then Response(ErrorDict("Missing required fields."), 400)
      else
        var result := Device.GetNetworkDeviceInfo(fields["device_type"], fields["host"],
                                                  fields["username"], fields["password"], connect, exec);
        if IsCompleted(result) then Response(result["ai_analysis" := Str(AiPlaceholder)], 200)
        else Response(result, 200)
  }

  /** A device request missing a field never reaches the device. */
  lemma MissingDeviceFieldsConnectNothing(req: Request,
                                          c1: (string, string, string) -> Device.ConnectOutcome,
                                          c2: (string, string, string) -> Device.ConnectOutcome,
                                          e1: string -> Device.ExecOutcome, e2: string -> Device.ExecOutcome)
    requires req.Body? && !HasDeviceFields(req.fields)
    ensures NetworkDeviceTarget(req, c1, e1) == NetworkDeviceTarget(req, c2, e2)
  {
  }

  /** `request.cookies.get('lang', 'en')` */
  function LanguageCode(cookies: map<string, string>): (code: string)
    ensures "lang" in cookies ==> code == cookies["lang"]
    ensures "lang" !in cookies ==> code == "en"
  {
    Get(cookies, "lang").GetOr("en")
  }

  /** `translations.get(language_code, translations.get('en'))`: the requested
      language's table, else the English one (`None` when that is missing too). */
  function GetTranslations(translations: map<string, Value>, code: string): (t: Option<Value>)
    ensures code in translations ==> t == Some(translations[code])
    ensures code !in translations && "en" in translations ==> t == Some(translations["en"])
    ensures t.None? <==> code !in translations && "en" !in translations
  {
    if code in translations then Some(translations[code])
    else if "en" in translations then Some(translations["en"])
    else None
  }

  /** A visitor without a language cookie, or with one naming an unknown language,
      sees the English table. */
  lemma UnknownLanguageFallsBackToEnglish(translations: map<string, Value>, cookies: map<string, string>)
    requires "en" in translations
    requires "lang" !in cookies || cookies["lang"] !in translations
    ensures GetTranslations(translations, LanguageCode(cookies)) == Some(translations["en"])
  {
  }
}
