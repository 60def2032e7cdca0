# netiV3 scan-result normalisation, in Dafny

netiV3 is a small Flask network-analysis tool. Its browser front end posts a target to
a handful of JSON routes. Each route runs a probe or an engine: `ping`, `traceroute`,
`nslookup`, an Nmap port scan, an SSH configuration fetch from a MikroTik or Cisco IOS
device, or sublist3r subdomain enumeration. Each route answers with a JSON
dictionary.

This project models the layer between the engines and the client:

- how `run_command` turns a process outcome into a `{stdout, stderr}` envelope;
- the fixed argument vectors of the three probes;
- the Nmap scan-type table and the text report built from the host, protocol and
  port tree;
- the device adapter's command choice and exception messages;
- the domain-scan dispatch;
- the route handlers' required-field checks and how they turn an adapter's result
  into a `(json, status)` response;
- the translation lookup.

Every external engine is a parameter of the model. Most are function-typed:

- `exec` for the operating system running a vector;
- `quote` for `shlex.quote`;
- `scan` for the `nm.scan(...)` call;
- `connect`/`exec` for the paramiko session;
- `enumerate` for sublist3r;
- `analyze` for the Gemini call.

One parameter is a plain value: `scannerFault`, the message of the exception that
constructing `nmap.PortScanner()` raised, if it raised one.

An engine's answer is a datatype that says what the engine returned or raised. "The
engine is never called" is stated as: the result is the same for any two engines.

Modules, one per file:

| file | module | contents |
|---|---|---|
| `wrappers.dfy` | `Wrappers` | `Option` |
| `text.dfy` | `Text` | Python `str.strip()` (`Trim`) and `str(n)` (`NatToString`), each with its partner (`ParseNat`); `Concat`, the string joiner |
| `json.dfy` | `Json` | JSON values and the `status` dicts |
| `process.dfy` | `Process` | `run_command` and the three probes |
| `sorting.dfy` | `Sorting` | `sorted(ports)`: a reference ascending enumeration of a key set, and the insertion method that computes it |
| `port_scan.dfy` | `PortScan` | `perform_nmap_scan`: a specification function, and the nested `+=` loops as methods proved equal to it |
| `device.dfy` | `Device` | `get_network_device_info` |
| `domain.dfy` | `Domain` | `run_domain_scan` |
| `routes.dfy` | `Routes` | the POST handlers, the language cookie and the translation fallback |

## Model

| member | source | states |
|---|---|---|
| Text.Trim | netiV3/app/logic.py:18-19 | `strip()` returns the window between the leading and trailing whitespace; everything outside is whitespace; the result is empty exactly when the input is all whitespace, and otherwise starts and ends with a non-space |
| Text.TrimIdempotent | netiV3/app/logic.py:19 | stripping an already stripped error text changes nothing |
| Text.NatToString | netiV3/app/logic.py:71 | a port number prints as a non-empty run of decimal digits with no leading zero (except `0`) |
| Text.ParseNatToString | netiV3/app/logic.py:71 | reading a printed port number back gives the number (partner of `NatToString`) |
| Text.NatToStringInjective | netiV3/app/logic.py:71 | distinct port numbers print as distinct strings |
| Sorting.SortedKeys | netiV3/app/logic.py:63-64 | the reference order for `sorted(ports)`: strictly ascending, and exactly the key set, each key once |
| Sorting.StrictlyIncreasingUnique | netiV3/app/logic.py:64 | two strictly ascending sequences with the same elements are equal, so the port order is fully determined |
| Sorting.Insert | netiV3/app/logic.py:64 | inserting a new key into an ascending sequence keeps it ascending and adds exactly that key |
| Sorting.SortPorts | netiV3/app/logic.py:63-64 | the loop returns the ports' keys strictly ascending, and this equals `SortedKeys` |
| Process.RunCommand | netiV3/app/logic.py:12-23 | exactly one field is populated, and stdout exactly on exit code 0, verbatim; a non-zero exit yields `Trim(out + "\n" + err)`; a timeout yields the fixed 30-second message; any other failure yields `"An unexpected error occurred: " + msg` |
| Process.BlankFailureGivesEmptyStderr | netiV3/app/logic.py:18-19 | a failing command with only whitespace output yields a present but empty stderr |
| Process.PingScan | netiV3/app/logic.py:25-28 | runs exactly `['ping','-c','4',quote(target)]` and returns `run_command`'s envelope unchanged |
| Process.TracerouteScan | netiV3/app/logic.py:30-33 | runs exactly `['traceroute',quote(target)]` and returns the envelope unchanged |
| Process.NslookupScan | netiV3/app/logic.py:35-38 | runs exactly `['nslookup',quote(target)]` and returns the envelope unchanged |
| Process.ProbeVectorsIsolateTarget | netiV3/app/logic.py:25-38 | the quoted target is the single last token of each vector, and the other tokens do not depend on it |
| Process.ProbesDependOnlyOnTheirVector | netiV3/app/logic.py:25-38 | each probe's envelope depends only on what its one vector produced |
| PortScan.ScanArguments | netiV3/app/logic.py:42-50 | the table answers for exactly the five scan types, never with an empty profile, so `if not arguments` rejects exactly the unknown keys; `ping_scan` gets `-sn`, `quick_scan` `-T4 -F`, `intense_scan` `-T4 -A -v`, `udp_scan` `-sU` and `vuln_scan` `--script vuln` |
| PortScan.NmapScan | netiV3/app/logic.py:49-82 | see the note below the table |
| PortScan.PerformNmap | netiV3/app/logic.py:40-82 | the exception raised by constructing the scanner (line 41, outside the `try`) escapes the function; without it the call returns `NmapScan`'s envelope |
| PortScan.ScannerFaultPrecedesLookup | netiV3/app/logic.py:41-51 | a scanner that cannot be constructed decides the call alone: the same escaping exception for every scan type, an unknown one included, and for every engine |
| PortScan.MissingProgramGetsNoInstallHint | netiV3/app/logic.py:41 | with the nmap program missing, a valid scan type ends in an escaping exception, not in the `Is Nmap installed on the system?` envelope |
| PortScan.GuardedNmapScan | netiV3/app/logic.py:49-82 | the corrected scan: a scanner-construction `PortScannerError` is answered with the install hint after the scan-type check; otherwise the same as `NmapScan` |
| PortScan.GuardedScanNeverEscapes | netiV3/app/logic.py:40-82 | the corrected scan always returns an envelope, with stderr whenever stdout is missing, and agrees with the code as written wherever the scanner can be constructed |
| PortScan.UnknownScanTypeNeverScans | netiV3/app/logic.py:49-51 | a scan type outside the five never reaches the engine |
| PortScan.BothPopulatedOnlyInFallback | netiV3/app/logic.py:76-78 | both envelope fields are set exactly in the no-host fallback |
| PortScan.Report | netiV3/app/logic.py:55-76 | the report is the host blocks in engine order; it is empty exactly when the engine found no host, so `if not output_string` is the no-host test |
| PortScan.HostBlock | netiV3/app/logic.py:57-75 | a host's block begins with its header, followed by its protocols' blocks |
| PortScan.HostHeader | netiV3/app/logic.py:57-59 | the header begins with the 52-dash separator line and continues past it |
| PortScan.HostLines | netiV3/app/logic.py:58-59 | the host lines begin `Host : ` and end with a newline |
| PortScan.ProtocolBlock | netiV3/app/logic.py:60-75 | a protocol's block begins with its header, followed by its ports' blocks |
| PortScan.ProtocolHeader | netiV3/app/logic.py:61-62 | the header begins with the 10-dash separator line and ends with a newline |
| PortScan.PortBlock | netiV3/app/logic.py:65-75 | a port's block begins with its port line and is longer exactly when the port has script results |
| PortScan.PortLine | netiV3/app/logic.py:71 | a port line begins `port : ` and ends with a newline |
| PortScan.PortFields | netiV3/app/logic.py:71 | the fields part of a port line starts with a tab and ends the line |
| PortScan.OrEmpty | netiV3/app/logic.py:67-69 | a missing entry renders as the empty string, and a present one as itself |
| PortScan.ScriptEntry | netiV3/app/logic.py:74-75 | a script entry is two spaces, the id, `:`, a newline, the text and a newline: five characters besides id and text |
| PortScan.ReportAppend | netiV3/app/logic.py:56-75 | the report of two runs of hosts is the two reports concatenated |
| PortScan.ReportInEngineOrder | netiV3/app/logic.py:56-59 | hosts appear in engine order: the first host's block, then the report of the rest |
| PortScan.HostProtocolsInEngineOrder | netiV3/app/logic.py:57-62 | a host's block is the separator, its `Host :`/`State :` lines, then its protocols in engine order |
| PortScan.ProtocolPortsAscending | netiV3/app/logic.py:60-64 | a protocol's ports appear in the unique strictly ascending enumeration of its port numbers |
| PortScan.PortLineStartsWithPort | netiV3/app/logic.py:71 | a port line begins `port : `, then digits that read back as the port, then a tab, and ends with a newline |
| PortScan.MissingFieldsPrintEmpty | netiV3/app/logic.py:67-69 | a missing product, version or extrainfo prints exactly as `''` |
| PortScan.ScriptBlockIffScripts | netiV3/app/logic.py:72-75 | a `Script output:` block follows a port exactly when it has script results |
| PortScan.AppendPortBlock | netiV3/app/logic.py:65-75 | appending one port's line and script entries yields the accumulator followed by that port's block |
| PortScan.AppendProtocolBlock | netiV3/app/logic.py:61-75 | the sorted-port loop appends exactly that protocol's block |
| PortScan.AppendHostBlock | netiV3/app/logic.py:57-75 | the protocol loop appends exactly that host's block |
| PortScan.BuildReport | netiV3/app/logic.py:55-75 | the nested `+=` loops, starting from `""`, build exactly `Report(hosts)` |
| PortScan.PerformNmapScan | netiV3/app/logic.py:40-82 | the imperative scan ends exactly as `PerformNmap` specifies: the constructor's exception escaping, or `NmapScan`'s envelope |
| Device.DeviceCommand | netiV3/app/logic.py:88-93 | `mikrotik` maps to `/export` and `cisco_ios` to `show running-config`; no other type has a command |
| Device.HandlerMessage | netiV3/app/logic.py:101-106 | see the note below the table |
| Device.GetNetworkDeviceInfo | netiV3/app/logic.py:83-106 | see the note below the table |
| Device.ErrorStreamWins | netiV3/app/logic.py:98-100 | a non-empty error stream makes the call fail with that text, and no config is returned |
| Device.UnsupportedTypeRunsNoCommand | netiV3/app/logic.py:87-93 | an unsupported device type runs no command; the connection is still attempted |
| Domain.RunDomainScan | netiV3/app/logic.py:108-116 | `subdomain_enum` gives `{completed, results}` or `{error, str(e)}`; any other or missing type gives the unsupported message; completed exactly when the type matches and the engine returns |
| Domain.OtherScanTypesNeverEnumerate | netiV3/app/logic.py:115-116 | any other scan type never runs the engine |
| Domain.ExampleDotCom | netiV3/app/logic.py:108-116 | the exact dicts for a two-subdomain engine answer and for an unsupported type |
| Json.ErrorDict | netiV3/app/logic.py:93 | the error dict has exactly the keys `status` and `message`, with status `error` and the given message |
| Json.CompletedDict | netiV3/app/logic.py:100 | the completed dict has exactly `status` and the payload key, with status `completed` and the given payload |
| Routes.Truthy | netiV3/app/routes.py:40 | `None` and the empty string are falsy; every other string is truthy |
| Routes.HasDeviceFields | netiV3/app/routes.py:156 | `all([...])` holds exactly when each of the four device fields is present and non-empty |
| Json.OfOption | netiV3/app/routes.py:47 | `jsonify` writes `None` as `null` and a string as itself |
| Json.IsCompleted | netiV3/app/routes.py:161 | holds exactly when the dict's `status` entry is `'completed'` |
| Routes.ErrorResponse | netiV3/app/routes.py:41-50 | `jsonify({'error': m}), status`: exactly the key `error` with the message, and the given status |
| Routes.Get | netiV3/app/routes.py:39 | `data.get(key)` is present exactly when the key is in the body, with its value |
| Routes.EnvelopeResponse | netiV3/app/routes.py:44-47 | a truthy stderr becomes `{'error': stderr}`; otherwise the response is `{'result': stdout}`, where a missing stdout becomes `null`; status 200 |
| Routes.ProcessOutcomeResponse | netiV3/app/routes.py:44-47 | see the note below the table |
| Routes.RunPing | netiV3/app/routes.py:35-50 | see the note below the table |
| Routes.RunTraceroute | netiV3/app/routes.py:52-67 | the same as `RunPing`, with the traceroute vector |
| Routes.RunNslookup | netiV3/app/routes.py:69-84 | the same as `RunPing`, with the nslookup vector |
| Routes.EmptyTargetRunsNothing | netiV3/app/routes.py:39-41 | a probe request without a usable target answers 400 whatever the process environment |
| Routes.RunNmap | netiV3/app/routes.py:86-102 | both `target` and `scan_type` must be truthy, else 400 `Target and scan_type are required.`; otherwise the scan's envelope as a response, or 500 with the message when the scanner's constructor raised; unreadable body gives 500 |
| Routes.MissingScannerAnswers500 | netiV3/app/routes.py:95-102 | without a usable scanner every complete request, whatever its scan type, is answered 500 with the constructor's message |
| Routes.NoHostScanShowsNote | netiV3/app/routes.py:95-97 | with a working scanner, a no-host scan reaches the client as `{'error': note}` with status 200; the csv is discarded |
| Routes.HostScanShowsReport | netiV3/app/routes.py:95-99 | with a working scanner, a scan with hosts reaches the client as `{'result': report}` |
| Routes.AnalyzeResults | netiV3/app/routes.py:104-120 | `api_key` and `results` are required (400); a completed analysis gives `{'analysis': text}`; a failed one gives `{'error': message}` with 500; unreadable body gives 500 |
| Routes.RunDomainScanRoute | netiV3/app/routes.py:126-137 | an empty `target_domain` gives 400; otherwise 200 with the logic result, whatever its status, as the only key `result` |
| Routes.NetworkDeviceTarget | netiV3/app/routes.py:147-164 | see the note below the table |
| Routes.MissingDeviceFieldsConnectNothing | netiV3/app/routes.py:156-157 | a device request missing a field never reaches the device |
| Routes.LanguageCode | netiV3/app/routes.py:20 | the `lang` cookie, defaulting to `'en'` |
| Routes.GetTranslations | netiV3/app/routes.py:13 | the requested language's entry if present, else the `'en'` entry; none only when both are missing |
| Routes.UnknownLanguageFallsBackToEnglish | netiV3/app/routes.py:13-22 | a missing cookie or an unknown language selects the English table |

Notes on the longer contracts:

- `PortScan.NmapScan`:
  - an unknown type gives `Invalid scan type: <key>` on stderr only;
  - no hosts gives the csv on stdout and the fixed note on stderr;
  - otherwise the report alone goes on stdout;
  - `PortScannerError` gives `Nmap error: <msg>. Is Nmap installed on the system?`;
  - any other error gives the unexpected-error message;
  - stdout missing implies stderr present.
- `Device.HandlerMessage`: the fixed authentication message is given exactly for an authentication failure. An authentication failure is still an SSH exception; any other SSH exception gives `SSH connection error: <msg>`, and everything else the unexpected-error message.
- `Device.GetNetworkDeviceInfo`:
  - the key set is always `{status, config_data}` or `{status, message}`;
  - the status is completed exactly when the connection succeeds, the type is supported, the command runs and the error stream is empty;
  - a completed result carries the output;
  - a connection failure gives its handler message;
  - an unsupported type, once connected, gives `Unsupported device type: <t>`;
  - a non-empty error stream gives that text;
  - an exec failure gives its handler message.
- `Routes.ProcessOutcomeResponse`: what a probe route answers for each process outcome. Exit 0 gives the stdout. A failure gives the trimmed text as `error`. A failure with only whitespace output gives `{'result': null}` with status 200. A timeout or launch failure gives its message.
- `Routes.RunPing`: an unreadable body gives `{'error': str(e)}` with status 500. A missing or empty target gives `Target cannot be empty` with status 400. Otherwise the response comes from the `ping -c 4` envelope.
- `Routes.NetworkDeviceTarget`:
  - an unreadable body escapes the handler, since there is no `try`;
  - a missing field gives `{status: error, message: Missing required fields.}` with status 400;
  - a completed result, answered with status 200, gains exactly the key `ai_analysis` (not present before) with the placeholder text, and every other entry stays unchanged;
  - any other result is returned as-is with status 200.

## Findings

| source | as written | input that shows it | evidently intended | confidence | as-written member | corrected member |
|---|---|---|---|---|---|---|
| netiV3/app/logic.py:41-53 | `nmap.PortScanner()` is called before the `try`, so the `PortScannerError` it raises when the nmap program is missing escapes `perform_nmap_scan`; `run_nmap` then answers 500 with the bare message, and the `Is Nmap installed on the system?` answer of line 80 is never given for the missing-program case it names | nmap not installed, `scan_type` `quick_scan` (or any unknown type) | the constructor inside the `try`, so a missing program is answered with the install hint | medium, not executed | PortScan.MissingProgramGetsNoInstallHint | PortScan.GuardedNmapScan |

`PortScan.GuardedScanNeverEscapes` proves the corrected scan's property. The route model `Routes.RunNmap` keeps the behaviour as written, because that is what the application answers.

## Left out

- Process execution: `subprocess.run`, the 30-second timer and killing the child are the `exec` parameter. Its `ProcessOutcome` answer says how the run ended.
- `shlex.quote` is the uninterpreted parameter `quote`. Its escaping rules are not modelled, only that the quoted token is its own element of the argument vector.
- PortScan.PerformNmap: what `nmap.PortScanner()` raised is given as `scannerFault`, its message only; the search for the nmap program is not modelled.
- The engine's `csv()`, `hostname()` and `state()` answers, and UTF-8 decoding of the SSH streams, are opaque strings in the input datatypes. The `str(e)` of every exception is a given message.
- An exception raised while the report loop reads the engine's tree is not modelled separately from the engine's own `OtherError`.
- paramiko internals: the host-key policy, the 10-second connect timeout and `client.close()`, which runs only on the exec path, are not modelled. A reader might expect the device type to be checked before connecting, but the code connects first (netiV3/app/logic.py:87-93), and the model follows the code.
- `analyze_results_with_gemini` is the `analyze` parameter, a foreign service call. `run_email_analysis` is a placeholder that only prints and is not modelled.
- The Flask layer is not modelled: template rendering, `make_response` and cookie setting, reading `translations.json` from disk, the debug prints, and the `g.lang`/`g.lang_code` assignments of `set_language` (netiV3/app/routes.py:22-23). `LanguageCode` and `GetTranslations` model the values assigned.
- The GET branches of the page routes, and the second registration of `/domain_subdomain_target` with its unguarded `request.json[...]` reads (netiV3/app/routes.py:168-175), are not modelled.
- Request bodies: body values are strings. A body value of another JSON type is not modelled. In the source such values behave in several ways:
  - a falsy value (`0`, `false`, `[]`, `{}`) in a field a route checks takes that route's 400 branch. `run_domain_scan_route` never checks `scan_type` (netiV3/app/routes.py:131-134), so a falsy `scan_type` there gets status 200 with the unsupported-type dict;
  - `run_nmap` scans `str(target)` (netiV3/app/logic.py:54);
  - a hashable non-string `scan_type`, such as a number or a boolean, gets `Invalid scan type: <value>`;
  - a non-empty array or object as `scan_type` makes `scan_args.get` at netiV3/app/logic.py:49 raise `TypeError` outside the `try`. That exception escapes `perform_nmap_scan`, and `run_nmap` answers 500 with its message (netiV3/app/routes.py:101-102);
  - `analyze_results` passes `results` on unchanged.
- Routes.NetworkDeviceTarget: `result['ai_analysis'] = ...` mutates a dict that nothing else refers to. The model returns the updated map, so aliasing is not modelled.
- Domain.RunDomainScan: of sublist3r's arguments only the domain and the thread count of 40 are passed to `enumerate`. The other fixed keyword arguments do not vary and are not modelled.
- Concurrency between requests is not a property of this sequential code and is not modelled.
