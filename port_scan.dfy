/** `perform_nmap_scan` (netiV3/app/logic.py): the scan-type table, the engine call,
    and the text report built from the engine's host/protocol/port tree. */
module PortScan {
  import opened Wrappers
  import opened Text
  import opened Sorting
  import opened Process

  /** One port entry of the engine's result. A key missing from the engine's dict
      is `None` for product, version and extra info; `scripts` lists the `script`
      dict's (id, text) pairs in insertion order and is empty when that dict is
      missing or empty. */
  datatype PortInfo = PortInfo(
    state: string,
    name: string,
    product: Option<string>,
    version: Option<string>,
    extrainfo: Option<string>,
    scripts: seq<(string, string)>)

  datatype Protocol = Protocol(name: string, ports: map<nat, PortInfo>)

  /** A discovered host with the engine's `hostname()` and `state()` answers. */
  datatype Host = Host(address: string, hostname: string, state: string, protocols: seq<Protocol>)

  /** What `nm.scan` left behind: the hosts in `all_hosts()` order with the `csv()`
      summary, or the exception it raised with its `str(e)`. */
  datatype ScanOutcome =
    | Hosts(hosts: seq<Host>, csv: string)
    | PortScannerError(msg: string)
    | OtherError(msg: string)

  const ScanArgs: map<string, string> := map[
    "ping_scan" := "-sn",
    "quick_scan" := "-T4 -F",
    "intense_scan" := "-T4 -A -v",
    "udp_scan" := "-sU",
    "vuln_scan" := "--script vuln"]

  const HostSeparator := "----------------------------------------------------\n"
  const ProtocolSeparator := "----------\n"
  const InstallHint := ". Is Nmap installed on the system?"
  const NoResultsNote := "No open ports or specific results found. Raw Nmap output provided."

  /** `scan_args.get(scan_type)`: defined for exactly the five scan types, and never
      an empty (falsy) profile, so `if not arguments` rejects exactly the unknown keys. */
  function ScanArguments(key: string): (r: Option<string>)
    ensures r.Some? <==> key in {"ping_scan", "quick_scan", "intense_scan", "udp_scan", "vuln_scan"}
    ensures r.Some? ==> r.value != ""
    ensures key == "ping_scan" ==> r == Some("-sn")
    ensures key == "quick_scan" ==> r == Some("-T4 -F")
    ensures key == "intense_scan" ==> r == Some("-T4 -A -v")
    ensures key == "udp_scan" ==> r == Some("-sU")
    ensures key == "vuln_scan" ==> r == Some("--script vuln")
  {
    if key in ScanArgs then Some(ScanArgs[key]) else None
  }

  /** A missing product, version or extra-info entry prints as `''`. */
  function OrEmpty(o: Option<string>): (s: string)
    ensures o.None? ==> s == ""
    ensures o.Some? ==> s == o.value
  {
    o.GetOr("")
  }

  /** `port : <n>` and then the port's tab-separated fields. */
  function PortLine(port: nat, info: PortInfo): (line: string)
    ensures "port : " <= line && line[|line| - 1] == '\n'
  {
    var digits, fields := NatToString(port), PortFields(info);
    var line := "port : " + digits + fields;
    assert line[|line| - 1] == fields[|fields| - 1];
    line
  }

  /** The tab-separated state, name and product fields, ending the line. */
  function PortFields(info: PortInfo): (f: string)
    ensures |f| > 0 && f[0] == '\t' && f[|f| - 1] == '\n'
  {
    "\tstate : " + info.state + "\tname : " + info.name
    + "\tproduct : " + OrEmpty(info.product) + " " + OrEmpty(info.version) + " "
    + OrEmpty(info.extrainfo) + "\n"
  }

  /** One script result: its id indented on a line of its own, then its text. */
  function ScriptEntry(script: (string, string)): (entry: string)
    ensures |entry| == |script.0| + |script.1| + 5
    ensures entry[..2] == "  " && entry[|entry| - 1] == '\n'
  {
    "  " + script.0 + ":\n" + script.1 + "\n"
  }

  /** One port's line, and its `Script output:` block when it has script results. */
  function PortBlock(port: nat, info: PortInfo): (block: string)
    ensures PortLine(port, info) <= block
    ensures |block| == |PortLine(port, info)| <==> info.scripts == []
  {
    PortLine(port, info)
    + (if info.scripts != [] then "Script output:\n" + Concat(info.scripts, ScriptEntry) else "")
  }

  /** The block of port `k` of a protocol's port table. */
  function PortBlockIn(ports: map<nat, PortInfo>): nat -> string {
    k => if k in ports then PortBlock(k, ports[k]) else ""
  }

  /** The protocol separator and the `Protocol :` line. */
  function ProtocolHeader(p: Protocol): (header: string)
    ensures ProtocolSeparator <= header && header[|header| - 1] == '\n'
  {
    ProtocolSeparator + "Protocol : " + p.name + "\n"
  }

  /** A protocol's header followed by its ports in ascending numeric order. */
  function ProtocolBlock(p: Protocol): (block: string)
    ensures ProtocolHeader(p) <= block
  {
    ProtocolHeader(p) + Concat(SortedKeys(p.ports.Keys), PortBlockIn(p.ports))
  }

  /** The separator and then the host's `Host :` and `State :` lines. */
  function HostHeader(h: Host): (header: string)
    ensures HostSeparator <= header && |header| > |HostSeparator|
  {
    HostSeparator + HostLines(h)
  }

  /** The `Host : <address> (<hostname>)` and `State : <state>` lines. */
  function HostLines(h: Host): (lines: string)
    ensures "Host : " <= lines && lines[|lines| - 1] == '\n'
  {
    "Host : " + h.address + " (" + h.hostname + ")\n" + "State : " + h.state + "\n"
  }

  /** A host's header followed by its protocols in engine order. */
  function HostBlock(h: Host): (block: string)
    ensures HostHeader(h) <= block
  {
    HostHeader(h) + Concat(h.protocols, ProtocolBlock)
  }

  /** The report text for the hosts in engine order. It is empty exactly when the
      engine found no host, since every host emits at least its separator, so
      `if not output_string` is the no-host test. */
  function Report(hosts: seq<Host>): (r: string)
    ensures r == "" <==> hosts == []
  {
    assert hosts != [] ==> |HostBlock(hosts[|hosts| - 1])| > 0;
    Concat(hosts, HostBlock)
  }

  /** The report of two runs of hosts is the two reports one after the other. */
  lemma ReportAppend(a: seq<Host>, b: seq<Host>)
    ensures Report(a + b) == Report(a) + Report(b)
  {
    ConcatAppend(a, b, HostBlock);
  }

  /** Hosts are reported in the engine's order: the first host's block comes
      first, followed by the report of the rest. */
  lemma ReportInEngineOrder(hosts: seq<Host>)
    requires hosts != []
    ensures Report(hosts) == HostBlock(hosts[0]) + Report(hosts[1..])
  {
    assert hosts == [hosts[0]] + hosts[1..];
    ReportAppend([hosts[0]], hosts[1..]);
    assert Report([hosts[0]]) == Report([]) + HostBlock(hosts[0]) by {
      assert [hosts[0]][..0] == [];
    }
  }

  /** Within a host, protocols are reported in the engine's order after the host's
      separator, `Host :` and `State :` lines. */
  lemma HostProtocolsInEngineOrder(h: Host)
    requires h.protocols != []
    ensures HostBlock(h) == HostSeparator
                            + (HostLines(h) + (ProtocolBlock(h.protocols[0]) + Concat(h.protocols[1..], ProtocolBlock)))
  {
    var ps := h.protocols;
    assert ps == [ps[0]] + ps[1..];
    ConcatAppend([ps[0]], ps[1..], ProtocolBlock);
    assert Concat([ps[0]], ProtocolBlock) == ProtocolBlock(ps[0]) by {
      assert [ps[0]][..0] == [];
    }
    AppendAssoc(HostSeparator, HostLines(h), Concat(ps, ProtocolBlock));
  }

  /** Within a protocol the ports are reported in the one strictly ascending
      enumeration of its port numbers. */
  lemma ProtocolPortsAscending(p: Protocol, ks: seq<nat>)
    requires StrictlyIncreasing(ks) && forall k :: k in ks <==> k in p.ports
    ensures ProtocolBlock(p) == ProtocolHeader(p) + Concat(ks, PortBlockIn(p.ports))
  {
    StrictlyIncreasingUnique(ks, SortedKeys(p.ports.Keys));
  }

  /** A port line starts with `port : `, then the port number's digits, which read
      back as the port, then a tab. */
  lemma PortLineStartsWithPort(port: nat, info: PortInfo)
    ensures var line, digits := PortLine(port, info), NatToString(port);
            |line| > 8 + |digits| && line[..7] == "port : "
            && line[7..7 + |digits|] == digits && ParseNat(digits) == port
            && line[7 + |digits|] == '\t' && line[|line| - 1] == '\n'
  {
    ParseNatToString(port);
    var digits, fields := NatToString(port), PortFields(info);
    var line := "port : " + digits + fields;
    assert fields[0] == '\t' && fields[|fields| - 1] == '\n';
    assert line[7 + |digits|] == fields[0];
    assert line[|line| - 1] == fields[|fields| - 1];
    assert line[7..7 + |digits|] == digits;
  }

  /** A missing product, version or extra-info entry prints exactly as an empty one. */
  lemma MissingFieldsPrintEmpty(port: nat, info: PortInfo)
    ensures PortLine(port, info.(product := None)) == PortLine(port, info.(product := Some("")))
    ensures PortLine(port, info.(version := None)) == PortLine(port, info.(version := Some("")))
    ensures PortLine(port, info.(extrainfo := None)) == PortLine(port, info.(extrainfo := Some("")))
  {
  }

  /** A `Script output:` block follows a port exactly when it has script results. */
  lemma ScriptBlockIffScripts(port: nat, info: PortInfo)
    ensures PortBlock(port, info) == PortLine(port, info) <==> info.scripts == []
  {
    if info.scripts != [] {
      assert |PortBlock(port, info)| > |PortLine(port, info)|;
    }
  }

  /** `perform_nmap_scan` on an engine `scan(hosts, arguments)`. An unknown scan type
      is rejected before the engine runs; no host found yields the csv summary with
      the informational note; otherwise the report alone; engine errors yield only
      stderr. */
  function NmapScan(target: string, key: string, scan: (string, string) -> ScanOutcome): (e: Envelope)
    ensures ScanArguments(key).None? ==> e == Envelope(None, Some("Invalid scan type: " + key))
    ensures ScanArguments(key).Some? ==>
              var o := scan(target, ScanArguments(key).value);
              (o.Hosts? && o.hosts == [] ==> e == Envelope(Some(o.csv), Some(NoResultsNote)))
              && (o.Hosts? && o.hosts != [] ==> e == Envelope(Some(Report(o.hosts)), None))
              && (o.PortScannerError? ==>
                    e == Envelope(None, Some("Nmap error: " + o.msg + InstallHint)))
              && (o.OtherError? ==> e == Envelope(None, Some(UnexpectedPrefix + o.msg)))
    ensures e.stdout.None? ==> e.stderr.Some?
  {
    match ScanArguments(key)
    case None => Envelope(None, Some("Invalid scan type: " + key))
    case Some(arguments) =>
      match scan(target, arguments)
      case Hosts(hosts, csv) =>
        var report := Report(hosts);
        if report == "" then Envelope(Some(csv), Some(NoResultsNote))
        else Envelope(Some(report), None)
      case PortScannerError(msg) =>
        Envelope(None, Some("Nmap error: " + msg + InstallHint))
      case OtherError(msg) => Envelope(None, Some(UnexpectedPrefix + msg))
  }

  /** Both fields are populated exactly in the no-host fallback. */
  lemma BothPopulatedOnlyInFallback(target: string, key: string, scan: (string, string) -> ScanOutcome)
    ensures var e := NmapScan(target, key, scan);
            e.stdout.Some? && e.stderr.Some? <==>
              ScanArguments(key).Some? && scan(target, ScanArguments(key).value).Hosts?
              && scan(target, ScanArguments(key).value).hosts == []
  {
  }

  /** An unknown scan type never reaches the engine: any two engines give the same
      answer. */
  lemma UnknownScanTypeNeverScans(target: string, key: string,
                                  s1: (string, string) -> ScanOutcome,
                                  s2: (string, string) -> ScanOutcome)
    requires key !in {"ping_scan", "quick_scan", "intense_scan", "udp_scan", "vuln_scan"}
    ensures NmapScan(target, key, s1) == NmapScan(target, key, s2)
  {
  }

  /** The innermost `for script_id, data in script_output.items()` loop and the
      port line before it. */
  method AppendPortBlock(out: string, ports: map<nat, PortInfo>, port: nat) returns (r: string)
    requires port in ports
    ensures r == out + PortBlockIn(ports)(port)
  {
    var info := ports[port];
    var fields := "\tstate : " + info.state + "\tname : " + info.name
                  + "\tproduct : " + OrEmpty(info.product) + " " + OrEmpty(info.version) + " "
                  + OrEmpty(info.extrainfo) + "\n";
    assert fields == PortFields(info);
    r := out + ("port : " + NatToString(port) + fields);
    assert r == out + PortLine(port, info);
    if info.scripts != [] {
      r := r + "Script output:\n";
      ghost var head := r;
      var m := 0;
      while m < |info.scripts|
        invariant 0 <= m <= |info.scripts|
        invariant r == head + Concat(info.scripts[..m], ScriptEntry)
      {
        var (scriptId, data) := info.scripts[m];
        r := r + ("  " + scriptId + ":\n" + data + "\n");
        ConcatPrefixStep(info.scripts, m, ScriptEntry);
        AppendAssoc(head, Concat(info.scripts[..m], ScriptEntry), ScriptEntry(info.scripts[m]));
        m := m + 1;
      }
      assert info.scripts[..m] == info.scripts;
      AppendAssoc(out + PortLine(port, info), "Script output:\n", Concat(info.scripts, ScriptEntry));
      AppendAssoc(out, PortLine(port, info), "Script output:\n" + Concat(info.scripts, ScriptEntry));
    }
  }

  /** The `for port in sorted(ports)` loop of one protocol, after its header. */
  method AppendProtocolBlock(out: string, proto: Protocol) returns (r: string)
    ensures r == out + ProtocolBlock(proto)
  {
    r := out + ProtocolHeader(proto);
    ghost var header := r;
    var ports := SortPorts(proto.ports);
    var k := 0;
    while k < |ports|
      invariant 0 <= k <= |ports|
      invariant r == header + Concat(ports[..k], PortBlockIn(proto.ports))
    {
      var port := ports[k];
      r := AppendPortBlock(r, proto.ports, port);
      ConcatPrefixStep(ports, k, PortBlockIn(proto.ports));
      AppendAssoc(header, Concat(ports[..k], PortBlockIn(proto.ports)), PortBlockIn(proto.ports)(port));
      k := k + 1;
    }
    assert ports[..k] == ports;
    AppendAssoc(out, ProtocolHeader(proto), Concat(ports, PortBlockIn(proto.ports)));
  }

  /** The `for proto in nm[host].all_protocols()` loop of one host, after its
      separator, `Host :` and `State :` lines. */
  method AppendHostBlock(out: string, host: Host) returns (r: string)
    ensures r == out + HostBlock(host)
  {
    r := out + HostHeader(host);
    ghost var header := r;
    var j := 0;
    while j < |host.protocols|
      invariant 0 <= j <= |host.protocols|
      invariant r == header + Concat(host.protocols[..j], ProtocolBlock)
    {
      r := AppendProtocolBlock(r, host.protocols[j]);
      ConcatPrefixStep(host.protocols, j, ProtocolBlock);
      AppendAssoc(header, Concat(host.protocols[..j], ProtocolBlock), ProtocolBlock(host.protocols[j]));
      j := j + 1;
    }
    assert host.protocols[..j] == host.protocols;
    AppendAssoc(out, HostHeader(host), Concat(host.protocols, ProtocolBlock));
  }

  /** The report builder: the outer `for host in nm.all_hosts()` loop appending to
      `output_string`, which starts empty. */
  method BuildReport(hosts: seq<Host>) returns (out: string)
    ensures out == Report(hosts)
  {
    out := "";
    var i := 0;
    while i < |hosts|
      invariant 0 <= i <= |hosts|
      invariant out == Report(hosts[..i])
    {
      out := AppendHostBlock(out, hosts[i]);
      ConcatPrefixStep(hosts, i, HostBlock);
      i := i + 1;
    }
    assert hosts[..i] == hosts;
  }

  /** How a call of `perform_nmap_scan` ends: with the envelope it returns, or with
      the exception that constructing the scanner raised (its `str(e)`). */
  datatype ScanCall = Returned(envelope: Envelope) | Escaped(error: string)

  /** `perform_nmap_scan` as a whole. `scannerFault` is what `nmap.PortScanner()`
      raised, if anything (python-nmap raises when the nmap program is missing).
      That call comes before the scan type is looked up and outside the `try`, so
      its exception leaves the function; otherwise the result is `NmapScan`. */
  function PerformNmap(target: string, key: string, scannerFault: Option<string>,
                       scan: (string, string) -> ScanOutcome): (c: ScanCall)
    ensures c.Escaped? <==> scannerFault.Some?
    ensures scannerFault.Some? ==> c == Escaped(scannerFault.value)
    ensures scannerFault.None? ==> c == Returned(NmapScan(target, key, scan))
  {
    match scannerFault
    case Some(error) => Escaped(error)
    case None => Returned(NmapScan(target, key, scan))
  }

  /** A scanner that cannot be constructed decides the call alone: its exception
      escapes whatever the scan type, so even an unknown type gets no
      `Invalid scan type` answer, and the engine is never run. */
  lemma ScannerFaultPrecedesLookup(target: string, key1: string, key2: string, fault: string,
                                   s1: (string, string) -> ScanOutcome,
                                   s2: (string, string) -> ScanOutcome)
    ensures PerformNmap(target, key1, Some(fault), s1) == PerformNmap(target, key2, Some(fault), s2)
    ensures PerformNmap(target, key1, Some(fault), s1) == Escaped(fault)
  {
  }

  /** The missing-program case never reaches the `except nmap.PortScannerError`
      clause whose message asks whether Nmap is installed: with the program missing,
      a valid scan type ends in an escaping exception and no envelope at all. */
  lemma MissingProgramGetsNoInstallHint(scan: (string, string) -> ScanOutcome)
    ensures var fault := "nmap program was not found in path";
            var c := PerformNmap("192.0.2.1", "quick_scan", Some(fault), scan);
            c == Escaped(fault) && !c.Returned?
  {
  }

  /** `perform_nmap_scan` with the scanner constructed inside the `try`, after the
      scan type is checked: a constructor `PortScannerError` is then answered with the
      install hint like any other `PortScannerError`. */
  function GuardedNmapScan(target: string, key: string, scannerFault: Option<string>,
                           scan: (string, string) -> ScanOutcome): (e: Envelope)
    ensures ScanArguments(key).None? ==> e == Envelope(None, Some("Invalid scan type: " + key))
    ensures ScanArguments(key).Some? && scannerFault.Some? ==>
              e == Envelope(None, Some("Nmap error: " + scannerFault.value + InstallHint))
    ensures scannerFault.None? ==> e == NmapScan(target, key, scan)
  {
    if ScanArguments(key).None? then Envelope(None, Some("Invalid scan type: " + key))
    else if scannerFault.Some? then Envelope(None, Some("Nmap error: " + scannerFault.value + InstallHint))
    else NmapScan(target, key, scan)
  }

  /** The guarded scan always returns an envelope, reports through stderr whenever
      it has no stdout, and agrees with the code as written wherever the scanner
      could be constructed. */
  lemma GuardedScanNeverEscapes(target: string, key: string, scannerFault: Option<string>,
                                scan: (string, string) -> ScanOutcome)
    ensures var e := GuardedNmapScan(target, key, scannerFault, scan);
            e.stdout.None? ==> e.stderr.Some?
    ensures PerformNmap(target, key, scannerFault, scan).Escaped? <==> scannerFault.Some?
    ensures scannerFault.None? ==>
              PerformNmap(target, key, scannerFault, scan) == Returned(GuardedNmapScan(target, key, scannerFault, scan))
  {
  }

  /** `perform_nmap_scan` as the program runs it: construct the scanner, look the
      scan type up, run the engine once, build the report and fall back when it is
      empty. */
  method PerformNmapScan(target: string, key: string, scannerFault: Option<string>,
                         scan: (string, string) -> ScanOutcome)
    returns (c: ScanCall)
    ensures c == PerformNmap(target, key, scannerFault, scan)
  {
    if scannerFault.Some? {
      return Escaped(scannerFault.value);
    }
    var arguments := ScanArguments(key);
    if arguments.None? {
      return Returned(Envelope(None, Some("Invalid scan type: " + key)));
    }
    var outcome := scan(target, arguments.value);
    var e: Envelope;
    match outcome {
      case Hosts(hosts, csv) =>
        var report := BuildReport(hosts);
        if report == "" {
          e := Envelope(Some(csv), Some(NoResultsNote));
        } else {
          e := Envelope(Some(report), None);
        }
      case PortScannerError(msg) =>
        e := Envelope(None, Some("Nmap error: " + msg + InstallHint));
      case OtherError(msg) =>
        e := Envelope(None, Some(UnexpectedPrefix + msg));
    }
    c := Returned(e);
  }
}
