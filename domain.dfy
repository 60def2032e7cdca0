/** `run_domain_scan` (netiV3/app/logic.py): subdomain enumeration behind a
    two-way dispatch on the scan type. */
module Domain {
  import opened Wrappers
  import opened Json

  /** What `sublist3r.main(domain, threads, ...)` returned or raised (its `str(e)`). */
  datatype EnumOutcome = Subdomains(found: seq<string>) | EnumRaised(msg: string)

  /** The thread count the enumeration engine is run with. */
  const EnumThreads: nat := 40
  const UnsupportedDomainScan := "Unsupported scan type for domain."

  /** `run_domain_scan`; `scanType` is `None` when the request carried none. */
  function RunDomainScan(targetDomain: string, scanType: Option<string>,
                         enumerate: (string, nat) -> EnumOutcome): (r: map<string, Value>)
    ensures scanType != Some("subdomain_enum") ==> r == ErrorDict(UnsupportedDomainScan)
    ensures scanType == Some("subdomain_enum") ==>
              match enumerate(targetDomain, EnumThreads)
              case Subdomains(found) => r == CompletedDict("results", Strings(found))
              case EnumRaised(msg) => r == ErrorDict(msg)
    ensures IsCompleted(r) <==>
              scanType == Some("subdomain_enum") && enumerate(targetDomain, EnumThreads).Subdomains?
  {
    if scanType == Some("subdomain_enum") then
      match enumerate(targetDomain, EnumThreads)
      case Subdomains(found) => CompletedDict("results", Strings(found))
      case EnumRaised(msg) => ErrorDict(msg)
    else ErrorDict(UnsupportedDomainScan)
  }

  /** Any other scan type never runs the engine. */
  lemma OtherScanTypesNeverEnumerate(targetDomain: string, scanType: Option<string>,
                                     e1: (string, nat) -> EnumOutcome,
                                     e2: (string, nat) -> EnumOutcome)
    requires scanType != Some("subdomain_enum")
    ensures RunDomainScan(targetDomain, scanType, e1) == RunDomainScan(targetDomain, scanType, e2)
  {
  }

  /** The worked example: a stub engine finding two subdomains, then an unsupported
      scan type. */
  lemma ExampleDotCom(enumerate: (string, nat) -> EnumOutcome)
    requires enumerate("example.com", 40) == Subdomains(["a.example.com", "b.example.com"])
    ensures RunDomainScan("example.com", Some("subdomain_enum"), enumerate)
         == map["status" := Str("completed"), "results" := Strings(["a.example.com", "b.example.com"])]
    ensures RunDomainScan("example.com", Some("port_enum"), enumerate)
         == map["status" := Str("error"), "message" := Str("Unsupported scan type for domain.")]
  {
  }
}
