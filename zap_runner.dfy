/** The ZAP scanner (zap_runner.py): how a ZAP JSON report becomes a list of alerts filtered
    by severity, the report file written for it, the command that runs ZAP in Docker, and how
    one scan ends: an error for an empty URL, a `ScanError` when no report appeared, or the
    alerts of level `high`. The Docker process itself is outside the model: whether the report
    appeared, its parsed text and the captured streams are parameters. */
module ZapRunner {
  import opened Outcomes
  import opened Json
  import opened Text
  import opened BaseRunner

  /** Seconds ZAP is allowed to scan. */
  const TimeLimit: nat := 300
  /** Seconds the runner waits for the process before interrupting it. */
  const WaitTimeout: nat := TimeLimit + 60
  const DockerPath: string := "/usr/bin/docker"
  const ZapImage: string := "ghcr.io/zaproxy/zaproxy:stable"
  /** The report file ZAP writes inside the mounted work directory. */
  const ReportName: string := "zap-report.json"
  const EmptyUrlMessage: string := "target_url must be a non-empty string"
  const NoReportMessage: string := "ZAP JSON report was not produced"

  datatype ZapScanType = Base | Full | Api

  // ---------------------------------------------------------------------------
  // Command line

  /** `_ZAP_SCRIPT`: the packaged ZAP script for each kind of scan. */
  function ZapScript(scanType: ZapScanType): (r: string)
    ensures |r| >= 15 && r[..4] == "zap-"
    ensures scanType == Full ==> r == "zap-full-scan.py"
    ensures scanType == Base ==> r == "zap-baseline.py"
    ensures scanType == Api ==> r == "zap-api-scan.py"
  {
    match scanType
    case Full => "zap-full-scan.py"
    case Base => "zap-baseline.py"
    case Api => "zap-api-scan.py"
  }

  /** Each kind of scan runs its own script. */
  lemma ZapScriptInjective(a: ZapScanType, b: ZapScanType)
    requires ZapScript(a) == ZapScript(b)
    ensures a == b
  {
    if a != b {
      assert false;
    }
  }

  /** The arguments given to the ZAP script: the scan limit in whole minutes, the target
      URL as one argument, and the JSON report name. */
  function ZapCommandLine(scanType: ZapScanType, url: string): (r: seq<string>)
    ensures |r| == 7 && r[0] == ZapScript(scanType) && r[4] == url && r[6] == ReportName
    ensures r[1] == "-m" && r[3] == "-t" && r[5] == "-J"
    ensures r[2] == "5" && AllDigits(r[2]) && DecimalValue(r[2]) * 60 == TimeLimit
    ensures DecimalValue(r[2]) * 60 + 60 == WaitTimeout
  {
    var minutes := DecimalString(TimeLimit / 60);
    DecimalRoundTrip(TimeLimit / 60);
    [ZapScript(scanType), "-m", minutes, "-t", url, "-J", ReportName]
  }

  /** The Docker invocation: a throw-away container of the stable ZAP image, limited to
      2 GB and one CPU, with the work directory mounted where ZAP writes its report. */
  function DockerRunCommand(workdir: string, scanType: ZapScanType, url: string): (r: seq<string>)
    ensures |r| == 15 && r[0] == DockerPath && r[1] == "run" && r[2] == "--rm"
    ensures r[3] == "--volume" && r[4] == workdir + ":/zap/wrk"
    ensures r[5] == "--memory=2g" && r[6] == "--cpus=1" && r[7] == ZapImage
    ensures r[8..] == ZapCommandLine(scanType, url)
  {
    [DockerPath, "run", "--rm", "--volume", workdir + ":/zap/wrk", "--memory=2g", "--cpus=1", ZapImage]
      + ZapCommandLine(scanType, url)
  }

  /** `_pull_docker_image`: the command that fetches the image. */
  function DockerPullCommand(image: string): (r: seq<string>)
    ensures |r| == 3 && r[0] == DockerPath && r[1] == "pull" && r[2] == image
  {
    [DockerPath, "pull", image]
  }

  // ---------------------------------------------------------------------------
  // Levels and risk codes

  /** The rank of a level, from informational to high. */
  function Severity(level: AlertLevel): nat {
    match level
    case Info => 0
    case Low => 1
    case Medium => 2
    case High => 3
  }

  /** `_LEVELS_MAPPING`: the ZAP risk code of a level is its rank as one decimal digit. */
  function LevelCode(level: AlertLevel): (code: string)
    ensures |code| == 1 && IsDigit(code[0]) && DigitValue(code[0]) == Severity(level)
  {
    match level
    case Info => "0"
    case Low => "1"
    case Medium => "2"
    case High => "3"
  }

  /** All risk codes ZAP reports. */
  const AllRiskCodes: set<string> := {"0", "1", "2", "3"}

  /** Distinct levels have distinct codes, and the codes are exactly ZAP's risk codes. */
  lemma LevelCodesAreRiskCodes()
    ensures forall a: AlertLevel, b: AlertLevel :: LevelCode(a) == LevelCode(b) ==> a == b
    ensures forall c :: c in AllRiskCodes <==> exists l: AlertLevel :: LevelCode(l) == c
  {
    assert LevelCode(Info) == "0" && LevelCode(Low) == "1";
    assert LevelCode(Medium) == "2" && LevelCode(High) == "3";
  }

  /** The risk codes an alert must carry to be kept: those of the requested levels, or
      every risk code when no level was requested. */
  function ZapLevels(levels: seq<AlertLevel>): (codes: set<string>)
    ensures codes <= AllRiskCodes
    ensures levels != [] ==> forall l :: LevelCode(l) in codes <==> l in levels
    ensures levels == [] ==> codes == AllRiskCodes
  {
    LevelCodesAreRiskCodes();
    if levels != [] then set l | l in levels :: LevelCode(l) else AllRiskCodes
  }

  // ---------------------------------------------------------------------------
  // Alert filtering

  /** The reading of the filter that cannot fail: an alert object whose `riskcode` is a
      string among the codes. */
  predicate HasCodeIn(alert: Json, codes: set<string>) {
    alert.JObject? &&
    match Lookup(alert.members, "riskcode")
    case Some(JString(s)) => s in codes
    case _ => false
  }

  /** An alert the filter can test without raising: an object with a `riskcode` that is
      neither a list nor a dict. */
  predicate Testable(alert: Json) {
    alert.JObject? &&
    match Lookup(alert.members, "riskcode")
    case Some(v) => !v.JArray? && !v.JObject?
    case None => false
  }

  /** `alert['riskcode'] in zap_levels` */
  function Matches(alert: Json, codes: set<string>): (r: Outcome<bool>)
    ensures r == Ok(true) <==> HasCodeIn(alert, codes)
    ensures r.Ok? <==> Testable(alert)
    ensures !alert.JObject? ==> r == Raised(TypeError)
    ensures alert.JObject? && Lookup(alert.members, "riskcode").None? ==> r == Raised(KeyError("riskcode"))
    ensures alert.JObject? && Lookup(alert.members, "riskcode").Some?
            && (Lookup(alert.members, "riskcode").value.JArray? || Lookup(alert.members, "riskcode").value.JObject?) ==>
              r == Raised(TypeError)
  {
    var code :- Subscript(alert, "riskcode");
    InStrings(code, codes)
  }

  /** The alerts carrying one of the codes, in their original order. */
  function Filter(alerts: seq<Json>, codes: set<string>): (r: seq<Json>)
    ensures forall a :: a in r <==> a in alerts && HasCodeIn(a, codes)
    ensures |r| <= |alerts|
  {
    if alerts == [] then []
    else
      var init := alerts[..|alerts| - 1];
      var last := alerts[|alerts| - 1];
      assert alerts == init + [last];
      if HasCodeIn(last, codes) then Filter(init, codes) + [last] else Filter(init, codes)
  }

  /** ys keeps some of the elements of xs, in their order. */
  predicate IsSubsequence<T(==)>(ys: seq<T>, xs: seq<T>)
    decreases |xs|
  {
    ys == [] ||
    (xs != [] &&
     ((ys[|ys| - 1] == xs[|xs| - 1] && IsSubsequence(ys[..|ys| - 1], xs[..|xs| - 1])) ||
      IsSubsequence(ys, xs[..|xs| - 1])))
  }

  /** Filtering keeps the surviving alerts in their original order. */
  lemma {:induction false} FilterIsSubsequence(alerts: seq<Json>, codes: set<string>)
    ensures IsSubsequence(Filter(alerts, codes), alerts)
  {
    if alerts != [] {
      var init := alerts[..|alerts| - 1];
      FilterIsSubsequence(init, codes);
      var f := Filter(init, codes);
      if HasCodeIn(alerts[|alerts| - 1], codes) {
        assert (f + [alerts[|alerts| - 1]])[..|f|] == f;
      }
    }
  }

  /** Filtering a concatenation filters each part. */
  lemma {:induction false} FilterAppend(xs: seq<Json>, ys: seq<Json>, codes: set<string>)
    ensures Filter(xs + ys, codes) == Filter(xs, codes) + Filter(ys, codes)
  {
    if ys != [] {
      var init, last := ys[..|ys| - 1], ys[|ys| - 1];
      assert (xs + ys)[..|xs + ys| - 1] == xs + init;
      assert (xs + ys)[|xs + ys| - 1] == last;
      FilterAppend(xs, init, codes);
      if HasCodeIn(last, codes) {
        assert Filter(xs + ys, codes) == Filter(xs + init, codes) + [last];
        assert Filter(ys, codes) == Filter(init, codes) + [last];
        assert Filter(xs, codes) + Filter(init, codes) + [last] == Filter(xs, codes) + (Filter(init, codes) + [last]);
      } else {
        assert Filter(xs + ys, codes) == Filter(xs + init, codes);
        assert Filter(ys, codes) == Filter(init, codes);
      }
    } else {
      assert xs + ys == xs;
    }
  }

  /** The list comprehension over one site's alerts: each is tested in turn and the first
      test that raises ends the comprehension. */
  function KeptAlerts(alerts: seq<Json>, codes: set<string>): (r: Outcome<seq<Json>>)
    ensures r.Ok? <==> forall a :: a in alerts ==> Testable(a)
    ensures r.Ok? ==> r.value == Filter(alerts, codes)
    ensures r.Raised? ==> exists i :: 0 <= i < |alerts| && !Testable(alerts[i])
                                      && (forall j :: 0 <= j < i ==> Testable(alerts[j]))
                                      && r == Raised(Matches(alerts[i], codes).exc)
  {
    if alerts == [] then Ok([])
    else
      var init := alerts[..|alerts| - 1];
      var last := alerts[|alerts| - 1];
      assert alerts == init + [last];
      var kept :- KeptAlerts(init, codes);
      var keep :- Matches(last, codes);
      Ok(if keep then kept + [last] else kept)
  }

  /** `site['alerts']`, iterated. */
  function SiteItems(site: Json): Outcome<seq<Json>> {
    var alerts :- Subscript(site, "alerts");
    Iterate(alerts)
  }

  /** One site's contribution to the alert list. */
  function SiteAlerts(site: Json, codes: set<string>): (r: Outcome<seq<Json>>)
    ensures r.Ok? <==> SiteItems(site).Ok? && forall a :: a in SiteItems(site).value ==> Testable(a)
    ensures r.Ok? ==> r.value == Filter(SiteItems(site).value, codes)
    ensures SiteItems(site).Raised? ==> r == Raised(SiteItems(site).exc)
  {
    var items :- SiteItems(site);
    KeptAlerts(items, codes)
  }

  /** What each site contributed to the alert list, or raised. */
  function SiteOutcomes(sites: seq<Json>, codes: set<string>): (r: seq<Outcome<seq<Json>>>)
    ensures |r| == |sites| && forall i :: 0 <= i < |sites| ==> r[i] == SiteAlerts(sites[i], codes)
  {
    seq(|sites|, i requires 0 <= i < |sites| => SiteAlerts(sites[i], codes))
  }

  /** The alerts kept across sites: each site's kept alerts in site order; the first site
      whose alerts cannot be read or tested ends the collection with its exception. */
  function CollectAlerts(sites: seq<Json>, codes: set<string>): (r: Outcome<seq<Json>>)
    ensures r.Ok? <==> forall i :: 0 <= i < |sites| ==> SiteAlerts(sites[i], codes).Ok?
    ensures r.Ok? ==> forall a :: a in r.value ==> HasCodeIn(a, codes)
  {
    var outs := SiteOutcomes(sites, codes);
    if Flatten(outs).Raised? then Flatten(outs)
    else
      FlattenMembers(outs);
      Flatten(outs)
  }

  /** `self._raw['site']`, iterated, and the alerts collected from every site. */
  function ZapAlerts(raw: Json, codes: set<string>): Outcome<seq<Json>> {
    var siteList :- Subscript(raw, "site");
    var sites :- Iterate(siteList);
    CollectAlerts(sites, codes)
  }

  /** What a `ZapScanResult` holds beyond the shared scan fields: the kept alerts. */
  datatype ZapScanResult = ZapScanResult(base: ScanResult, alerts: seq<Json>)

  /** The `ZapScanResult` the constructor builds, or the exception it raises. */
  function ZapResultOf(url: string, raw: Json, levels: seq<AlertLevel>): Outcome<ZapScanResult> {
    var alerts :- ZapAlerts(raw, ZapLevels(levels));
    Ok(ZapScanResult(NewScanResult("zap", url, raw, levels), alerts))
  }

  /** `ZapScanResult.__init__`: the base fields, then the site list read from the report and
      the alerts of each site extended in turn. */
  method NewZapScanResult(url: string, raw: Json, levels: seq<AlertLevel>) returns (r: Outcome<ZapScanResult>)
    ensures r == ZapResultOf(url, raw, levels)
  {
    var base := NewScanResult("zap", url, raw, levels);
    var codes := ZapLevels(levels);
    var siteList :- Subscript(raw, "site");
    var sites :- Iterate(siteList);
    var alerts :- ExtendSiteAlerts(sites, codes);
    CollectAlertsIsFlatten(sites, codes);
    r := Ok(ZapScanResult(base, alerts));
  }

  /** The alerts collected across sites are the site contributions, flattened. */
  lemma CollectAlertsIsFlatten(sites: seq<Json>, codes: set<string>)
    ensures CollectAlerts(sites, codes) == Flatten(SiteOutcomes(sites, codes))
  {
  }

  /** The loop of `ZapScanResult.__init__`: each site's kept alerts appended in turn; the
      first site that raises ends the loop. */
  method ExtendSiteAlerts(sites: seq<Json>, codes: set<string>) returns (r: Outcome<seq<Json>>)
    ensures r == Flatten(SiteOutcomes(sites, codes))
  {
    ghost var outs := SiteOutcomes(sites, codes);
    var alerts: seq<Json> := [];
    for i := 0 to |sites|
      invariant Flatten(outs[..i]) == Ok(alerts)
    {
      var kept := SiteAlerts(sites[i], codes);
      assert kept == outs[i];
      FlattenStep(outs, i, alerts);
      if kept.Raised? {
        return Raised(kept.exc);
      }
      alerts := alerts + kept.value;
    }
    assert outs[..|sites|] == outs;
    r := Ok(alerts);
  }

  // ---------------------------------------------------------------------------
  // Well-formed reports

  /** A site as ZAP writes it: an object whose `alerts` is a list of testable alerts. */
  predicate WellFormedSite(site: Json) {
    site.JObject? &&
    match Lookup(site.members, "alerts")
    case Some(JArray(items)) => forall a :: a in items ==> Testable(a)
    case _ => false
  }

  /** The alert list of a well-formed site. */
  function SiteAlertList(site: Json): seq<Json>
    requires WellFormedSite(site)
  {
    Lookup(site.members, "alerts").value.items
  }

  /** Every alert of every site, in report order. */
  function AllAlerts(sites: seq<Json>): seq<Json>
    requires forall s :: s in sites ==> WellFormedSite(s)
  {
    if sites == [] then [] else AllAlerts(sites[..|sites| - 1]) + SiteAlertList(sites[|sites| - 1])
  }

  /** A well-formed site's alerts can be read and tested without raising. */
  lemma WellFormedSiteAlerts(site: Json, codes: set<string>)
    requires WellFormedSite(site)
    ensures SiteItems(site) == Ok(SiteAlertList(site))
    ensures SiteAlerts(site, codes) == Ok(Filter(SiteAlertList(site), codes))
  {
  }

  /** On well-formed sites nothing raises and the kept alerts are the filter of all alerts. */
  lemma {:induction false} CollectWellFormed(sites: seq<Json>, codes: set<string>)
    requires forall s :: s in sites ==> WellFormedSite(s)
    ensures CollectAlerts(sites, codes) == Ok(Filter(AllAlerts(sites), codes))
  {
    if sites != [] {
      var init := sites[..|sites| - 1];
      var last := sites[|sites| - 1];
      assert forall s :: s in init ==> s in sites;
      CollectWellFormed(init, codes);
      assert SiteOutcomes(sites, codes)[..|sites| - 1] == SiteOutcomes(init, codes);
      WellFormedSiteAlerts(last, codes);
      FilterAppend(AllAlerts(init), SiteAlertList(last), codes);
    }
  }

  /** A report as ZAP writes it: an object whose `site` is a list of well-formed sites. */
  predicate WellFormedReport(raw: Json) {
    raw.JObject? &&
    match Lookup(raw.members, "site")
    case Some(JArray(sites)) => forall s :: s in sites ==> WellFormedSite(s)
    case _ => false
  }

  /** The sites of a well-formed report. */
  function ReportSites(raw: Json): seq<Json>
    requires WellFormedReport(raw)
  {
    Lookup(raw.members, "site").value.items
  }

  /** For a well-formed report the kept alerts are, in order, exactly those alerts whose
      risk code is the code of a requested level (of any level when none is requested). */
  lemma ZapResultOfWellFormed(url: string, raw: Json, levels: seq<AlertLevel>)
    requires WellFormedReport(raw)
    ensures ZapResultOf(url, raw, levels).Ok?
    ensures var alerts := ZapResultOf(url, raw, levels).value.alerts;
      && alerts == Filter(AllAlerts(ReportSites(raw)), ZapLevels(levels))
      && IsSubsequence(alerts, AllAlerts(ReportSites(raw)))
  {
    var sites := ReportSites(raw);
    CollectWellFormed(sites, ZapLevels(levels));
    FilterIsSubsequence(AllAlerts(sites), ZapLevels(levels));
  }

  /** An alert survives exactly when it carries the code of a requested level. */
  lemma KeptIffRequestedLevel(alerts: seq<Json>, levels: seq<AlertLevel>, a: Json)
    requires levels != []
    ensures a in Filter(alerts, ZapLevels(levels)) <==>
              a in alerts && exists l :: l in levels && HasCodeIn(a, {LevelCode(l)})
  {
    var codes := ZapLevels(levels);
    if a in alerts && HasCodeIn(a, codes) {
      var c := Lookup(a.members, "riskcode").value.s;
      LevelCodesAreRiskCodes();
      var l :| LevelCode(l) == c;
      assert l in levels && HasCodeIn(a, {LevelCode(l)});
    }
  }

  /** With no level requested an alert survives exactly when its risk code is one of
      ZAP's four codes; any other code is still dropped. */
  lemma NoLevelsKeepsRiskCodes(alerts: seq<Json>, a: Json)
    ensures a in Filter(alerts, ZapLevels([])) <==> a in alerts && HasCodeIn(a, AllRiskCodes)
  {
  }

  /** A report without a `site` member makes the constructor raise `KeyError('site')`. */
  lemma MissingSitesRaise(url: string, members: seq<(string, Json)>, levels: seq<AlertLevel>)
    requires forall i :: 0 <= i < |members| ==> members[i].0 != "site"
    ensures ZapResultOf(url, JObject(members), levels) == Raised(KeyError("site"))
  {
  }

  // ---------------------------------------------------------------------------
  // Report and scan outcome

  /** `ZapScanResult.write_report`: nothing when no alert survived, otherwise the alert list
      under a name built from `zap` and the URL. */
  function ZapWriteReport(z: ZapScanResult, suffix: int): (r: Option<ReportFile>)
    requires MinSuffix <= suffix <= MaxSuffix
    ensures r.None? <==> z.alerts == []
    ensures r.Some? ==> r.value.content == Alerts(z.alerts)
    ensures r.Some? ==> r.value.name == MakeReportFilename(z.base.scanner, z.base.url, suffix)
  {
    if z.alerts == [] then None
    else Some(ReportFile(MakeReportFilename(z.base.scanner, z.base.url, suffix), Alerts(z.alerts)))
  }

  /** How one captured stream is shown in a `ScanError`: its name and `None` when it is
      absent, its name and then its text, verbatim, on the next line otherwise. */
  function StreamReport(name: string, stream: Option<string>): (r: string)
    ensures |r| > |name| && r[..|name| + 1] == name + ":"
    ensures stream.None? ==> r[|name| + 1..] == " None"
    ensures stream.Some? ==> r[|name| + 1..] == "\n" + stream.value
  {
    match stream
    case None => name + ": None"
    case Some(text) => name + ":\n" + text
  }

  /** How a scan ended: the kept alerts, or an error with the process output. */
  datatype ZapOutcome = Found(result: ZapScanResult) | Failed(error: ScanError)

  /** How `zap_scan` ends, given what the process left behind: `report` is `None` when ZAP
      produced no report and the result of parsing it otherwise; `stdout` and `stderr` are
      what the process printed, if anything. */
  function ScanOutcome(url: string, report: Option<Outcome<Json>>, stdout: Option<string>,
                       stderr: Option<string>): (r: Outcome<ZapOutcome>)
    ensures url == [] ==> r == Raised(ValueError(EmptyUrlMessage))
    ensures url != [] && report.None? ==>
              r == Ok(Failed(ScanError("zap", url, NoReportMessage,
                                       StreamReport("stderr", stderr) + "\n" + StreamReport("stdout", stdout))))
    ensures url != [] && report.Some? && report.value.Raised? ==> r == Raised(report.value.exc)
    ensures r.Ok? && r.value.Found? ==>
              url != [] && report.Some? && report.value.Ok?
              && ZapResultOf(url, report.value.value, [High]) == Ok(r.value.result)
    ensures url != [] && report.Some? && report.value.Ok? && ZapResultOf(url, report.value.value, [High]).Ok? ==>
              r == Ok(Found(ZapResultOf(url, report.value.value, [High]).value))
    ensures url != [] && report.Some? && report.value.Ok? && ZapResultOf(url, report.value.value, [High]).Raised? ==>
              r == Raised(ZapResultOf(url, report.value.value, [High]).exc)
  {
    if url == [] then Raised(ValueError(EmptyUrlMessage))
    else if report.None? then
      Ok(Failed(ScanError("zap", url, NoReportMessage,
                          StreamReport("stderr", stderr) + "\n" + StreamReport("stdout", stdout))))
    else
      var raw :- report.value;
      var z :- ZapResultOf(url, raw, [High]);
      Ok(Found(z))
  }

  /** `zap_scan`: the commands it runs and how it ends. An empty URL raises before any
      command; the image is pulled only when this process has not pulled it yet. */
  method ZapScan(url: string, scanType: ZapScanType, imagePulled: bool, workdir: string,
                 report: Option<Outcome<Json>>, stdout: Option<string>, stderr: Option<string>)
    returns (commands: seq<seq<string>>, r: Outcome<ZapOutcome>)
    ensures url == [] ==> commands == []
    ensures url != [] ==>
              commands == (if imagePulled then [] else [DockerPullCommand(ZapImage)])
                          + [DockerRunCommand(workdir, scanType, url)]
    ensures r == ScanOutcome(url, report, stdout, stderr)
  {
    if url == [] {
      return [], Raised(ValueError(EmptyUrlMessage));
    }
    commands := if imagePulled then [] else [DockerPullCommand(ZapImage)];
    commands := commands + [DockerRunCommand(workdir, scanType, url)];
    if report.None? {
      var output := StreamReport("stderr", stderr) + "\n" + StreamReport("stdout", stdout);
      return commands, Ok(Failed(ScanError("zap", url, NoReportMessage, output)));
    }
    if report.value.Raised? {
      return commands, Raised(report.value.exc);
    }
    var z := NewZapScanResult(url, report.value.value, [High]);
    if z.Raised? {
      return commands, Raised(z.exc);
    }
    r := Ok(Found(z.value));
  }

  /** A scan that found a report keeps only alerts of risk code `3` (high). */
  lemma FoundAlertsAreHigh(url: string, raw: Json, a: Json)
    requires ZapResultOf(url, raw, [High]).Ok?
    requires a in ZapResultOf(url, raw, [High]).value.alerts
    ensures HasCodeIn(a, {"3"})
  {
    var codes := ZapLevels([High]);
    assert a in ZapAlerts(raw, codes).value;
    assert HasCodeIn(a, codes);
    HighOnlyCodes();
  }

  /** Asking for high alerts only selects risk code `3`. */
  lemma HighOnlyCodes()
    ensures ZapLevels([High]) == {"3"}
  {
    assert ZapLevels([High]) == {LevelCode(High)};
  }
}
