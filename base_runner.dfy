/** Result types shared by all scanners and the report file naming (base_runner.py).
    Writing a report is modelled as returning the file name and the content that
    would be written; the directory it goes to and the write itself are left to the caller. */
module BaseRunner {
  import opened Outcomes
  import opened Json
  import opened Text

  /** The alert levels a caller may ask a scanner to report. */
  datatype AlertLevel = Info | Low | Medium | High

  /** `BaseScanResult.__repr__`: the scanner, a colon, and the URL. */
  function BaseRepr(scanner: string, url: string): (r: string)
    ensures |r| == |scanner| + |url| + 2
    ensures r[..|scanner|] == scanner && r[|scanner|..] == ": " + url
  {
    scanner + ": " + url
  }

  /** The fields a successful scan stores; the requested levels are kept as a set. */
  datatype ScanResult = ScanResult(scanner: string, url: string, raw: Json, levels: set<AlertLevel>)

  /** `ScanResult.__init__`: duplicates among the requested levels collapse. */
  function NewScanResult(scanner: string, url: string, raw: Json, levels: seq<AlertLevel>): (r: ScanResult)
    ensures r.scanner == scanner && r.url == url && r.raw == raw
    ensures forall l :: l in r.levels <==> l in levels
    ensures |r.levels| <= |levels|
  {
    LevelSetSize(levels);
    ScanResult(scanner, url, raw, set l | l in levels)
  }

  lemma {:induction false} LevelSetSize(levels: seq<AlertLevel>)
    ensures |set l | l in levels| <= |levels|
  {
    if levels != [] {
      var rest := levels[1..];
      LevelSetSize(rest);
      assert (set l | l in levels) == (set l | l in rest) + {levels[0]};
    }
  }

  /** A failed scan: what went wrong and the raw process output kept for a postmortem. */
  datatype ScanError = ScanError(scanner: string, url: string, message: string, output: string)

  /** `ScanError.__repr__`: the base representation followed by the message in parentheses. */
  function ErrorRepr(e: ScanError): (r: string)
    ensures |r| == |e.scanner| + |e.url| + |e.message| + 5
    ensures r[..|e.scanner| + |e.url| + 2] == BaseRepr(e.scanner, e.url)
    ensures r[|e.scanner| + |e.url| + 2..] == " (" + e.message + ")"
  {
    BaseRepr(e.scanner, e.url) + " (" + e.message + ")"
  }

  /** What a report file holds: raw text, or a list of alerts serialised as JSON. */
  datatype ReportContent = PlainText(text: string) | Alerts(alerts: seq<Json>)

  /** A report file that `write_report` creates, named relative to the report folder. */
  datatype ReportFile = ReportFile(name: string, content: ReportContent)

  /** `ScanError.write_report`: always writes the captured output, verbatim, to a file
      named after `<scanner>-error` and the URL. */
  function ErrorWriteReport(e: ScanError, suffix: int): (r: Option<ReportFile>)
    requires MinSuffix <= suffix <= MaxSuffix
    ensures r.Some? && r.value.content == PlainText(e.output)
    ensures r.value.name == MakeReportFilename(e.scanner + "-error", e.url, suffix)
  {
    Some(ReportFile(MakeReportFilename(e.scanner + "-error", e.url, suffix), PlainText(e.output)))
  }

  // ---------------------------------------------------------------------------
  // make_report_filename

  /** Characters that may not appear in the URL part of a report file name (`:/\*?+`). */
  const UnwantedSymbols: set<char> := {':', '/', '\\', '*', '?', '+'}
  /** The arguments of the two `lstrip` calls, `'https://'` and `'http://'`, as the
      character sets they stand for. */
  const HttpsChars: set<char> := {'h', 't', 'p', 's', ':', '/'}
  const HttpChars: set<char> := {'h', 't', 'p', ':', '/'}
  /** Longest URL part kept without truncation. */
  const MaxUrlPart: nat := 200
  /** `random.randrange(1, 99999)` picks from 1 to 99998. */
  const MinSuffix: int := 1
  const MaxSuffix: int := 99998

  /** How many characters at the front of s belong to chars: the longest such run. */
  function LeadingRun(s: string, chars: set<char>): (k: nat)
    ensures k <= |s|
    ensures forall i :: 0 <= i < k ==> s[i] in chars
    ensures k < |s| ==> s[k] !in chars
  {
    if s != [] && s[0] in chars then
      var k := 1 + LeadingRun(s[1..], chars);
      assert forall i :: 1 <= i < k ==> s[i] == s[1..][i - 1];
      k
    else
      0
  }

  /** How many characters at the back of s belong to chars: the longest such run. */
  function TrailingRun(s: string, chars: set<char>): (k: nat)
    ensures k <= |s|
    ensures forall i :: |s| - k <= i < |s| ==> s[i] in chars
    ensures k < |s| ==> s[|s| - k - 1] !in chars
  {
    if s != [] && s[|s| - 1] in chars then
      var k := 1 + TrailingRun(s[..|s| - 1], chars);
      assert forall i :: |s| - k <= i < |s| - 1 ==> s[i] == s[..|s| - 1][i];
      k
    else
      0
  }

  /** `str.lstrip(chars)`: chars is a set of characters, not a prefix. */
  function LStrip(s: string, chars: set<char>): string {
    s[LeadingRun(s, chars)..]
  }

  /** `str.rstrip(chars)` */
  function RStrip(s: string, chars: set<char>): string {
    s[..|s| - TrailingRun(s, chars)]
  }

  predicate IsUnwanted(c: char) {
    c in UnwantedSymbols
  }

  /** No character of s is an unwanted symbol. */
  predicate Clean(s: string) {
    forall i :: 0 <= i < |s| ==> !IsUnwanted(s[i])
  }

  /** `str.translate` with every unwanted symbol mapped to `_`. */
  function Translate(s: string): (r: string)
    ensures |r| == |s| && Clean(r)
    ensures forall i :: 0 <= i < |s| && !IsUnwanted(s[i]) ==> r[i] == s[i]
    ensures forall i :: 0 <= i < |s| && IsUnwanted(s[i]) ==> r[i] == '_'
  {
    seq(|s|, i requires 0 <= i < |s| => if IsUnwanted(s[i]) then '_' else s[i])
  }

  /** The URL after both `lstrip` calls and `rstrip('/')`: the piece of the URL that
      follows its leading run of `h`, `t`, `p`, `s`, `:`, `/` and precedes its trailing
      run of `/`. */
  function StrippedUrl(url: string): (r: string)
    ensures var k := LeadingRun(url, HttpsChars);
      && k + |r| <= |url|
      && (forall i :: 0 <= i < |r| ==> r[i] == url[k + i])
      && (forall i :: k + |r| <= i < |url| ==> url[i] == '/')
    ensures r != [] ==> r[0] !in HttpsChars && r[|r| - 1] != '/'
  {
    SecondStripIsNoop(url);
    RStrip(LStrip(LStrip(url, HttpsChars), HttpChars), {'/'})
  }

  /** The truncation step: a part longer than 200 characters keeps its first 200,
      then `_` and the suffix as five zero-padded digits. */
  function Truncated(t: string, suffix: int): (r: string)
    requires MinSuffix <= suffix <= MaxSuffix
    ensures Clean(t) ==> Clean(r)
    ensures |t| <= MaxUrlPart ==> r == t
    ensures |t| > MaxUrlPart ==>
              && |r| == MaxUrlPart + 6
              && r[..MaxUrlPart] == t[..MaxUrlPart]
              && r[MaxUrlPart] == '_'
              && AllDigits(r[MaxUrlPart + 1..])
              && DecimalValue(r[MaxUrlPart + 1..]) == suffix
  {
    if |t| > MaxUrlPart then
      var digits := ZeroPadded(suffix, 5);
      var r := t[..MaxUrlPart] + "_" + digits;
      assert r[MaxUrlPart + 1..] == digits;
      r
    else
      t
  }

  /** The URL part of a report file name; suffix stands for the random number drawn
      when the sanitised URL is longer than 200 characters. */
  function SanitizedUrl(url: string, suffix: int): (r: string)
    requires MinSuffix <= suffix <= MaxSuffix
    ensures Clean(r) && |r| <= MaxUrlPart + 6
  {
    Truncated(Translate(StrippedUrl(url)), suffix)
  }

  /** `make_report_filename`: the prefix (not sanitised), a dash, the sanitised URL and `.json`. */
  function MakeReportFilename(prefix: string, url: string, suffix: int): (r: string)
    requires MinSuffix <= suffix <= MaxSuffix
    ensures |prefix| + 6 <= |r| <= |prefix| + MaxUrlPart + 12
    ensures r[..|prefix|] == prefix && r[|prefix|] == '-' && r[|r| - 5..] == ".json"
    ensures r[|prefix| + 1..|r| - 5] == SanitizedUrl(url, suffix)
  {
    JsonFileName(prefix, SanitizedUrl(url, suffix))
  }

  /** `f'{prefix}-{part}.json'` */
  function JsonFileName(prefix: string, part: string): (r: string)
    ensures |r| == |prefix| + |part| + 6
    ensures r[..|prefix|] == prefix && r[|prefix|] == '-' && r[|r| - 5..] == ".json"
    ensures r[|prefix| + 1..|r| - 5] == part
  {
    var r := prefix + "-" + part + ".json";
    assert r[|prefix| + 1..|r| - 5] == part;
    r
  }

  // ---------------------------------------------------------------------------
  // Properties of the file name

  /** The second `lstrip('http://')` never removes anything: its characters are all among
      those the first call already stripped. */
  lemma SecondStripIsNoop(url: string)
    ensures LStrip(LStrip(url, HttpsChars), HttpChars) == LStrip(url, HttpsChars)
  {
    var a := LStrip(url, HttpsChars);
    assert LeadingRun(a, HttpChars) == 0 by {
      if a != [] {
        assert a[0] == url[LeadingRun(url, HttpsChars)];
      }
    }
  }

  /** The leading run is the only count with its two defining properties. */
  lemma LeadingRunIs(s: string, chars: set<char>, k: nat)
    requires k <= |s| && (forall i :: 0 <= i < k ==> s[i] in chars)
    requires k < |s| ==> s[k] !in chars
    ensures LeadingRun(s, chars) == k
  {
  }

  /** The trailing run is the only count with its two defining properties. */
  lemma TrailingRunIs(s: string, chars: set<char>, k: nat)
    requires k <= |s| && (forall i :: |s| - k <= i < |s| ==> s[i] in chars)
    requires k < |s| ==> s[|s| - k - 1] !in chars
    ensures TrailingRun(s, chars) == k
  {
  }

  /** Stripping a leading run, a second leading run that is empty, then a trailing run,
      keeps the slice between the two runs. */
  lemma StripsCompose(s: string, front: set<char>, again: set<char>, back: set<char>, k: nat, j: nat)
    requires k <= |s| && LeadingRun(s, front) == k
    requires LStrip(LStrip(s, front), again) == LStrip(s, front)
    requires TrailingRun(s[k..], back) == j
    ensures j <= |s| - k && RStrip(LStrip(LStrip(s, front), again), back) == s[k..|s| - j]
  {
    var rest := LStrip(s, front);
    assert rest == s[k..];
    assert RStrip(rest, back) == rest[..|rest| - j];
    DropThenTake(s, k, j);
  }

  lemma DropThenTake(s: string, k: nat, j: nat)
    requires k + j <= |s|
    ensures s[k..][..|s| - k - j] == s[k..|s| - j]
  {
  }

  /** Stripping cuts the leading run of URL characters, then the trailing run of `/`. */
  lemma StrippedUrlIs(url: string, k: nat, j: nat)
    requires k <= |url| && LeadingRun(url, HttpsChars) == k
    requires TrailingRun(url[k..], {'/'}) == j
    ensures j <= |url| - k && StrippedUrl(url) == url[k..|url| - j]
  {
    SecondStripIsNoop(url);
    StripsCompose(url, HttpsChars, HttpChars, {'/'}, k, j);
  }

  /** A URL that neither starts with a URL character nor ends with `/` is kept whole. */
  lemma BareUrlIsKept(url: string)
    requires url == [] || (url[0] !in HttpsChars && url[|url| - 1] != '/')
    ensures StrippedUrl(url) == url
  {
    LeadingRunIs(url, HttpsChars, 0);
    TrailingRunIs(url, {'/'}, 0);
    StrippedUrlIs(url, 0, 0);
  }

  /** The strip is set-based: the `t` of `tools` goes too. */
  lemma StripIsSetBased()
    ensures StrippedUrl("https://t" + "ools-api.cryptocompare.com" + "/") == "ools-api.cryptocompare.com"
  {
    var rest := "ools-api.cryptocompare.com";
    var u := "https://t" + rest + "/";
    LeadingRunIs(u, HttpsChars, 9);
    TrailingRunIs(u[9..], {'/'}, 1);
    StrippedUrlIs(u, 9, 1);
    assert u[9..|u| - 1] == rest;
  }

  /** Different URLs can share a report name: URLs that differ only in which unwanted
      symbol stands at some positions (`a:b` and `a/b`, say) map to the same file. */
  lemma DistinctUrlsCanShareName(prefix: string, url1: string, url2: string, suffix: int)
    requires MinSuffix <= suffix <= MaxSuffix
    requires |url1| == |url2| > 0
    requires forall i :: 0 <= i < |url1| ==> url1[i] == url2[i] || (IsUnwanted(url1[i]) && IsUnwanted(url2[i]))
    requires url1[0] == url2[0] && url1[0] !in HttpsChars
    requires url1[|url1| - 1] == url2[|url2| - 1] != '/'
    ensures MakeReportFilename(prefix, url1, suffix) == MakeReportFilename(prefix, url2, suffix)
  {
    BareUrlIsKept(url1);
    BareUrlIsKept(url2);
    TranslateMergesUnwanted(url1, url2);
    assert SanitizedUrl(url1, suffix) == SanitizedUrl(url2, suffix);
  }

  /** `str.translate` cannot tell unwanted symbols apart. */
  lemma TranslateMergesUnwanted(s1: string, s2: string)
    requires |s1| == |s2|
    requires forall i :: 0 <= i < |s1| ==> s1[i] == s2[i] || (IsUnwanted(s1[i]) && IsUnwanted(s2[i]))
    ensures Translate(s1) == Translate(s2)
  {
  }

  /** A clean string passes `str.translate` unchanged. */
  lemma TranslateKeepsClean(s: string)
    requires Clean(s)
    ensures Translate(s) == s
  {
  }

  /** A name whose URL part fits in 200 characters does not depend on the random suffix. */
  lemma ShortNameIsDeterministic(prefix: string, url: string, n1: int, n2: int)
    requires MinSuffix <= n1 <= MaxSuffix && MinSuffix <= n2 <= MaxSuffix
    requires |Translate(StrippedUrl(url))| <= MaxUrlPart
    ensures MakeReportFilename(prefix, url, n1) == MakeReportFilename(prefix, url, n2)
  {
  }

  /** A name whose URL part was truncated records the random suffix, so different
      draws give different names. */
  lemma LongNameRecordsSuffix(prefix: string, url: string, n1: int, n2: int)
    requires MinSuffix <= n1 <= MaxSuffix && MinSuffix <= n2 <= MaxSuffix
    requires |Translate(StrippedUrl(url))| > MaxUrlPart
    requires n1 != n2
    ensures MakeReportFilename(prefix, url, n1) != MakeReportFilename(prefix, url, n2)
  {
    var s1, s2 := SanitizedUrl(url, n1), SanitizedUrl(url, n2);
    assert s1[MaxUrlPart + 1..] != s2[MaxUrlPart + 1..];
  }

  /** What sanitising leaves neither starts with a URL character nor ends with `/`. */
  lemma SanitizedIsBare(url: string, n: int)
    requires MinSuffix <= n <= MaxSuffix
    requires |SanitizedUrl(url, n)| <= MaxUrlPart
    ensures var t := SanitizedUrl(url, n);
      t == Translate(StrippedUrl(url)) && (t == [] || (t[0] !in HttpsChars && t[|t| - 1] != '/'))
  {
    var s := StrippedUrl(url);
    var t := Translate(s);
    if t != [] {
      assert t[0] !in HttpsChars by {
        assert s[0] !in HttpsChars;
      }
      assert !IsUnwanted(t[|t| - 1]);
    }
  }

  /** Sanitising a URL part that was not truncated gives it back unchanged. */
  lemma SanitizeIsIdempotent(url: string, n: int, m: int)
    requires MinSuffix <= n <= MaxSuffix && MinSuffix <= m <= MaxSuffix
    requires |SanitizedUrl(url, n)| <= MaxUrlPart
    ensures SanitizedUrl(SanitizedUrl(url, n), m) == SanitizedUrl(url, n)
  {
    var t := SanitizedUrl(url, n);
    SanitizedIsBare(url, n);
    BareUrlIsKept(t);
    TranslateKeepsClean(t);
  }
}
