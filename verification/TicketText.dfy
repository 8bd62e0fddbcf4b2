/** The text of a ticket summary, in characters rather than bytes. */
module TicketText {
  import opened Decimals
  import opened FindingTables

  const MAX_SUMMARY: nat := 90
  const MAX_ASSET: nat := 48
  const SHORT_KEY: nat := 12

  const MAX_DESCRIPTION: nat := 12000
  const MAX_CVE_REFERENCES: nat := 20

  // What the texts of a ticket are made from.
  datatype Subject = Subject(fingerprint: string, severity: int, about: About, customerName: string, taskName: string,
                             reportId: string, scanEnd: string)

  predicate IsSpace(c: char) {
    || '\t' <= c <= '\r' || c == ' ' || c == '\U{85}' || c == '\U{A0}' || c == '\U{1680}'
    || '\U{2000}' <= c <= '\U{200A}' || c == '\U{2028}' || c == '\U{2029}' || c == '\U{202F}'
    || c == '\U{205F}' || c == '\U{3000}'
  }

  function TrimLeft(s: string): string {
    if s != "" && IsSpace(s[0]) then TrimLeft(s[1..]) else s
  }

  function TrimRight(s: string): string {
    if s != "" && IsSpace(s[|s| - 1]) then TrimRight(s[..|s| - 1]) else s
  }

  function TrimSpace(s: string): string {
    TrimRight(TrimLeft(s))
  }

  function BoundedTicketText(value: string, maxRunes: int): string {
    var text := TrimSpace(value);
    if maxRunes <= 0 then "" else if |text| <= maxRunes then text else text[..maxRunes - 1] + "…"
  }

  function ShortKey(fingerprint: string): string {
    if |fingerprint| > SHORT_KEY then fingerprint[..SHORT_KEY] else fingerprint
  }

  // Severity in tenths, printed with one decimal.
  function OneDecimal(tenths: int): string {
    var size := if tenths < 0 then -tenths else tenths;
    (if tenths < 0 then "-" else "") + Decimal(size / 10) + "." + Decimal(size % 10)
  }

  // ---- CVE ids ----

  // strings.Split at one character.
  function Split(s: string, c: char): (r: seq<string>)
    ensures r != []
  {
    if s == "" then [""]
    else
      var rest := Split(s[1..], c);
      if s[0] == c then [""] + rest else [[s[0]] + rest[0]] + rest[1..]
  }

  function SplitCVEs(value: string): seq<string> {
    if value == "" then [] else Split(value, ',')
  }

  // Upper case; only letters of ASCII can occur in a valid id.
  function ToUpper(s: string): string {
    if s == "" then "" else [if 'a' <= s[0] <= 'z' then s[0] - 'a' + 'A' else s[0]] + ToUpper(s[1..])
  }

  predicate DecimalDigits(s: string) {
    s != "" && forall i :: 0 <= i < |s| ==> IsDigit(s[i])
  }

  predicate ValidCVE(value: string) {
    var parts := Split(value, '-');
    && |parts| == 3 && parts[0] == "CVE" && |parts[1]| == 4 && |parts[2]| >= 4
    && DecimalDigits(parts[1]) && DecimalDigits(parts[2])
  }

  function KeptCVEs(candidates: seq<string>): seq<string> {
    if candidates == [] then []
    else
      var kept := KeptCVEs(candidates[..|candidates| - 1]);
      var cve := ToUpper(TrimSpace(candidates[|candidates| - 1]));
      if ValidCVE(cve) && cve !in kept then kept + [cve] else kept
  }

  function NormalizedCVEs(value: string): seq<string> {
    KeptCVEs(SplitCVEs(value))
  }

  // ---- The summary ----

  function Asset(s: Subject): string {
    BoundedTicketText(s.about.host + ":" + s.about.port, MAX_ASSET)
  }

  function Suffix(s: Subject): string {
    " on " + Asset(s) + " [" + ShortKey(s.fingerprint) + "]"
  }

  function Title(s: Subject): string {
    var title := TrimSpace(s.about.title);
    var cves := NormalizedCVEs(s.about.cves);
    (if cves == [] then "" else cves[0] + " ") + "S:" + OneDecimal(s.severity) + " - "
    + (if title == "" then "Security finding" else title)
  }

  function Available(s: Subject): int {
    MAX_SUMMARY - |Suffix(s)|
  }

  function NewSummary(s: Subject): string {
    if Available(s) < 1 then BoundedTicketText("Finding [" + ShortKey(s.fingerprint) + "]", MAX_SUMMARY)
    else BoundedTicketText(Title(s), Available(s)) + Suffix(s)
  }

  // ---- The description ----

  function Join(parts: seq<string>, separator: string): string {
    if parts == [] then "" else if |parts| == 1 then parts[0] else parts[0] + separator + Join(parts[1..], separator)
  }

  function ReferenceLines(cves: seq<string>): seq<string> {
    if cves == [] then []
    else [cves[0], "CVE.org: https://www.cve.org/CVERecord?id=" + cves[0], "NVD: https://nvd.nist.gov/vuln/detail/" + cves[0]]
         + ReferenceLines(cves[1..])
  }

  function CVEReferences(value: string): string {
    var cves := NormalizedCVEs(value);
    if |cves| > MAX_CVE_REFERENCES then
      Join(ReferenceLines(cves[..MAX_CVE_REFERENCES]) + [Decimal(|cves| - MAX_CVE_REFERENCES) + " additional CVE(s) omitted"], "\n")
    else Join(ReferenceLines(cves), "\n")
  }

  // A section under its heading, left out when its bounded content is empty.
  function Section(heading: string, content: string, limit: nat): seq<string> {
    var text := BoundedTicketText(content, limit);
    if text == "" then [] else [heading + "\n" + text]
  }

  function Labelled(name: string, value: string): seq<string> {
    if value == "" then [] else [name + value]
  }

  function RiskLines(s: Subject): seq<string> {
    ["CVSS score: " + OneDecimal(s.severity)]
    + Labelled("Threat: ", s.about.threat) + Labelled("CVSS vector: ", s.about.cvssVector)
    + (if s.about.qod > 0 then ["Quality of detection: " + Decimal(s.about.qod) + "%"] else [])
    + (if s.about.cves == "" then [] else ["CVEs: " + Join(SplitCVEs(s.about.cves), ", ")])
  }

  function RemediationText(s: Subject): string {
    var text := TrimSpace(s.about.remediation);
    if s.about.solutionType == "" then text
    else text + (if text == "" then "" else "\n") + "Solution type: " + s.about.solutionType
  }

  function ContextLines(s: Subject): seq<string> {
    ["Customer: " + s.customerName, "Task: " + s.taskName, "Asset: " + s.about.host + ":" + s.about.port]
    + Labelled("Location: ", s.about.location) + Labelled("NVT OID: ", s.about.nvtOid)
    + Labelled("Report ID: ", s.reportId) + Labelled("Scan completed: ", s.scanEnd)
  }

  function Sections(s: Subject): seq<string> {
    var title := BoundedTicketText(s.about.title, 300);
    var references := CVEReferences(s.about.cves);
    (if title == "" then [] else [title])
    + ["Risk details\n" + BoundedTicketText(Join(RiskLines(s), "\n"), 1600)]
    + (if references == "" then [] else ["CVE references\n" + references])
    + Section("Greenbone summary", s.about.summary, 800) + Section("Evidence", s.about.evidence, 1800)
    + Section("Technical insight", s.about.insight, 1200) + Section("Impact", s.about.impact, 900)
    + Section("Affected", s.about.affected, 900) + Section("Remediation", RemediationText(s), 1800)
    + (if s.about.references == [] then [] else Section("References", "- " + Join(s.about.references, "\n- "), 800))
    + ["Greenbone context\n" + BoundedTicketText(Join(ContextLines(s), "\n"), 1000)]
  }

  function Description(s: Subject): string {
    var text := Join(Sections(s), "\n\n");
    if |text| > MAX_DESCRIPTION then text[..MAX_DESCRIPTION] else text
  }

  // ---- Trimming ----

  predicate Blank(s: string) {
    forall i :: 0 <= i < |s| ==> IsSpace(s[i])
  }

  lemma {:induction false} TrimLeftLaws(s: string)
    ensures |TrimLeft(s)| <= |s| && (TrimLeft(s) == "" <==> Blank(s))
    ensures TrimLeft(s) != "" ==> Blank(TrimLeft(s)) == Blank(s)
  {
    if s != "" && IsSpace(s[0]) {
      TrimLeftLaws(s[1..]);
      assert Blank(s) <==> Blank(s[1..]) by {
        assert forall i :: 1 <= i < |s| ==> s[i] == s[1..][i - 1];
        if Blank(s[1..]) {
          forall i | 0 <= i < |s| ensures IsSpace(s[i]) {
            if i > 0 { assert IsSpace(s[1..][i - 1]); }
          }
        }
      }
    }
  }

  lemma {:induction false} TrimRightLaws(s: string)
    ensures |TrimRight(s)| <= |s| && (TrimRight(s) == "" <==> Blank(s))
  {
    if s != "" && IsSpace(s[|s| - 1]) {
      var front := s[..|s| - 1];
      TrimRightLaws(front);
      assert Blank(s) <==> Blank(front) by {
        assert forall i :: 0 <= i < |front| ==> front[i] == s[i];
        if Blank(front) {
          forall i | 0 <= i < |s| ensures IsSpace(s[i]) {
            if i < |front| { assert IsSpace(front[i]); }
          }
        }
      }
    }
  }

  // Trimming leaves nothing exactly of a blank text.
  lemma TrimSpaceLaws(s: string)
    ensures |TrimSpace(s)| <= |s|
    ensures TrimSpace(s) == "" <==> Blank(s)
  {
    TrimLeftLaws(s);
    TrimRightLaws(TrimLeft(s));
    if TrimLeft(s) == "" {
      assert Blank(TrimLeft(s));
    }
  }

  lemma BoundedFits(value: string, maxRunes: int)
    ensures |BoundedTicketText(value, maxRunes)| <= if maxRunes <= 0 then 0 else maxRunes
    ensures maxRunes > 0 && !Blank(value) ==> BoundedTicketText(value, maxRunes) != ""
  {
    TrimSpaceLaws(value);
  }

  // ---- Laws ----

  // The normalised ids are valid and distinct, and no valid candidate is lost.
  lemma {:induction false} NormalizedCVEsLaws(candidates: seq<string>)
    ensures forall i :: 0 <= i < |KeptCVEs(candidates)| ==> ValidCVE(KeptCVEs(candidates)[i])
    ensures forall i, j :: 0 <= i < j < |KeptCVEs(candidates)| ==> KeptCVEs(candidates)[i] != KeptCVEs(candidates)[j]
    ensures forall i :: 0 <= i < |candidates| && ValidCVE(ToUpper(TrimSpace(candidates[i]))) ==>
              ToUpper(TrimSpace(candidates[i])) in KeptCVEs(candidates)
  {
    hide ValidCVE, ToUpper, TrimSpace;
    if candidates != [] {
      NormalizedCVEsLaws(candidates[..|candidates| - 1]);
    }
  }

  // The narrow-title fallback is never taken.
  lemma TitleHasRoom(s: Subject)
    ensures Available(s) >= 23
  {
    BoundedFits(s.about.host + ":" + s.about.port, MAX_ASSET);
  }

  lemma TitleNotBlank(s: Subject)
    ensures !Blank(Title(s))
  {
    var cves := NormalizedCVEs(s.about.cves);
    var front := if cves == [] then "" else cves[0] + " ";
    assert Title(s)[|front|] == 'S';
  }

  // A summary fits ConnectWise's field, opens with a title and closes with the asset and the key.
  lemma SummaryShape(s: Subject)
    ensures |NewSummary(s)| <= MAX_SUMMARY
    ensures exists title: string :: title != "" && NewSummary(s) == title + Suffix(s)
    ensures TrimSpace(NewSummary(s)) != ""
  {
    TitleHasRoom(s);
    TitleNotBlank(s);
    BoundedFits(Title(s), Available(s));
    var title := BoundedTicketText(Title(s), Available(s));
    assert NewSummary(s) == title + Suffix(s);
    var text := NewSummary(s);
    assert text[|text| - 1] == ']';
    assert !Blank(text);
    TrimSpaceLaws(text);
  }

  lemma TrimKeeps(s: string)
    requires s != "" && !IsSpace(s[0]) && !IsSpace(s[|s| - 1])
    ensures TrimSpace(s) == s
  {
  }

  lemma {:induction false} TrimRightEnd(s: string)
    ensures TrimRight(s) != "" ==> !IsSpace(TrimRight(s)[|TrimRight(s)| - 1])
  {
    if s != "" && IsSpace(s[|s| - 1]) {
      TrimRightEnd(s[..|s| - 1]);
    }
  }

  // A CVE id begins with a letter.
  lemma {:induction false} SplitStarts(s: string, c: char)
    ensures Split(s, c)[0] != "" ==> s != "" && s[0] == Split(s, c)[0][0]
  {
    if s != "" && s[0] != c {
      assert Split(s, c)[0] == [s[0]] + Split(s[1..], c)[0];
    }
  }

  lemma ValidStarts(cve: string)
    requires ValidCVE(cve)
    ensures cve != "" && cve[0] == 'C'
  {
    SplitStarts(cve, '-');
  }

  // The title has nothing to trim.
  lemma TitleTrimmed(s: Subject)
    ensures TrimSpace(Title(s)) == Title(s)
  {
    var cves, title := NormalizedCVEs(s.about.cves), TrimSpace(s.about.title);
    var text := Title(s);
    if cves != [] {
      NormalizedCVEsLaws(SplitCVEs(s.about.cves));
      ValidStarts(cves[0]);
      assert text[0] == cves[0][0];
    } else {
      assert text[0] == 'S';
    }
    hide TrimSpace;
    var shown := if title == "" then "Security finding" else title;
    assert text[|text| - 1] == shown[|shown| - 1];
    assert !IsSpace(shown[|shown| - 1]) by {
      TrimRightEnd(TrimLeft(s.about.title));
      TrimIs(s.about.title);
    }
    TrimKeeps(text);
  }

  lemma TrimIs(s: string)
    ensures TrimSpace(s) == TrimRight(TrimLeft(s))
  {
  }

  /** The summary names the first CVE, the severity and the title, whole when they fit and cut to the last character
      otherwise, then the asset and the key. */
  lemma SummaryTells(s: Subject)
    ensures var cves, title := NormalizedCVEs(s.about.cves), TrimSpace(s.about.title);
            var whole := (if cves == [] then "" else cves[0] + " ") + "S:" + OneDecimal(s.severity) + " - "
                         + (if title == "" then "Security finding" else title);
            var asset := BoundedTicketText(s.about.host + ":" + s.about.port, 48);
            var end := " on " + asset + " [" + (if |s.fingerprint| > 12 then s.fingerprint[..12] else s.fingerprint) + "]";
            && |end| <= 67
            && NewSummary(s) == (if |whole| <= 90 - |end| then whole else whole[..89 - |end|] + "…") + end
  {
    TitleHasRoom(s);
    TitleTrimmed(s);
    hide OneDecimal, NormalizedCVEs, TrimSpace;
  }

  /** Without its point, the text of a severity reads as its tenths. */
  lemma SeverityReads(tenths: nat)
    ensures var text := OneDecimal(tenths);
            && |text| >= 3 && text[|text| - 2] == '.'
            && (forall i :: 0 <= i < |text| && i != |text| - 2 ==> IsDigit(text[i]))
            && Value(text[..|text| - 2] + [text[|text| - 1]]) == tenths
  {
    var whole, last := Decimal(tenths / 10), Decimal(tenths % 10);
    var text := OneDecimal(tenths);
    assert text == whole + "." + last && |last| == 1;
    assert text[..|text| - 2] == whole && text[|text| - 1] == last[0];
    ValueOfDecimal(tenths / 10);
    assert (whole + [last[0]])[..|whole|] == whole;
    assert DigitValue(last[0]) == tenths % 10;
  }

  /** The ids come in the order of their first mention: each is mentioned somewhere, not before that, and all valid
      ones mentioned earlier come earlier. */
  lemma {:induction false} KeptInOrder(candidates: seq<string>, i: nat) returns (p: nat)
    requires i < |KeptCVEs(candidates)|
    ensures p < |candidates| && ToUpper(TrimSpace(candidates[p])) == KeptCVEs(candidates)[i]
    ensures forall r :: 0 <= r < p ==> ToUpper(TrimSpace(candidates[r])) != KeptCVEs(candidates)[i]
    ensures forall r :: 0 <= r < p && ValidCVE(ToUpper(TrimSpace(candidates[r]))) ==>
              ToUpper(TrimSpace(candidates[r])) in KeptCVEs(candidates)[..i]
  {
    hide ValidCVE, ToUpper, TrimSpace;
    var front := candidates[..|candidates| - 1];
    var kept := KeptCVEs(front);
    assert forall r :: 0 <= r < |front| ==> front[r] == candidates[r];
    if i < |kept| {
      p := KeptInOrder(front, i);
      assert KeptCVEs(candidates)[..i] == kept[..i];
    } else {
      p := |candidates| - 1;
      NormalizedCVEsLaws(front);
      assert KeptCVEs(candidates)[..i] == kept;
      forall r | 0 <= r < p ensures ToUpper(TrimSpace(candidates[r])) != KeptCVEs(candidates)[i] {
        assert ValidCVE(ToUpper(TrimSpace(front[r]))) ==> ToUpper(TrimSpace(front[r])) in kept;
      }
    }
  }

  // ---- The description's size ----

  function Total(parts: seq<string>): nat {
    if parts == [] then 0 else |parts[0]| + Total(parts[1..])
  }

  lemma {:induction false} JoinLength(parts: seq<string>, separator: string)
    ensures |Join(parts, separator)| == if parts == [] then 0 else Total(parts) + |separator| * (|parts| - 1)
  {
    if |parts| > 1 {
      JoinLength(parts[1..], separator);
    }
  }

  lemma {:induction false} TotalOfBoth(a: seq<string>, b: seq<string>)
    ensures Total(a + b) == Total(a) + Total(b)
  {
    if a == [] {
      assert a + b == b;
    } else {
      TotalOfBoth(a[1..], b);
      assert (a + b)[1..] == a[1..] + b;
    }
  }

  // At most `count` parts of `size` characters in all.
  predicate Small(parts: seq<string>, count: nat, size: nat) {
    |parts| <= count && Total(parts) <= size
  }

  lemma SmallBoth(a: seq<string>, b: seq<string>, m: nat, n: nat, x: nat, y: nat)
    requires Small(a, m, x) && Small(b, n, y)
    ensures Small(a + b, m + n, x + y)
  {
    TotalOfBoth(a, b);
  }

  lemma SectionSmall(heading: string, content: string, limit: nat)
    requires limit > 0
    ensures Small(Section(heading, content, limit), 1, |heading| + 1 + limit)
  {
    BoundedFits(content, limit);
  }

  lemma OneSmall(text: string)
    ensures Small([text], 1, |text|) && Small([], 1, |text|)
  {
  }

  lemma SectionsSmall(s: Subject)
    requires NormalizedCVEs(s.about.cves) == []
    ensures Small(Sections(s), 11, 11215)
  {
    var a := s.about;
    var title := BoundedTicketText(a.title, 300);
    var risk, end := "Risk details\n" + BoundedTicketText(Join(RiskLines(s), "\n"), 1600),
                     "Greenbone context\n" + BoundedTicketText(Join(ContextLines(s), "\n"), 1000);
    BoundedFits(a.title, 300);
    BoundedFits(Join(RiskLines(s), "\n"), 1600);
    BoundedFits(Join(ContextLines(s), "\n"), 1000);
    OneSmall(title);
    OneSmall(risk);
    OneSmall(end);
    SectionSmall("Greenbone summary", a.summary, 800);
    SectionSmall("Evidence", a.evidence, 1800);
    SectionSmall("Technical insight", a.insight, 1200);
    SectionSmall("Impact", a.impact, 900);
    SectionSmall("Affected", a.affected, 900);
    SectionSmall("Remediation", RemediationText(s), 1800);
    SectionSmall("References", "- " + Join(a.references, "\n- "), 800);
    assert CVEReferences(a.cves) == "";
    hide BoundedTicketText, Section, RiskLines, ContextLines, RemediationText, Join, CVEReferences, NormalizedCVEs;
    var p := if title == "" then [] else [title];
    var q := if a.references == [] then [] else Section("References", "- " + Join(a.references, "\n- "), 800);
    SmallBoth(p, [risk], 1, 1, 300, 1613);
    var r := p + [risk];
    SmallBoth(r, [], 2, 1, 1913, 0);
    SmallBoth(r + [], Section("Greenbone summary", a.summary, 800), 3, 1, 1913, 818);
    var t := r + [] + Section("Greenbone summary", a.summary, 800);
    SmallBoth(t, Section("Evidence", a.evidence, 1800), 4, 1, 2731, 1809);
    t := t + Section("Evidence", a.evidence, 1800);
    SmallBoth(t, Section("Technical insight", a.insight, 1200), 5, 1, 4540, 1218);
    t := t + Section("Technical insight", a.insight, 1200);
    SmallBoth(t, Section("Impact", a.impact, 900), 6, 1, 5758, 907);
    t := t + Section("Impact", a.impact, 900);
    SmallBoth(t, Section("Affected", a.affected, 900), 7, 1, 6665, 909);
    t := t + Section("Affected", a.affected, 900);
    SmallBoth(t, Section("Remediation", RemediationText(s), 1800), 8, 1, 7574, 1812);
    t := t + Section("Remediation", RemediationText(s), 1800);
    SmallBoth(t, q, 9, 1, 9386, 811);
    t := t + q;
    SmallBoth(t, [end], 10, 1, 10197, 1018);
    assert Sections(s) == t + [end];
  }

  /** A description never exceeds its limit, and without CVE references it is never cut. */
  lemma DescriptionWhole(s: Subject)
    ensures |Description(s)| <= MAX_DESCRIPTION
    ensures NormalizedCVEs(s.about.cves) == [] ==> Description(s) == Join(Sections(s), "\n\n")
  {
    hide Sections, Join, Total, NormalizedCVEs;
    if NormalizedCVEs(s.about.cves) == [] {
      SectionsSmall(s);
      JoinLength(Sections(s), "\n\n");
    }
  }

  // Tickets are matched by summary: equal summaries of full-length fingerprints share the short key.
  lemma SameSummarySameShortKey(a: Subject, b: Subject)
    requires |a.fingerprint| >= SHORT_KEY && |b.fingerprint| >= SHORT_KEY
    requires NewSummary(a) == NewSummary(b)
    ensures a.fingerprint[..SHORT_KEY] == b.fingerprint[..SHORT_KEY]
  {
    KeyAtEnd(a);
    KeyAtEnd(b);
  }

  lemma KeyAtEnd(s: Subject)
    requires |s.fingerprint| >= SHORT_KEY
    ensures var text := NewSummary(s);
            && |text| > SHORT_KEY
            && text[|text| - 1 - SHORT_KEY..|text| - 1] == s.fingerprint[..SHORT_KEY]
  {
    TitleHasRoom(s);
    var text := NewSummary(s);
    var key := s.fingerprint[..SHORT_KEY];
    assert ShortKey(s.fingerprint) == key;
    var before := BoundedTicketText(Title(s), Available(s)) + " on " + Asset(s) + " [";
    assert text == before + key + "]";
    assert |text| == |before| + SHORT_KEY + 1;
    assert text[|before|..|before| + SHORT_KEY] == key;
  }
}
