/** The reader of the virtual CFO's report (components/VirtualCFOPage.tsx):
    three one-line fields found at the start of a line, six sections
    delimited by fixed markers, bullet lists cleaned line by line, and the
    colour of the health-score gauge. The AI call that produces the text is
    not modelled; the text is any string. */
module CfoParser {
  import opened Wrappers
  import opened Text
  import opened Sorting

  datatype Analysis = Analysis(
    businessType: string,
    healthScore: int,
    forecastSummary: string,
    strengths: seq<string>,
    weaknesses: seq<string>,
    alerts: seq<string>,
    insights: string,
    recommendedActions: string,
    growthOpportunities: string)

  // ---- line-anchored fields -------------------------------------------------

  /** Where `^` matches in a multiline pattern: the start of the text or just
      after a line terminator. */
  predicate LineStart(s: string, p: nat) {
    p == 0 || (p <= |s| && IsLineTerminator(s[p - 1]))
  }

  /** The pattern `^<prefix>` matches at `p`, followed by a digit when
      `needDigit` (the `(\d+)` of the score pattern). */
  predicate LineMatchAt(s: string, prefix: string, needDigit: bool, p: nat) {
    LineStart(s, p) && OccursAt(s, prefix, p)
    && (needDigit ==> p + |prefix| < |s| && IsDigit(s[p + |prefix|]))
  }

  /** The leftmost match at or after `from`. */
  function FirstLineMatch(s: string, prefix: string, needDigit: bool, from: nat): (r: Option<nat>)
    decreases |s| - from
    ensures r.Some? ==> from <= r.value && LineMatchAt(s, prefix, needDigit, r.value)
    ensures r.Some? ==> forall k :: from <= k < r.value ==> !LineMatchAt(s, prefix, needDigit, k)
    ensures r.None? ==> forall k :: from <= k ==> !LineMatchAt(s, prefix, needDigit, k)
  {
    if from + |prefix| > |s| then None
    else if LineMatchAt(s, prefix, needDigit, from) then Some(from)
    else FirstLineMatch(s, prefix, needDigit, from + 1)
  }

  /** The end of the line that contains position `a`: what `(.*)$` stops at. */
  function LineEnd(s: string, a: nat): (e: nat)
    requires a <= |s|
    decreases |s| - a
    ensures a <= e <= |s|
    ensures forall k :: a <= k < e ==> !IsLineTerminator(s[k])
    ensures e == |s| || IsLineTerminator(s[e])
  {
    if a == |s| || IsLineTerminator(s[a]) then a else LineEnd(s, a + 1)
  }

  /** `getMatch(/^<prefix>(.*)$/m)`: the rest of the first line that starts
      with `prefix`, trimmed. */
  function LineField(s: string, prefix: string): Option<string> {
    match FirstLineMatch(s, prefix, false, 0)
    case None => None
    case Some(p) => Some(Trim(s[p + |prefix|..LineEnd(s, p + |prefix|)]))
  }

  const ScorePrefix: string := "Summary Score: "

  /** `getMatch(/^Summary Score: (\d+)/m)`: the digits after the first line
      that starts with the prefix and a digit. */
  function ScoreDigits(s: string): Option<string> {
    DigitsAfter(s, ScorePrefix)
  }

  /** `getMatch(/^<prefix>(\d+)/m)`. */
  function DigitsAfter(s: string, prefix: string): Option<string> {
    match FirstLineMatch(s, prefix, true, 0)
    case None => None
    case Some(p) => Some(Trim(LeadingDigits(s[p + |prefix|..])))
  }

  /** `x || d`: an absent or empty text gives the default. */
  function OrDefault(x: Option<string>, d: string): string {
    if x.Some? && x.value != "" then x.value else d
  }

  /** `parseInt(getMatch(...) || '0', 10)`. The matched text is a non-empty
      run of digits, so the parse cannot fail; the fallback is never taken
      (`HealthScoreMeaning`). */
  function HealthScore(s: string): int {
    ParseInt(OrDefault(ScoreDigits(s), "0")).GetOr(0)
  }

  // ---- marker-delimited sections ------------------------------------------

  datatype Marker = Strengths | Weaknesses | Alerts | Insights | Actions | Opportunities

  function MarkerText(m: Marker): string {
    match m
    case Strengths => "---TOP 5 STRENGTHS---"
    case Weaknesses => "---TOP 5 WEAKNESSES---"
    case Alerts => "---KEY ALERTS---"
    case Insights => "---AI-GENERATED INSIGHTS---"
    case Actions => "---RECOMMENDED ACTIONS---"
    case Opportunities => "---GROWTH OPPORTUNITIES---"
  }

  /** The marker that closes a section; the last section runs to the end. */
  function NextMarker(m: Marker): Option<Marker> {
    match m
    case Strengths => Some(Weaknesses)
    case Weaknesses => Some(Alerts)
    case Alerts => Some(Insights)
    case Insights => Some(Actions)
    case Actions => Some(Opportunities)
    case Opportunities => None
  }

  /** `getSection(start, end)`: the pattern `start\s*([\s\S]*?)\s*end`, or
      `start\s*([\s\S]*)` without an end, with the group trimmed.
      The leftmost match begins at the first occurrence of `start`; the lazy
      group then reaches the first occurrence of `end` after it (an end
      marker begins with '-', so no occurrence starts inside the skipped
      whitespace), and trimming removes what the two `\s*` would have
      taken. If `end` does not follow the first `start`, it follows no later
      one either, and there is no match. */
  function Section(s: string, start: string, end: Option<string>): Option<string> {
    match IndexOfFrom(s, start, 0)
    case None => None
    case Some(i) =>
      var a := i + |start|;
      if end.None? then Some(Trim(s[a..]))
      else
        match IndexOfFrom(s, end.value, a)
        case None => None
        case Some(q) => Some(Trim(s[a..q]))
  }

  function MarkerSection(s: string, m: Marker): Option<string> {
    var next := NextMarker(m);
    Section(s, MarkerText(m), if next.Some? then Some(MarkerText(next.value)) else None)
  }

  // ---- bullet lists -----------------------------------------------------------

  /** The first replacement in `cleanLine`: a leading dash and space, and
      any whitespace after them, are removed. */
  function StripDash(t: string): (r: string)
    ensures |r| <= |t| && r == t[|t| - |r|..]
  {
    if |t| >= 2 && t[0] == '-' && t[1] == ' ' then TrimStart(t[2..]) else t
  }

  /** The second replacement in `cleanLine`: a leading run of digits, a
      dot, and any whitespace after them are removed. */
  function StripNumber(t: string): (r: string)
    ensures |r| <= |t| && r == t[|t| - |r|..]
  {
    var ds := LeadingDigits(t);
    if ds != [] && |ds| < |t| && t[|ds|] == '.' then TrimStart(t[|ds| + 1..]) else t
  }

  /** No whitespace at either end. */
  predicate NoOuterSpace(x: string) {
    x == [] || (!IsSpace(x[0]) && !IsSpace(x[|x| - 1]))
  }

  /** One line of a list: trimmed, then the dash and the number removed. */
  function CleanLine(line: string): string {
    StripNumber(StripDash(Trim(line)))
  }

  /** `.map(cleanLine)`. */
  function CleanLines(lines: seq<string>): seq<string> {
    seq(|lines|, i requires 0 <= i < |lines| => CleanLine(lines[i]))
  }

  /** `.map(cleanLine).filter(Boolean)`: an empty string is falsy. */
  function CleanItems(lines: seq<string>): seq<string> {
    Filter(CleanLines(lines), (x: string) => x != [])
  }

  /** A list item as `parseList` yields it: non-empty, no outer whitespace. */
  predicate CleanItem(x: string) {
    x != [] && NoOuterSpace(x)
  }

  /** Every item kept is the cleaned form of one of the lines, and clean. */
  lemma CleanItemsClean(lines: seq<string>, x: string)
    requires x in CleanItems(lines)
    ensures CleanItem(x)
    ensures exists i :: 0 <= i < |lines| && x == CleanLine(lines[i])
  {
    var m := CleanLines(lines);
    FilterMembers(m, (x: string) => x != [], x);
    var i :| 0 <= i < |m| && m[i] == x;
    CleanLineClean(lines[i]);
  }

  /** `parseList`: nothing for a missing or empty section, otherwise its lines
      cleaned, empty ones dropped. */
  function ParseList(section: Option<string>): seq<string> {
    if section.None? || section.value == "" then []
    else CleanItems(Lines(section.value))
  }

  /** `split('\n')`. */
  function Lines(t: string): seq<string> {
    Split(t, c => c == '\n')
  }

  // ---- the report -------------------------------------------------------------

  const BusinessTypePrefix: string := "Business Type: "
  const ForecastPrefix: string := "Forecast (Next 30 Days): "

  /** `parseCFOResponse`: `None` stands for `null`. The `catch` is not
      modelled: nothing in the body throws on a string. */
  function ParseReport(text: string): Option<Analysis> {
    var businessType := OrDefault(LineField(text, BusinessTypePrefix), "N/A");
    var healthScore := HealthScore(text);
    var forecastSummary := OrDefault(LineField(text, ForecastPrefix), "");
    var strengthsText := MarkerSection(text, Strengths);
    var analysis := Analysis(
      businessType,
      healthScore,
      forecastSummary,
      ParseList(strengthsText),
      ParseList(MarkerSection(text, Weaknesses)),
      ParseList(MarkerSection(text, Alerts)),
      OrDefault(MarkerSection(text, Insights), ""),
      OrDefault(MarkerSection(text, Actions), ""),
      OrDefault(MarkerSection(text, Opportunities), ""));
    if healthScore == 0 && forecastSummary == "" && strengthsText.None? then None
    else Some(analysis)
  }

  datatype GaugeColor = Green | Yellow | Red

  /** `getScoreColor`. */
  function ScoreColor(s: int): (c: GaugeColor)
    ensures c == Green <==> s > 75
    ensures c == Yellow <==> 40 < s <= 75
    ensures c == Red <==> s <= 40
  {
    if s > 75 then Green else if s > 40 then Yellow else Red
  }

  // ---- properties ---------------------------------------------------------------

  /** Trimming leaves no whitespace at either end. */
  lemma TrimEnds(s: string)
    ensures NoOuterSpace(Trim(s))
  {
    var u := TrimStart(s);
    var t := TrimEnd(u);
    if t != [] {
      assert t[0] == u[0];
    }
  }

  /** A tail of a string with no outer whitespace that itself starts with
      no whitespace has none at either end. */
  lemma TailClean(t: string, r: string)
    requires NoOuterSpace(t) && |r| <= |t| && r == t[|t| - |r|..]
    requires r == [] || !IsSpace(r[0])
    ensures NoOuterSpace(r)
  {
    if r != [] {
      assert r[|r| - 1] == t[|t| - 1];
    }
  }

  lemma StripDashClean(t: string)
    requires NoOuterSpace(t)
    ensures NoOuterSpace(StripDash(t))
  {
    TailClean(t, StripDash(t));
  }

  lemma StripNumberClean(t: string)
    requires NoOuterSpace(t)
    ensures NoOuterSpace(StripNumber(t))
  {
    TailClean(t, StripNumber(t));
  }

  /** A cleaned line has no whitespace at either end. */
  lemma CleanLineClean(line: string)
    ensures NoOuterSpace(CleanLine(line))
  {
    TrimEnds(line);
    StripDashClean(Trim(line));
    StripNumberClean(StripDash(Trim(line)));
  }

  lemma DigitNotSpace(c: char)
    requires IsDigit(c)
    ensures !IsSpace(c)
  {
  }

  /** A digit string is its own trim. */
  lemma TrimDigits(ds: string)
    requires AllDigits(ds)
    ensures TrimStart(ds) == ds && Trim(ds) == ds
  {
    if ds != [] {
      DigitNotSpace(ds[0]);
      DigitNotSpace(ds[|ds| - 1]);
    }
  }

  /** `parseInt` of a non-empty digit string is its value. */
  lemma ParseIntOfDigits(ds: string)
    requires ds != [] && AllDigits(ds)
    ensures ParseInt(ds) == Some(DigitsValue(ds))
  {
    ParseIntDigits(ds, []);
    assert ds + [] == ds;
  }

  /** The leftmost-match search finds a match it is shown, when nothing
      earlier matches. */
  lemma IndexOfFromIs(s: string, q: string, from: nat, j: nat)
    requires from <= j && OccursAt(s, q, j)
    requires forall k :: from <= k < j ==> !OccursAt(s, q, k)
    ensures IndexOfFrom(s, q, from) == Some(j)
  {
  }

  /** What the score pattern captures is a non-empty run of digits. */
  lemma ScoreDigitsShape(s: string)
    ensures ScoreDigits(s).Some? ==> ScoreDigits(s).value != [] && AllDigits(ScoreDigits(s).value)
  {
    var p := FirstLineMatch(s, ScorePrefix, true, 0);
    if p.Some? {
      var rest := s[p.value + |ScorePrefix|..];
      var ds := LeadingDigits(rest);
      assert rest[0] == s[p.value + |ScorePrefix|];
      TrimDigits(ds);
    }
  }

  lemma ParseIntZero()
    ensures ParseInt("0") == Some(0)
  {
    var z := "0";
    assert |z| == 1 && z[0] == '0';
    assert AllDigits(z);
    assert DigitsValue(z) == 0 by {
      assert z[..0] == [];
    }
    ParseIntOfDigits(z);
  }

  /** The health score is the value of the digits after the first
      "Summary Score: " line, and 0 when there is none: `parseInt` never
      yields NaN here. */
  lemma HealthScoreMeaning(s: string)
    ensures ScoreDigits(s).None? ==> HealthScore(s) == 0
    ensures ScoreDigits(s).Some? ==>
      var ds := ScoreDigits(s).value;
      ds != [] && AllDigits(ds) && HealthScore(s) == DigitsValue(ds)
  {
    ScoreDigitsShape(s);
    if ScoreDigits(s).Some? {
      ParseIntOfDigits(ScoreDigits(s).value);
    } else {
      ParseIntZero();
    }
  }

  /** The score pattern matches at the very start of a report that opens
      with the prefix and a digit. */
  lemma FirstScoreLine(s: string, ds: string, tail: string)
    requires ds != [] && AllDigits(ds)
    requires s == ScorePrefix + ds + tail
    ensures FirstLineMatch(s, ScorePrefix, true, 0) == Some(0)
  {
    var n := |ScorePrefix|;
    assert s[..n] == ScorePrefix;
    assert s[n] == ds[0];
  }

  /** The score pattern captures exactly the opening run of digits. */
  lemma LeadingScoreDigits(ds: string, tail: string)
    requires ds != [] && AllDigits(ds)
    requires tail == [] || !IsDigit(tail[0])
    ensures ScoreDigits(ScorePrefix + ds + tail) == Some(ds)
  {
    var s := ScorePrefix + ds + tail;
    FirstScoreLine(s, ds, tail);
    assert LeadingDigits(s[|ScorePrefix|..]) == ds by {
      assert s[|ScorePrefix|..] == ds + tail;
      LeadingDigitsOf(ds, tail);
    }
    TrimDigits(ds);
    DigitsAfterAt(s, ScorePrefix, ds);
  }

  /** What the score pattern captures when its line opens the text. */
  lemma DigitsAfterAt(s: string, prefix: string, ds: string)
    requires FirstLineMatch(s, prefix, true, 0) == Some(0)
    requires |prefix| <= |s| && LeadingDigits(s[|prefix|..]) == ds && Trim(ds) == ds
    ensures DigitsAfter(s, prefix) == Some(ds)
  {
  }

  /** A report that opens with "Summary Score: " and a run of digits scores
      the value of those digits. */
  lemma LeadingScoreLine(ds: string, tail: string)
    requires ds != [] && AllDigits(ds)
    requires tail == [] || !IsDigit(tail[0])
    ensures HealthScore(ScorePrefix + ds + tail) == DigitsValue(ds)
  {
    LeadingScoreDigits(ds, tail);
    HealthScoreMeaning(ScorePrefix + ds + tail);
  }

  /** The section between two markers: when the text is `start`, a body
      holding no `end`, then `end`, the section is the trimmed body. */
  lemma SectionBetween(start: string, body: string, end: string, post: string)
    requires forall k :: 0 <= k < |body| ==> !OccursAt(body + end, end, k)
    ensures Section(start + body + end + post, start, Some(end)) == Some(Trim(body))
  {
    var s := start + body + end + post;
    var a := |start|;
    var q := a + |body|;
    assert IndexOfFrom(s, start, 0) == Some(0) by {
      assert s[..a] == start;
      IndexOfFromIs(s, start, 0, 0);
    }
    assert IndexOfFrom(s, end, a) == Some(q) by {
      assert s[q..q + |end|] == end;
      NoEndBefore(start, body, end, post);
      IndexOfFromIs(s, end, a, q);
    }
    assert s[a..q] == body;
    SectionAt(s, start, end, q);
  }

  /** The section when `start` opens the text and `end` is first found at `q`. */
  lemma SectionAt(s: string, start: string, end: string, q: nat)
    requires IndexOfFrom(s, start, 0) == Some(0) && IndexOfFrom(s, end, |start|) == Some(q)
    ensures Section(s, start, Some(end)) == Some(Trim(s[|start|..q]))
  {
  }

  lemma NoEndBefore(start: string, body: string, end: string, post: string)
    requires forall k :: 0 <= k < |body| ==> !OccursAt(body + end, end, k)
    ensures forall k :: |start| <= k < |start| + |body| ==> !OccursAt(start + body + end + post, end, k)
  {
    var s := start + body + end + post;
    forall k | |start| <= k < |start| + |body| ensures !OccursAt(s, end, k) {
      var k' := k - |start|;
      if OccursAt(s, end, k) {
        assert s[k..k + |end|] == (body + end)[k'..k' + |end|];
        assert OccursAt(body + end, end, k');
      }
    }
  }

  /** The last section runs to the end of the text. */
  lemma LastSection(start: string, body: string)
    ensures Section(start + body, start, None) == Some(Trim(body))
  {
    var s := start + body;
    assert OccursAt(s, start, 0) by {
      assert s[..|start|] == start;
    }
    assert s[|start|..] == body;
  }

  /** The result is absent exactly when the score is 0, the forecast is
      empty and the strengths marker is not followed by the weaknesses
      marker; every field read from an absent line or section falls back to
      its default. */
  lemma ParseReportMeaning(text: string)
    ensures ParseReport(text).None? <==>
      HealthScore(text) == 0 && OrDefault(LineField(text, ForecastPrefix), "") == ""
      && MarkerSection(text, Strengths).None?
    ensures ParseReport(text).Some? ==>
      var r := ParseReport(text).value;
      (LineField(text, BusinessTypePrefix).None? ==> r.businessType == "N/A")
      && (LineField(text, ForecastPrefix).None? ==> r.forecastSummary == "")
      && (MarkerSection(text, Strengths).None? ==> r.strengths == [])
      && (MarkerSection(text, Insights).None? ==> r.insights == "")
      && (MarkerSection(text, Actions).None? ==> r.recommendedActions == "")
      && (MarkerSection(text, Opportunities).None? ==> r.growthOpportunities == "")
      && r.businessType != ""
  {
  }

  /** Every list item is non-empty and has no whitespace at either end, and
      a list has no more items than its section has lines. */
  lemma ListItemsClean(section: Option<string>)
    ensures section.None? || section.value == "" ==> ParseList(section) == []
    ensures section.Some? ==> |ParseList(section)| <= |Lines(section.value)|
    ensures forall x :: x in ParseList(section) ==> CleanItem(x)
  {
    if section.Some? && section.value != "" {
      var lines := Lines(section.value);
      forall x | x in ParseList(section) ensures CleanItem(x) {
        CleanItemsClean(lines, x);
      }
    }
  }

  /** A string with no outer whitespace is its own trim. */
  lemma TrimClean(t: string)
    requires NoOuterSpace(t)
    ensures Trim(t) == t
  {
  }

  lemma StripDashOf(u: string)
    requires u != [] && !IsSpace(u[0])
    ensures StripDash("- " + u) == u
  {
    var t := "- " + u;
    assert t[2..] == u;
  }

  /** One space before a word is trimmed away. */
  lemma TrimStartSpace(item: string)
    requires item != [] && !IsSpace(item[0])
    ensures TrimStart(" " + item) == item
  {
    assert (" " + item)[1..] == item;
  }

  /** A number and a dot are removed with the whitespace after them. */
  lemma StripNumberAt(u: string, ds: string)
    requires LeadingDigits(u) == ds && ds != [] && |ds| < |u| && u[|ds|] == '.'
    ensures StripNumber(u) == TrimStart(u[|ds| + 1..])
  {
  }

  lemma StripNumberOf(ds: string, item: string)
    requires ds != [] && AllDigits(ds)
    requires item != [] && !IsSpace(item[0])
    ensures StripNumber(ds + ". " + item) == item
  {
    var rest := ". " + item;
    var u := ds + ". " + item;
    assert LeadingDigits(u) == ds by {
      assert u == ds + rest;
      LeadingDigitsOf(ds, rest);
    }
    assert u[|ds|] == '.' && u[|ds| + 1..] == " " + item;
    StripNumberAt(u, ds);
    TrimStartSpace(item);
  }

  /** A bullet and a number are both removed: "- 12. " before an item
      leaves the item. */
  lemma BulletAndNumber(ds: string, item: string)
    requires ds != [] && AllDigits(ds)
    requires item != [] && NoOuterSpace(item)
    ensures CleanLine("- " + ds + ". " + item) == item
  {
    var u := ds + ". " + item;
    var t := "- " + u;
    assert "- " + ds + ". " + item == t;
    BulletLineClean(u, item);
    TrimClean(t);
    DigitNotSpace(ds[0]);
    assert u[0] == ds[0];
    StripDashOf(u);
    StripNumberOf(ds, item);
  }

  lemma BulletLineClean(u: string, item: string)
    requires item != [] && NoOuterSpace(item)
    ensures NoOuterSpace("- " + u + item)
  {
    var t := "- " + u + item;
    assert t[0] == '-';
    assert t[|t| - 1] == item[|item| - 1];
  }
}
