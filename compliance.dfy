/** The compliance filter (apps/api/src/lib/compliance.ts): the pre-send gate
    applied to every outbound investor message.

    The regular-expression engine is not modelled.  A `RegexEngine` is any
    function that reports where the leftmost match of a pattern lies in a text
    (as `String.prototype.match` does through `index` and `match[0].length`);
    `FirstMatch` turns that position into the matched text, so that every
    reported match is, by construction, a piece of the searched text.  The
    pattern tables keep the regular expressions as data. */
module Compliance {
  import opened Text

  // ─── Types ─────────────────────────────────────────────────────

  datatype OfferingType = Reg506B | Reg506C

  datatype Severity = Critical | High

  datatype Violation = Violation(rule: string, severity: Severity, message: string, matchedText: Option<string>)

  datatype Warning = Warning(rule: string, message: string)

  /** One message to check, with the investor and offering context. The
      accreditation status is a free string, compared by exact equality. */
  datatype CheckInput = CheckInput(
    content: string,
    subject: Option<string>,
    offeringType: OfferingType,
    hasPriorRelationship: bool,
    optedOut: bool,
    accreditedStatus: string)

  /** The outcome of a check; `sanitizedContent` is part of the result type but
      is never filled in. */
  datatype CheckResult = CheckResult(
    passed: bool,
    violations: seq<Violation>,
    warnings: seq<Warning>,
    sanitizedContent: Option<string>)

  /** A regular expression literal: its source text and whether it carries the `i` flag. */
  datatype Regex = Regex(source: string, ignoreCase: bool)

  /** Where a match lies: its first index and its length. */
  datatype Span = Span(start: nat, length: nat)

  /** The leftmost match of a (non-global) regular expression in a text, if any. */
  type RegexEngine = (Regex, string) -> Option<Span>

  datatype PatternRule = PatternRule(pattern: Regex, rule: string, message: string)

  // ─── Rule tables ───────────────────────────────────────────────

  const OPT_OUT_RULE := "OPT_OUT_RESPECTED"
  const PRIOR_RELATIONSHIP_RULE := "506B_PRIOR_RELATIONSHIP"
  const ACCREDITED_ONLY_RULE := "506C_ACCREDITED_ONLY"
  const QUALIFY_RULE := "QUALIFY_RETURN_PROJECTIONS"
  const NO_RISK_FREE_RULE := "NO_RISK_FREE"

  const OPT_OUT_VIOLATION := Violation(OPT_OUT_RULE, Critical,
    "Investor has opted out of communications", None)
  const PRIOR_RELATIONSHIP_VIOLATION := Violation(PRIOR_RELATIONSHIP_RULE, Critical,
    "Reg D 506(b) requires substantive pre-existing relationship", None)
  const ACCREDITED_ONLY_VIOLATION := Violation(ACCREDITED_ONLY_RULE, Critical,
    "Reg D 506(c) requires verified accredited investor status", None)
  const QUALIFY_MESSAGE := "Return references must be qualified as \"projected\" or \"targeted\""

  /** Prohibited language, in evaluation order; each entry yields at most one HIGH violation. */
  const PROHIBITED_PATTERNS: seq<PatternRule> := [
    PatternRule(Regex(@"guarante(?:e|ed|es|ing)\s+(?:return|profit|income|yield)", true),
      "NO_PERFORMANCE_GUARANTEE", "Contains performance guarantee language"),
    PatternRule(Regex(@"risk[- ]?free", true),
      NO_RISK_FREE_RULE, "Claims risk-free investment"),
    PatternRule(Regex(@"you\s+(?:should|must|need\s+to)\s+invest", true),
      "NO_INVESTMENT_ADVICE", "Contains investment advice/recommendation language"),
    PatternRule(Regex(@"(?:can't|cannot|won't)\s+lose", true),
      "NO_LOSS_PREVENTION", "Implies principal protection"),
    PatternRule(Regex(@"once[- ]?in[- ]?a[- ]?lifetime", true),
      "NO_HYPE", "Uses hype language"),
    PatternRule(Regex(@"(?:exclusive|limited)\s+(?:time\s+)?(?:offer|opportunity)", true),
      "NO_PRESSURE", "Creates artificial urgency/pressure"),
    PatternRule(Regex(@"no[- ]?risk", true),
      NO_RISK_FREE_RULE, "Claims no risk"),
    PatternRule(Regex(@"(?:sure|certain)\s+(?:thing|bet|win)", true),
      "NO_CERTAINTY", "Implies certainty of returns"),
    PatternRule(Regex(@"we\s+recommend\s+(?:you\s+)?invest", true),
      "NO_RECOMMENDATION", "Makes investment recommendation")
  ]

  /** Required disclaimers, in evaluation order; a missing one yields a warning. */
  const REQUIRED_ELEMENTS: seq<PatternRule> := [
    PatternRule(Regex(@"past\s+performance\s+(?:does\s+not|is\s+no)\s+(?:guarantee|indicator)", true),
      "PAST_PERFORMANCE_DISCLAIMER", "Missing past performance disclaimer"),
    PatternRule(Regex(@"(?:not\s+a?\s*(?:registered\s+)?broker[- ]?dealer|not\s+acting\s+as\s+a?\s*broker)", true),
      "BROKER_DEALER_DISCLAIMER", "Missing broker-dealer disclaimer")
  ]

  /** A percentage followed by a return keyword, such as "12% IRR". */
  const RETURN_MENTION := Regex(@"(\d+\.?\d*)\s*%\s*(return|irr|yield|cash[- ]on[- ]cash)", true)

  /** A word that marks a return figure as a projection. */
  const RETURN_QUALIFIER := Regex(@"(?:projected|targeted|estimated|anticipated)", true)

  // ─── Evaluation, as a reference definition ─────────────────────

  /** The text of the leftmost match of `re` in `text`, if there is one. */
  function FirstMatch(engine: RegexEngine, re: Regex, text: string): (m: Option<string>)
    ensures m.Some? <==>
      (engine(re, text).Some? && engine(re, text).value.start + engine(re, text).value.length <= |text|)
    ensures m.Some? ==>
      (|m.value| == engine(re, text).value.length && OccursAt(m.value, text, engine(re, text).value.start))
  {
    match engine(re, text)
    case None => None
    case Some(span) =>
      if span.start + span.length <= |text| then
        Some(text[span.start..span.start + span.length])
      else
        None
  }

  /** Whatever the engine reports, a match is a piece of the searched text. */
  lemma MatchInText(engine: RegexEngine, re: Regex, text: string)
    ensures FirstMatch(engine, re, text).Some? ==> Includes(text, FirstMatch(engine, re, text).value)
  {
    if FirstMatch(engine, re, text).Some? {
      var span := engine(re, text).value;
      assert OccursAt(text[span.start..span.start + span.length], text, span.start);
    }
  }

  function SubjectText(subject: Option<string>): string {
    match subject
    case Some(s) => s
    case None => ""
  }

  /** The searched text: the subject (empty when absent), one space, then the content. */
  function FullContent(subject: Option<string>, content: string): (text: string)
    ensures |text| == |SubjectText(subject)| + 1 + |content|
    ensures text[..|SubjectText(subject)|] == SubjectText(subject)
    ensures text[|SubjectText(subject)|] == ' '
    ensures text[|SubjectText(subject)| + 1..] == content
  {
    SubjectText(subject) + " " + content
  }

  /** The three structural gates, in order. */
  function GateViolations(input: CheckInput): (g: seq<Violation>)
    ensures |g| <= 2
    ensures forall v | v in g :: v.severity == Critical && v.matchedText.None?
  {
    var optOut: seq<Violation> := if input.optedOut then [OPT_OUT_VIOLATION] else [];
    var priorRelationship := if input.offeringType == Reg506B && !input.hasPriorRelationship
      then optOut + [PRIOR_RELATIONSHIP_VIOLATION] else optOut;
    if input.offeringType == Reg506C && input.accreditedStatus == "NOT_ACCREDITED"
    then priorRelationship + [ACCREDITED_ONLY_VIOLATION] else priorRelationship
  }

  /** What one prohibited-language entry contributes. */
  function PatternHit(engine: RegexEngine, entry: PatternRule, text: string): (hit: seq<Violation>)
    ensures |hit| <= 1
    ensures hit != [] <==> FirstMatch(engine, entry.pattern, text).Some?
    ensures forall v | v in hit ::
      v.rule == entry.rule && v.severity == High && v.message == entry.message &&
      v.matchedText == FirstMatch(engine, entry.pattern, text)
  {
    match FirstMatch(engine, entry.pattern, text)
    case None => []
    case Some(m) => [Violation(entry.rule, High, entry.message, Some(m))]
  }

  /** The violations a table of prohibited patterns yields, in table order. */
  function ProhibitedHits(engine: RegexEngine, table: seq<PatternRule>, text: string): (hits: seq<Violation>)
    ensures |hits| <= |table|
    decreases |table|
  {
    if table == [] then []
    else ProhibitedHits(engine, table[..|table| - 1], text) + PatternHit(engine, table[|table| - 1], text)
  }

  /** What one required element contributes. */
  function ElementWarning(engine: RegexEngine, entry: PatternRule, text: string): (w: seq<Warning>)
    ensures |w| <= 1
    ensures w != [] <==> FirstMatch(engine, entry.pattern, text).None?
    ensures forall x | x in w :: x == Warning(entry.rule, entry.message)
  {
    if FirstMatch(engine, entry.pattern, text).None? then [Warning(entry.rule, entry.message)] else []
  }

  /** The warnings a table of required elements yields, in table order. */
  function MissingElements(engine: RegexEngine, table: seq<PatternRule>, text: string): (warnings: seq<Warning>)
    ensures |warnings| <= |table|
    decreases |table|
  {
    if table == [] then []
    else MissingElements(engine, table[..|table| - 1], text) + ElementWarning(engine, table[|table| - 1], text)
  }

  /** The return-qualification rule. */
  function ReturnCheck(engine: RegexEngine, text: string): (q: seq<Violation>)
    ensures |q| <= 1
    ensures q != [] <==>
      FirstMatch(engine, RETURN_MENTION, text).Some? && FirstMatch(engine, RETURN_QUALIFIER, text).None?
    ensures forall v | v in q :: v == Violation(QUALIFY_RULE, High, QUALIFY_MESSAGE, FirstMatch(engine, RETURN_MENTION, text))
  {
    match FirstMatch(engine, RETURN_MENTION, text)
    case None => []
    case Some(m) =>
      if FirstMatch(engine, RETURN_QUALIFIER, text).Some? then []
      else [Violation(QUALIFY_RULE, High, QUALIFY_MESSAGE, Some(m))]
  }

  /** The result the compliance check must produce. */
  function Evaluate(engine: RegexEngine, input: CheckInput): (r: CheckResult)
    ensures r.passed <==> |r.violations| == 0
    ensures r.sanitizedContent.None?
  {
    var text := FullContent(input.subject, input.content);
    var violations := GateViolations(input)
      + ProhibitedHits(engine, PROHIBITED_PATTERNS, text)
      + ReturnCheck(engine, text);
    CheckResult(violations == [], violations, MissingElements(engine, REQUIRED_ELEMENTS, text), None)
  }

  /** Scanning one more entry of a table appends that entry's hit. */
  lemma ProhibitedHitsStep(engine: RegexEngine, table: seq<PatternRule>, text: string, i: nat)
    requires i < |table|
    ensures ProhibitedHits(engine, table[..i + 1], text) ==
      ProhibitedHits(engine, table[..i], text) + PatternHit(engine, table[i], text)
  {
    assert table[..i + 1][..i] == table[..i];
  }

  /** Concatenation is associative. */
  lemma AppendAssoc<T>(a: seq<T>, b: seq<T>, c: seq<T>)
    ensures a + b + c == a + (b + c)
  {
  }

  /** Checking one more required element appends that element's warning. */
  lemma MissingElementsStep(engine: RegexEngine, table: seq<PatternRule>, text: string, i: nat)
    requires i < |table|
    ensures MissingElements(engine, table[..i + 1], text) ==
      MissingElements(engine, table[..i], text) + ElementWarning(engine, table[i], text)
  {
    assert table[..i + 1][..i] == table[..i];
  }

  // ─── The check itself ──────────────────────────────────────────

  /** The three structural gates, checked before any content scan. */
  method StructuralGates(input: CheckInput) returns (violations: seq<Violation>)
    ensures violations == GateViolations(input)
  {
    violations := [];
    if input.optedOut {
      violations := violations + [OPT_OUT_VIOLATION];
    }
    if input.offeringType == Reg506B && !input.hasPriorRelationship {
      violations := violations + [PRIOR_RELATIONSHIP_VIOLATION];
    }
    if input.offeringType == Reg506C && input.accreditedStatus == "NOT_ACCREDITED" {
      violations := violations + [ACCREDITED_ONLY_VIOLATION];
    }
  }

  /** One pass over a table of prohibited patterns: every entry whose pattern
      matches appends its HIGH violation, in table order. */
  method ScanProhibited(engine: RegexEngine, table: seq<PatternRule>, text: string, violations: seq<Violation>)
    returns (result: seq<Violation>)
    ensures result == violations + ProhibitedHits(engine, table, text)
  {
    result := violations;
    for i := 0 to |table|
      invariant result == violations + ProhibitedHits(engine, table[..i], text)
    {
      var entry := table[i];
      var m := FirstMatch(engine, entry.pattern, text);
      if m.Some? {
        result := result + [Violation(entry.rule, High, entry.message, m)];
      }
      ProhibitedHitsStep(engine, table, text, i);
      AppendAssoc(violations, ProhibitedHits(engine, table[..i], text), PatternHit(engine, entry, text));
    }
    assert table[..|table|] == table;
  }

  /** One pass over a table of required elements: every entry whose pattern
      does not match yields a warning, in table order. */
  method ScanRequired(engine: RegexEngine, table: seq<PatternRule>, text: string) returns (warnings: seq<Warning>)
    ensures warnings == MissingElements(engine, table, text)
  {
    warnings := [];
    for i := 0 to |table|
      invariant warnings == MissingElements(engine, table[..i], text)
    {
      var entry := table[i];
      if FirstMatch(engine, entry.pattern, text).None? {
        warnings := warnings + [Warning(entry.rule, entry.message)];
      }
      MissingElementsStep(engine, table, text, i);
    }
    assert table[..|table|] == table;
  }

  /** Runs every gate and scan, collecting all violations and warnings
      without stopping at the first one. */
  method CheckCompliance(engine: RegexEngine, input: CheckInput) returns (result: CheckResult)
    ensures result == Evaluate(engine, input)
    ensures result.passed <==> |result.violations| == 0
    ensures result.sanitizedContent == None
  {
    var fullContent := FullContent(input.subject, input.content);
    var violations := StructuralGates(input);
    violations := ScanProhibited(engine, PROHIBITED_PATTERNS, fullContent, violations);
    var warnings := ScanRequired(engine, REQUIRED_ELEMENTS, fullContent);

    var returnMention := FirstMatch(engine, RETURN_MENTION, fullContent);
    if returnMention.Some? {
      var hasQualifier := FirstMatch(engine, RETURN_QUALIFIER, fullContent).Some?;
      if !hasQualifier {
        violations := violations + [Violation(QUALIFY_RULE, High, QUALIFY_MESSAGE, returnMention)];
      }
    }

    var passed := |violations| == 0;
    result := CheckResult(passed, violations, warnings, None);
  }

  // ─── Properties of the rule tables ─────────────────────────────

  /** No two entries of a table share both rule id and message. */
  predicate DistinctEntries(table: seq<PatternRule>) {
    forall i, j :: 0 <= i < j < |table| ==>
      table[i].rule != table[j].rule || table[i].message != table[j].message
  }

  /** The rule ids the structural gates and the return rule use. */
  predicate IsGateOrQualifyRule(rule: string) {
    rule == OPT_OUT_RULE || rule == PRIOR_RELATIONSHIP_RULE || rule == ACCREDITED_ONLY_RULE || rule == QUALIFY_RULE
  }

  /** Nine prohibited patterns and two required elements; the two risk-free
      entries share one rule id (with different messages); no table entry
      reuses the id of a gate or of the return rule. */
  lemma TableFacts()
    ensures |PROHIBITED_PATTERNS| == 9 && |REQUIRED_ELEMENTS| == 2
    ensures PROHIBITED_PATTERNS[1].rule == NO_RISK_FREE_RULE && PROHIBITED_PATTERNS[6].rule == NO_RISK_FREE_RULE
    ensures forall j :: 0 <= j < |PROHIBITED_PATTERNS| && j != 1 && j != 6 ==> PROHIBITED_PATTERNS[j].rule != NO_RISK_FREE_RULE
    ensures DistinctEntries(PROHIBITED_PATTERNS)
    ensures forall j :: 0 <= j < |PROHIBITED_PATTERNS| ==> !IsGateOrQualifyRule(PROHIBITED_PATTERNS[j].rule)
  {
  }

  // ─── Properties of the prohibited-language scan ────────────────

  /** Every violation of the scan is the HIGH hit of one table entry that
      matched, carrying that entry's rule, message and a piece of the text;
      there is at most one per entry. */
  lemma {:induction false} ProhibitedHitsShape(engine: RegexEngine, table: seq<PatternRule>, text: string)
    ensures |ProhibitedHits(engine, table, text)| <= |table|
    ensures forall v | v in ProhibitedHits(engine, table, text) ::
      v.severity == High && v.matchedText.Some? && Includes(text, v.matchedText.value) &&
      exists j :: 0 <= j < |table| && FirstMatch(engine, table[j].pattern, text) == v.matchedText &&
        v == Violation(table[j].rule, High, table[j].message, v.matchedText)
    decreases |table|
  {
    if table != [] {
      var init := table[..|table| - 1];
      ProhibitedHitsShape(engine, init, text);
      forall v | v in ProhibitedHits(engine, table, text)
        ensures exists j ::
          0 <= j < |table| && FirstMatch(engine, table[j].pattern, text) == v.matchedText &&
          v == Violation(table[j].rule, High, table[j].message, v.matchedText)
      {
        if v in ProhibitedHits(engine, init, text) {
          var j :| 0 <= j < |init| && FirstMatch(engine, init[j].pattern, text) == v.matchedText &&
            v == Violation(init[j].rule, High, init[j].message, v.matchedText);
          assert init[j] == table[j];
        } else {
          assert FirstMatch(engine, table[|table| - 1].pattern, text) == v.matchedText;
        }
      }
      forall v | v in ProhibitedHits(engine, table, text)
        ensures v.matchedText.Some? && Includes(text, v.matchedText.value)
      {
        if v !in ProhibitedHits(engine, init, text) {
          MatchInText(engine, table[|table| - 1].pattern, text);
        }
      }
    }
  }

  /** Scanning a prefix of a table yields a prefix of its violations. */
  lemma {:induction false} ProhibitedHitsGrow(engine: RegexEngine, table: seq<PatternRule>, text: string, i: nat)
    requires i <= |table|
    ensures ProhibitedHits(engine, table[..i], text) <= ProhibitedHits(engine, table, text)
    decreases |table|
  {
    if i == |table| {
      assert table[..i] == table;
    } else {
      var init := table[..|table| - 1];
      ProhibitedHitsGrow(engine, init, text, i);
      assert init[..i] == table[..i];
    }
  }

  /** Scanning a prefix of the table yields a prefix of the violations, and
      entry `j` adds exactly its own hit (if it matched) right after those of
      the entries before it: the scan reports in table order. */
  lemma ProhibitedHitsPrefix(engine: RegexEngine, table: seq<PatternRule>, text: string, j: nat)
    requires j < |table|
    ensures ProhibitedHits(engine, table[..j + 1], text) ==
      ProhibitedHits(engine, table[..j], text) + PatternHit(engine, table[j], text)
    ensures ProhibitedHits(engine, table[..j + 1], text) <= ProhibitedHits(engine, table, text)
  {
    ProhibitedHitsStep(engine, table, text, j);
    ProhibitedHitsGrow(engine, table, text, j + 1);
  }

  /** If entry `i` and a later entry `j` both match, the hit of `i` is
      reported before the hit of `j`, each at the position given by the
      number of hits before it. */
  lemma ProhibitedHitsInTableOrder(engine: RegexEngine, table: seq<PatternRule>, text: string, i: nat, j: nat)
    requires i < j < |table|
    requires FirstMatch(engine, table[i].pattern, text).Some? && FirstMatch(engine, table[j].pattern, text).Some?
    ensures var hits := ProhibitedHits(engine, table, text);
      var pi := |ProhibitedHits(engine, table[..i], text)|;
      var pj := |ProhibitedHits(engine, table[..j], text)|;
      pi < pj < |hits| &&
      hits[pi] == Violation(table[i].rule, High, table[i].message, FirstMatch(engine, table[i].pattern, text)) &&
      hits[pj] == Violation(table[j].rule, High, table[j].message, FirstMatch(engine, table[j].pattern, text))
  {
    ProhibitedHitsPrefix(engine, table, text, i);
    ProhibitedHitsPrefix(engine, table, text, j);
    ProhibitedHitsGrow(engine, table[..j], text, i + 1);
    assert table[..j][..i + 1] == table[..i + 1];
    assert PatternHit(engine, table[i], text) ==
      [Violation(table[i].rule, High, table[i].message, FirstMatch(engine, table[i].pattern, text))];
    assert PatternHit(engine, table[j], text) ==
      [Violation(table[j].rule, High, table[j].message, FirstMatch(engine, table[j].pattern, text))];
    var hits := ProhibitedHits(engine, table, text);
    var upToI := ProhibitedHits(engine, table[..i + 1], text);
    var upToJ := ProhibitedHits(engine, table[..j + 1], text);
    var pi := |ProhibitedHits(engine, table[..i], text)|;
    var pj := |ProhibitedHits(engine, table[..j], text)|;
    assert hits[pi] == upToI[pi];
    assert hits[pj] == upToJ[pj];
  }

  /** Entry `j` of the prohibited table is reported (by its rule id and
      message) exactly when its pattern matches the text. */
  lemma ProhibitedEntryReported(engine: RegexEngine, text: string, j: nat)
    requires j < |PROHIBITED_PATTERNS|
    ensures (exists v :: v in ProhibitedHits(engine, PROHIBITED_PATTERNS, text) &&
               v.rule == PROHIBITED_PATTERNS[j].rule && v.message == PROHIBITED_PATTERNS[j].message)
        <==> FirstMatch(engine, PROHIBITED_PATTERNS[j].pattern, text).Some?
  {
    var table := PROHIBITED_PATTERNS;
    var hits := ProhibitedHits(engine, table, text);
    TableFacts();
    ProhibitedHitsShape(engine, table, text);
    ProhibitedHitsPrefix(engine, table, text, j);
    if FirstMatch(engine, table[j].pattern, text).Some? {
      var h := ProhibitedHits(engine, table[..j + 1], text);
      assert h[|h| - 1] in hits;
    }
  }

  // ─── Properties of the required-element scan ───────────────────

  /** A warning is issued for an entry exactly when its pattern is absent,
      and there is at most one per entry. */
  lemma {:induction false} MissingElementsExact(engine: RegexEngine, table: seq<PatternRule>, text: string)
    ensures |MissingElements(engine, table, text)| <= |table|
    ensures forall w :: w in MissingElements(engine, table, text) <==>
      exists j :: 0 <= j < |table| && FirstMatch(engine, table[j].pattern, text).None? &&
        w == Warning(table[j].rule, table[j].message)
    decreases |table|
  {
    if table != [] {
      var init := table[..|table| - 1];
      var last := |table| - 1;
      MissingElementsExact(engine, init, text);
      forall w
        ensures w in MissingElements(engine, table, text) <==>
          exists j :: 0 <= j < |table| && FirstMatch(engine, table[j].pattern, text).None? &&
            w == Warning(table[j].rule, table[j].message)
      {
        if exists j :: 0 <= j < |table| && FirstMatch(engine, table[j].pattern, text).None? &&
            w == Warning(table[j].rule, table[j].message) {
          var j :| 0 <= j < |table| && FirstMatch(engine, table[j].pattern, text).None? &&
            w == Warning(table[j].rule, table[j].message);
          if j < last {
            assert init[j] == table[j];
          }
        }
        if w in MissingElements(engine, init, text) {
          var j :| 0 <= j < |init| && FirstMatch(engine, init[j].pattern, text).None? &&
            w == Warning(init[j].rule, init[j].message);
          assert init[j] == table[j];
        }
      }
    }
  }

  /** The warnings of a check: one per missing disclaimer, past performance
      first; hence at most two, and exactly two when both are missing. */
  lemma RequiredWarnings(engine: RegexEngine, input: CheckInput)
    ensures var text := FullContent(input.subject, input.content);
      var w := Evaluate(engine, input).warnings;
      w == ElementWarning(engine, REQUIRED_ELEMENTS[0], text) + ElementWarning(engine, REQUIRED_ELEMENTS[1], text) &&
      |w| <= 2 &&
      (|w| == 2 <==> FirstMatch(engine, REQUIRED_ELEMENTS[0].pattern, text).None? &&
                     FirstMatch(engine, REQUIRED_ELEMENTS[1].pattern, text).None?)
  {
    var text := FullContent(input.subject, input.content);
    var t := REQUIRED_ELEMENTS;
    assert t[..2] == t && t[..2][..1] == t[..1] && t[..1][..0] == [];
    assert MissingElements(engine, t[..1], text) == ElementWarning(engine, t[0], text);
    assert MissingElements(engine, t, text) ==
      MissingElements(engine, t[..1], text) + ElementWarning(engine, t[1], text);
  }

  // ─── Properties of the whole check ─────────────────────────────

  /** `rule` appears in `vs`. */
  predicate Reports(vs: seq<Violation>, rule: string) {
    exists k :: 0 <= k < |vs| && vs[k].rule == rule
  }

  /** No violation of the prohibited-language scan uses the rule id of a
      gate or of the return rule, and all of them are HIGH. */
  lemma ScanRules(engine: RegexEngine, text: string)
    ensures forall v | v in ProhibitedHits(engine, PROHIBITED_PATTERNS, text) ::
      v.severity == High && !IsGateOrQualifyRule(v.rule)
  {
    ProhibitedHitsShape(engine, PROHIBITED_PATTERNS, text);
    TableFacts();
  }

  /** A rule appears in a concatenation exactly when it appears in one part. */
  lemma ReportsAppend(a: seq<Violation>, b: seq<Violation>, rule: string)
    ensures Reports(a + b, rule) <==> Reports(a, rule) || Reports(b, rule)
  {
    if Reports(a + b, rule) {
      var k :| 0 <= k < |a + b| && (a + b)[k].rule == rule;
      if k >= |a| {
        assert b[k - |a|].rule == rule;
      }
    }
    if Reports(a, rule) {
      var k :| 0 <= k < |a| && a[k].rule == rule;
      assert (a + b)[k] == a[k];
    }
    if Reports(b, rule) {
      var k :| 0 <= k < |b| && b[k].rule == rule;
      assert (a + b)[|a| + k] == b[k];
    }
  }

  /** A rule id that no entry of a table uses is never reported by its scan. */
  lemma {:induction false} HitsNeverReport(engine: RegexEngine, table: seq<PatternRule>, text: string, rule: string)
    requires forall j :: 0 <= j < |table| ==> table[j].rule != rule
    ensures !Reports(ProhibitedHits(engine, table, text), rule)
    decreases |table|
  {
    if table != [] {
      var init := table[..|table| - 1];
      assert forall j :: 0 <= j < |init| ==> init[j] == table[j];
      HitsNeverReport(engine, init, text, rule);
      ReportsAppend(ProhibitedHits(engine, init, text), PatternHit(engine, table[|table| - 1], text), rule);
    }
  }

  /** The scan never reports a gate's or the return rule's id. */
  lemma ScanNeverReportsGateRules(engine: RegexEngine, text: string, rule: string)
    requires IsGateOrQualifyRule(rule)
    ensures !Reports(ProhibitedHits(engine, PROHIBITED_PATTERNS, text), rule)
  {
    TableFacts();
    HitsNeverReport(engine, PROHIBITED_PATTERNS, text, rule);
  }

  /** The structural gates: each fires exactly on its own condition, and
      none uses the return rule's id. */
  lemma GateReports(input: CheckInput)
    ensures var g := GateViolations(input);
      (Reports(g, OPT_OUT_RULE) <==> input.optedOut) &&
      (Reports(g, PRIOR_RELATIONSHIP_RULE) <==> input.offeringType == Reg506B && !input.hasPriorRelationship) &&
      (Reports(g, ACCREDITED_ONLY_RULE) <==> input.offeringType == Reg506C && input.accreditedStatus == "NOT_ACCREDITED") &&
      !Reports(g, QUALIFY_RULE)
  {
    var o: seq<Violation> := if input.optedOut then [OPT_OUT_VIOLATION] else [];
    var p: seq<Violation> := if input.offeringType == Reg506B && !input.hasPriorRelationship
      then [PRIOR_RELATIONSHIP_VIOLATION] else [];
    var a: seq<Violation> := if input.offeringType == Reg506C && input.accreditedStatus == "NOT_ACCREDITED"
      then [ACCREDITED_ONLY_VIOLATION] else [];
    assert GateViolations(input) == o + p + a;
    forall rule: string
      ensures Reports(GateViolations(input), rule) <==>
        (o != [] && rule == OPT_OUT_RULE) || (p != [] && rule == PRIOR_RELATIONSHIP_RULE) ||
        (a != [] && rule == ACCREDITED_ONLY_RULE)
    {
      ReportsAppend(o + p, a, rule);
      ReportsAppend(o, p, rule);
      if o != [] && rule == OPT_OUT_RULE {
        assert o[0].rule == rule;
      }
      if p != [] && rule == PRIOR_RELATIONSHIP_RULE {
        assert p[0].rule == rule;
      }
      if a != [] && rule == ACCREDITED_ONLY_RULE {
        assert a[0].rule == rule;
      }
    }
  }

  /** Every gate violation is CRITICAL and carries no matched text; opt-out
      comes first; the two offering gates exclude each other, so there are
      at most two. */
  lemma GateFacts(input: CheckInput)
    ensures var g := GateViolations(input);
      |g| <= 2 &&
      (forall v | v in g :: v.severity == Critical && v.matchedText.None? && RuleSeverity(v.rule) == Critical) &&
      (input.optedOut ==> |g| > 0 && g[0] == OPT_OUT_VIOLATION) &&
      (input.offeringType == Reg506B && !input.hasPriorRelationship ==> PRIOR_RELATIONSHIP_VIOLATION in g) &&
      (input.offeringType == Reg506C && input.accreditedStatus == "NOT_ACCREDITED" ==> ACCREDITED_ONLY_VIOLATION in g)
  {
  }

  /** The violations of a check: the gates', then the scan's, then the
      return rule's. */
  lemma ViolationLayout(engine: RegexEngine, input: CheckInput)
    ensures var text := FullContent(input.subject, input.content);
      Evaluate(engine, input).violations ==
        GateViolations(input) + ProhibitedHits(engine, PROHIBITED_PATTERNS, text) + ReturnCheck(engine, text)
  {
  }

  /** A rule is reported by a check exactly when the gates, the scan or the
      return rule report it. */
  lemma ViolationParts(engine: RegexEngine, input: CheckInput, rule: string)
    ensures var text := FullContent(input.subject, input.content);
      Reports(Evaluate(engine, input).violations, rule) <==>
        Reports(GateViolations(input), rule) ||
        Reports(ProhibitedHits(engine, PROHIBITED_PATTERNS, text), rule) ||
        Reports(ReturnCheck(engine, text), rule)
  {
    var text := FullContent(input.subject, input.content);
    var g := GateViolations(input);
    var h := ProhibitedHits(engine, PROHIBITED_PATTERNS, text);
    ViolationLayout(engine, input);
    ReportsAppend(g + h, ReturnCheck(engine, text), rule);
    ReportsAppend(g, h, rule);
  }

  /** A gate rule appears among the violations exactly when its gate fired. */
  lemma GateRulesOnlyFromGates(engine: RegexEngine, input: CheckInput, rule: string)
    requires rule == OPT_OUT_RULE || rule == PRIOR_RELATIONSHIP_RULE || rule == ACCREDITED_ONLY_RULE
    ensures Reports(Evaluate(engine, input).violations, rule) <==> Reports(GateViolations(input), rule)
  {
    var text := FullContent(input.subject, input.content);
    var g := GateViolations(input);
    var h := ProhibitedHits(engine, PROHIBITED_PATTERNS, text);
    var q := ReturnCheck(engine, text);
    ScanNeverReportsGateRules(engine, text, rule);
    ReturnCheckReportsOnlyQualify(engine, text, rule);
    ViolationLayout(engine, input);
    ReportsAppend(g + h, q, rule);
    ReportsAppend(g, h, rule);
  }

  /** The return rule reports no rule id but its own. */
  lemma ReturnCheckReportsOnlyQualify(engine: RegexEngine, text: string, rule: string)
    requires rule != QUALIFY_RULE
    ensures !Reports(ReturnCheck(engine, text), rule)
  {
    var q := ReturnCheck(engine, text);
    if q != [] {
      assert q[0] in q;
    }
  }

  /** `passed` holds exactly when there is no violation, whatever the
      warnings, and no sanitized content is ever returned. */
  lemma PassedIffNoViolations(engine: RegexEngine, input: CheckInput)
    ensures Evaluate(engine, input).passed <==> |Evaluate(engine, input).violations| == 0
    ensures Evaluate(engine, input).sanitizedContent.None?
  {
  }

  /** An opted-out investor always gets OPT_OUT_RESPECTED (CRITICAL), as the
      first violation, whatever the content; no other investor ever gets it. */
  lemma OptOutGate(engine: RegexEngine, input: CheckInput)
    ensures var vs := Evaluate(engine, input).violations;
      (input.optedOut ==> |vs| > 0 && vs[0] == OPT_OUT_VIOLATION && vs[0].severity == Critical) &&
      (Reports(vs, OPT_OUT_RULE) <==> input.optedOut)
  {
    GateRulesOnlyFromGates(engine, input, OPT_OUT_RULE);
    GateReports(input);
    GateFacts(input);
    ViolationLayout(engine, input);
  }

  /** The 506(b) gate fires exactly for a 506(b) offering to an investor
      without a prior relationship, the 506(c) gate exactly for a 506(c)
      offering to a NOT_ACCREDITED investor; both are CRITICAL and never
      fire together. */
  lemma OfferingGates(engine: RegexEngine, input: CheckInput)
    ensures var vs := Evaluate(engine, input).violations;
      (Reports(vs, PRIOR_RELATIONSHIP_RULE) <==> input.offeringType == Reg506B && !input.hasPriorRelationship) &&
      (Reports(vs, ACCREDITED_ONLY_RULE) <==> input.offeringType == Reg506C && input.accreditedStatus == "NOT_ACCREDITED") &&
      !(Reports(vs, PRIOR_RELATIONSHIP_RULE) && Reports(vs, ACCREDITED_ONLY_RULE))
    ensures input.offeringType == Reg506B && !input.hasPriorRelationship ==>
      PRIOR_RELATIONSHIP_VIOLATION in Evaluate(engine, input).violations
    ensures input.offeringType == Reg506C && input.accreditedStatus == "NOT_ACCREDITED" ==>
      ACCREDITED_ONLY_VIOLATION in Evaluate(engine, input).violations
  {
    GateRulesOnlyFromGates(engine, input, PRIOR_RELATIONSHIP_RULE);
    GateRulesOnlyFromGates(engine, input, ACCREDITED_ONLY_RULE);
    GateReports(input);
    GateFacts(input);
    ViolationLayout(engine, input);
  }

  /** Only the return rule can report QUALIFY_RETURN_PROJECTIONS, and it
      comes last. */
  lemma QualifyOnlyFromReturnCheck(engine: RegexEngine, input: CheckInput)
    ensures var text := FullContent(input.subject, input.content);
      var vs := Evaluate(engine, input).violations;
      (Reports(vs, QUALIFY_RULE) <==> ReturnCheck(engine, text) != []) &&
      (ReturnCheck(engine, text) != [] ==> vs[|vs| - 1] == ReturnCheck(engine, text)[0])
  {
    var text := FullContent(input.subject, input.content);
    ScanNeverReportsGateRules(engine, text, QUALIFY_RULE);
    GateReports(input);
    ViolationLayout(engine, input);
    ReportedOnlyByLastPart(GateViolations(input), ProhibitedHits(engine, PROHIBITED_PATTERNS, text),
      ReturnCheck(engine, text), QUALIFY_RULE);
  }

  /** A rule that only the last, at most one-element, part of `a + b + c`
      uses is reported exactly when that part is not empty, and is then last. */
  lemma ReportedOnlyByLastPart(a: seq<Violation>, b: seq<Violation>, c: seq<Violation>, rule: string)
    requires !Reports(a, rule) && !Reports(b, rule)
    requires |c| <= 1 && forall v | v in c :: v.rule == rule
    ensures Reports(a + b + c, rule) <==> c != []
    ensures c != [] ==> (a + b + c)[|a + b + c| - 1] == c[0]
  {
    ReportsAppend(a + b, c, rule);
    ReportsAppend(a, b, rule);
    if c != [] {
      assert c[0] in c;
    }
  }

  /** QUALIFY_RETURN_PROJECTIONS is reported exactly when a return figure is
      found and no qualifying word occurs anywhere in the text; it is then
      the last violation, HIGH, and carries the matched figure. */
  lemma ReturnQualification(engine: RegexEngine, input: CheckInput)
    ensures var text := FullContent(input.subject, input.content);
      var vs := Evaluate(engine, input).violations;
      var mention := FirstMatch(engine, RETURN_MENTION, text);
      var qualified := FirstMatch(engine, RETURN_QUALIFIER, text).Some?;
      (Reports(vs, QUALIFY_RULE) <==> mention.Some? && !qualified) &&
      (mention.Some? && !qualified ==> vs[|vs| - 1] == Violation(QUALIFY_RULE, High, QUALIFY_MESSAGE, mention))
  {
    QualifyOnlyFromReturnCheck(engine, input);
  }

  /** Two risk-free claims ("risk free" and "no risk") are two violations
      with the same rule id NO_RISK_FREE, in table order. */
  lemma NoRiskFreeTwice(engine: RegexEngine, text: string)
    requires FirstMatch(engine, PROHIBITED_PATTERNS[1].pattern, text).Some?
    requires FirstMatch(engine, PROHIBITED_PATTERNS[6].pattern, text).Some?
    ensures var hits := ProhibitedHits(engine, PROHIBITED_PATTERNS, text);
      exists k1, k2 :: 0 <= k1 < k2 < |hits| &&
        hits[k1].rule == NO_RISK_FREE_RULE && hits[k2].rule == NO_RISK_FREE_RULE &&
        hits[k1].message == "Claims risk-free investment" && hits[k2].message == "Claims no risk"
  {
    var table := PROHIBITED_PATTERNS;
    assert table[1] == PatternRule(Regex(@"risk[- ]?free", true), NO_RISK_FREE_RULE, "Claims risk-free investment");
    assert table[6] == PatternRule(Regex(@"no[- ]?risk", true), NO_RISK_FREE_RULE, "Claims no risk");
    TwoHitsInOrder(engine, table, text, 1, 6);
  }

  /** Two matching entries give two hits, the earlier entry's first. */
  lemma TwoHitsInOrder(engine: RegexEngine, table: seq<PatternRule>, text: string, i: nat, j: nat)
    requires i < j < |table|
    requires FirstMatch(engine, table[i].pattern, text).Some? && FirstMatch(engine, table[j].pattern, text).Some?
    ensures var hits := ProhibitedHits(engine, table, text);
      exists k1, k2 :: 0 <= k1 < k2 < |hits| &&
        hits[k1].rule == table[i].rule && hits[k1].message == table[i].message &&
        hits[k2].rule == table[j].rule && hits[k2].message == table[j].message
  {
    ProhibitedHitsInTableOrder(engine, table, text, i, j);
    var hits := ProhibitedHits(engine, table, text);
    var k1 := |ProhibitedHits(engine, table[..i], text)|;
    var k2 := |ProhibitedHits(engine, table[..j], text)|;
    assert hits[k1].rule == table[i].rule && hits[k2].rule == table[j].rule;
  }

  /** A check reports at most 2 gate violations (opt-out plus one offering
      gate), 9 prohibited-language hits and 1 return violation. */
  lemma ViolationCountBound(engine: RegexEngine, input: CheckInput)
    ensures |Evaluate(engine, input).violations| <= 12
  {
    var text := FullContent(input.subject, input.content);
    ProhibitedHitsShape(engine, PROHIBITED_PATTERNS, text);
    TableFacts();
    GateFacts(input);
    ViolationLayout(engine, input);
  }

  /** The severity of every violation is fixed by its rule id: CRITICAL for
      the three gates, HIGH for everything else. */
  function RuleSeverity(rule: string): Severity {
    if rule == OPT_OUT_RULE || rule == PRIOR_RELATIONSHIP_RULE || rule == ACCREDITED_ONLY_RULE then Critical else High
  }

  lemma SeverityFixedByRule(engine: RegexEngine, input: CheckInput)
    ensures forall v | v in Evaluate(engine, input).violations :: v.severity == RuleSeverity(v.rule)
  {
    var text := FullContent(input.subject, input.content);
    ScanRules(engine, text);
    GateFacts(input);
    ViolationLayout(engine, input);
  }

  /** Every matched text a violation carries is a piece of the searched text. */
  lemma MatchedTextInContent(engine: RegexEngine, input: CheckInput)
    ensures forall v | v in Evaluate(engine, input).violations && v.matchedText.Some? ::
      Includes(FullContent(input.subject, input.content), v.matchedText.value)
  {
    var text := FullContent(input.subject, input.content);
    ProhibitedHitsShape(engine, PROHIBITED_PATTERNS, text);
    MatchInText(engine, RETURN_MENTION, text);
    GateFacts(input);
    ViolationLayout(engine, input);
  }

  /** Two engines that agree on every prohibited pattern yield the same hits. */
  lemma {:induction false} ProhibitedHitsAgree(e1: RegexEngine, e2: RegexEngine, table: seq<PatternRule>, text: string)
    requires forall j :: 0 <= j < |table| ==> e1(table[j].pattern, text) == e2(table[j].pattern, text)
    ensures ProhibitedHits(e1, table, text) == ProhibitedHits(e2, table, text)
    decreases |table|
  {
    if table != [] {
      var init := table[..|table| - 1];
      assert forall j :: 0 <= j < |init| ==> init[j] == table[j];
      ProhibitedHitsAgree(e1, e2, init, text);
    }
  }

  /** Two engines that agree on the two return patterns give the same
      return-rule outcome. */
  lemma ReturnCheckAgree(e1: RegexEngine, e2: RegexEngine, text: string)
    requires e1(RETURN_MENTION, text) == e2(RETURN_MENTION, text)
    requires e1(RETURN_QUALIFIER, text) == e2(RETURN_QUALIFIER, text)
    ensures ReturnCheck(e1, text) == ReturnCheck(e2, text)
  {
    assert FirstMatch(e1, RETURN_MENTION, text) == FirstMatch(e2, RETURN_MENTION, text);
    assert FirstMatch(e1, RETURN_QUALIFIER, text) == FirstMatch(e2, RETURN_QUALIFIER, text);
  }

  /** Warnings never influence the verdict: two engines that agree on the
      prohibited patterns and on the return patterns, however they differ on
      the required disclaimers, give the same violations and verdict. */
  lemma WarningsNeverBlock(e1: RegexEngine, e2: RegexEngine, input: CheckInput)
    requires forall j :: 0 <= j < |PROHIBITED_PATTERNS| ==>
      e1(PROHIBITED_PATTERNS[j].pattern, FullContent(input.subject, input.content)) ==
      e2(PROHIBITED_PATTERNS[j].pattern, FullContent(input.subject, input.content))
    requires e1(RETURN_MENTION, FullContent(input.subject, input.content)) ==
      e2(RETURN_MENTION, FullContent(input.subject, input.content))
    requires e1(RETURN_QUALIFIER, FullContent(input.subject, input.content)) ==
      e2(RETURN_QUALIFIER, FullContent(input.subject, input.content))
    ensures Evaluate(e1, input).violations == Evaluate(e2, input).violations
    ensures Evaluate(e1, input).passed == Evaluate(e2, input).passed
  {
    var text := FullContent(input.subject, input.content);
    ProhibitedHitsAgree(e1, e2, PROHIBITED_PATTERNS, text);
    ReturnCheckAgree(e1, e2, text);
    ViolationLayout(e1, input);
    ViolationLayout(e2, input);
  }

  // ─── Disclaimer templates and helpers ──────────────────────────

  /** How the templates name the firm: the configured firm name, or
      "[FIRM]" when it is unset or empty. */
  function FirmLabel(firmName: Option<string>): (shown: string)
    ensures shown != ""
    ensures firmName.Some? && firmName.value != "" ==> shown == firmName.value
    ensures firmName.None? || firmName.value == "" ==> shown == "[FIRM]"
  {
    match firmName
    case Some(name) => if name != "" then name else "[FIRM]"
    case None => "[FIRM]"
  }

  const UNSUBSCRIBE_PLACEHOLDER := "{{unsubscribe_link}}"

  const EMAIL_FOOTER_HEAD := "---\nThis communication is for "
    + "informational purposes only and does "
    + "not constitute an offer to sell or a "
    + "solicitation of an offer to buy any "
    + "security. Securities are offered only "
    + "to qualified investors through "
    + "official offering documents. "
  const EMAIL_FOOTER_TAIL := " is not a registered broker-dealer. "
    + "Past performance does not guarantee "
    + "future results. All investments carry "
    + "risk including the potential loss of "
    + "principal.\n\nTo opt out of future "
    + "communications, click here: "

  /** The e-mail footer up to (not including) the unsubscribe placeholder. */
  function EmailFooterBody(firmName: Option<string>): string {
    EMAIL_FOOTER_HEAD + FirmLabel(firmName) + EMAIL_FOOTER_TAIL
  }

  // A brace test on a string literal costs the solver roughly the square of
  // the literal's length, so the footer is checked one piece at a time.
  lemma HeadPieceBraceFree1() ensures '{' !in "---\nThis communication is for " {}
  lemma HeadPieceBraceFree2() ensures '{' !in "informational purposes only and does " {}
  lemma HeadPieceBraceFree3() ensures '{' !in "not constitute an offer to sell or a " {}
  lemma HeadPieceBraceFree4() ensures '{' !in "solicitation of an offer to buy any " {}
  lemma HeadPieceBraceFree5() ensures '{' !in "security. Securities are offered only " {}
  lemma HeadPieceBraceFree6() ensures '{' !in "to qualified investors through " {}
  lemma HeadPieceBraceFree7() ensures '{' !in "official offering documents. " {}
  lemma TailPieceBraceFree1() ensures '{' !in " is not a registered broker-dealer. " {}
  lemma TailPieceBraceFree2() ensures '{' !in "Past performance does not guarantee " {}
  lemma TailPieceBraceFree3() ensures '{' !in "future results. All investments carry " {}
  lemma TailPieceBraceFree4() ensures '{' !in "risk including the potential loss of " {}
  lemma TailPieceBraceFree5() ensures '{' !in "principal.\n\nTo opt out of future " {}
  lemma TailPieceBraceFree6() ensures '{' !in "communications, click here: " {}

  /** The fixed text before the firm name holds no brace. */
  lemma FooterHeadBraceFree()
    ensures '{' !in EMAIL_FOOTER_HEAD
  {
    HeadPieceBraceFree1(); HeadPieceBraceFree2(); HeadPieceBraceFree3(); HeadPieceBraceFree4();
    HeadPieceBraceFree5(); HeadPieceBraceFree6(); HeadPieceBraceFree7();
  }

  /** The fixed text between the firm name and the placeholder holds no brace. */
  lemma FooterTailBraceFree()
    ensures '{' !in EMAIL_FOOTER_TAIL
  {
    TailPieceBraceFree1(); TailPieceBraceFree2(); TailPieceBraceFree3();
    TailPieceBraceFree4(); TailPieceBraceFree5(); TailPieceBraceFree6();
  }

  /** The footer text before the placeholder holds a brace only if the firm
      name does; in particular never for an unset firm name. */
  lemma FooterBodyBraceFree(firmName: Option<string>)
    ensures '{' !in FirmLabel(firmName) <==> '{' !in EmailFooterBody(firmName)
    ensures firmName.None? ==> '{' !in EmailFooterBody(firmName)
  {
    FooterHeadBraceFree();
    FooterTailBraceFree();
    assert '{' !in "[FIRM]";
  }

  const VOICE_OPENING_HEAD := "This call is being recorded for "
    + "quality and compliance purposes. "
    + "I'm reaching out on behalf of "
  const VOICE_OPENING_TAIL := " regarding a hospitality investment "
    + "opportunity. This is not a solicitation "
    + "to buy securities, and any investment "
    + "decision should be made only after "
    + "reviewing the full offering documents "
    + "with your own advisors. May I continue?"
  const VOICE_CLOSING_HEAD := "Thank you for your time. As a reminder, "
  const VOICE_CLOSING_TAIL := " is not a registered broker-dealer, "
    + "and nothing discussed today constitutes "
    + "investment advice or a solicitation. "
    + "Any investment is subject to the terms "
    + "in the private placement memorandum."
  const SMS_HEAD := "Msg from "
  const SMS_TAIL := ". Not investment advice. Reply STOP to opt out."

  /** The four channel disclaimers. */
  datatype Disclaimers = Disclaimers(emailFooter: string, voiceOpening: string, voiceClosing: string, smsDisclaimer: string)

  /** The disclaimer texts for a firm: every one of them names the firm, and
      the e-mail footer ends with the unsubscribe placeholder. */
  function DisclaimersFor(firmName: Option<string>): (d: Disclaimers)
    ensures var firm := FirmLabel(firmName);
      Includes(d.emailFooter, firm) && Includes(d.voiceOpening, firm) &&
      Includes(d.voiceClosing, firm) && Includes(d.smsDisclaimer, firm)
    ensures d.emailFooter == EmailFooterBody(firmName) + UNSUBSCRIBE_PLACEHOLDER
  {
    var firm := FirmLabel(firmName);
    IncludesInMiddle(EMAIL_FOOTER_HEAD, firm, EMAIL_FOOTER_TAIL, UNSUBSCRIBE_PLACEHOLDER);
    OccursInMiddle(VOICE_OPENING_HEAD, firm, VOICE_OPENING_TAIL);
    OccursInMiddle(VOICE_CLOSING_HEAD, firm, VOICE_CLOSING_TAIL);
    OccursInMiddle(SMS_HEAD, firm, SMS_TAIL);
    Disclaimers(
      EMAIL_FOOTER_HEAD + firm + EMAIL_FOOTER_TAIL + UNSUBSCRIBE_PLACEHOLDER,
      VOICE_OPENING_HEAD + firm + VOICE_OPENING_TAIL,
      VOICE_CLOSING_HEAD + firm + VOICE_CLOSING_TAIL,
      SMS_HEAD + firm + SMS_TAIL)
  }

  /** Replacing the placeholder in `body + placeholder` and prefixing the
      content, for a footer body without a brace. */
  lemma FooterReplacement(content: string, body: string, link: string)
    ensures '{' !in body ==>
      content + "\n\n" + ReplaceFirst(body + UNSUBSCRIBE_PLACEHOLDER, UNSUBSCRIBE_PLACEHOLDER, link) ==
      content + "\n\n" + body + Substitution(link, UNSUBSCRIBE_PLACEHOLDER, body, "")
    ensures '{' !in body && '$' !in link ==>
      content + "\n\n" + ReplaceFirst(body + UNSUBSCRIBE_PLACEHOLDER, UNSUBSCRIBE_PLACEHOLDER, link) ==
      content + "\n\n" + body + link
  {
    if '{' !in body {
      ReplaceTrailing(body, UNSUBSCRIBE_PLACEHOLDER, link);
    }
  }

  /** The content, a blank line, then the e-mail footer with its FIRST
      unsubscribe placeholder replaced by the link (with the replacement
      patterns of `String.prototype.replace`). Unless the firm name holds a
      brace, the placeholder replaced is the trailing one. */
  function AppendComplianceFooter(firmName: Option<string>, content: string, unsubscribeLink: string): (r: string)
    ensures '{' !in FirmLabel(firmName) ==>
      r == content + "\n\n" + EmailFooterBody(firmName)
        + Substitution(unsubscribeLink, UNSUBSCRIBE_PLACEHOLDER, EmailFooterBody(firmName), "")
    ensures '{' !in FirmLabel(firmName) && '$' !in unsubscribeLink ==>
      r == content + "\n\n" + EmailFooterBody(firmName) + unsubscribeLink
  {
    var footer := DisclaimersFor(firmName).emailFooter;
    var body := EmailFooterBody(firmName);
    assert footer == body + UNSUBSCRIBE_PLACEHOLDER;
    FooterBodyBraceFree(firmName);
    FooterReplacement(content, body, unsubscribeLink);
    content + "\n\n" + ReplaceFirst(footer, UNSUBSCRIBE_PLACEHOLDER, unsubscribeLink)
  }

  /** Actions reserved to registered broker-dealers. */
  const BROKER_DEALER_ACTIONS: seq<string> := [
    "negotiate_terms",
    "handle_funds",
    "make_recommendation",
    "provide_valuation",
    "receive_commission",
    "execute_transaction"
  ]

  /** An action is safe unless it is (exactly, case-sensitively) one of the
      six broker-dealer actions. */
  function IsBrokerDealerSafe(action: string): (safe: bool)
    ensures !safe <==>
      action == "negotiate_terms" || action == "handle_funds" || action == "make_recommendation" ||
      action == "provide_valuation" || action == "receive_commission" || action == "execute_transaction"
  {
    action !in BROKER_DEALER_ACTIONS
  }
}
