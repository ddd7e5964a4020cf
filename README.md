# Compliance filter and investor scoring, in Dafny

This project models the two decision engines of the investor-outreach API.

**The compliance filter** (`apps/api/src/lib/compliance.ts`) gates every outbound investor message. `checkCompliance` runs these steps:

- three structural gates:
  - opt-out;
  - the Reg D Rule 506(b) prior-relationship rule;
  - the Rule 506(c) accredited-only rule;
- a scan of `subject + " " + content` against nine prohibited-language patterns;
- a check for two required disclaimers;
- the rule that return figures must be qualified as projections.

It collects every violation and warning. The message passes exactly when there is no violation. The file also provides:

- the channel disclaimer templates;
- `appendComplianceFooter`;
- `isBrokerDealerSafe`.

**The investor scoring engine** (`apps/api/src/lib/scoring.ts`) rates an investor with:

- seven sub-scores;
- a weighted total rounded to an integer;
- a tier from A+ to D.

The project has three modules, one file each:

- `Text` (`text.dfy`) holds the string operations the engines rely on:
  - substring search (`includes`, `indexOf`);
  - ASCII lower-casing;
  - `String.prototype.replace` with a string pattern. This replaces the first occurrence only and expands the `$` patterns of the GetSubstitution operation of the ECMAScript Language Specification.
- `Compliance` (`compliance.dfy`) covers the filter:
  - `CheckCompliance` is a method with loops over the two rule tables. It is proved equal to the reference function `Evaluate`.
  - The properties of a check are lemmas about `Evaluate`.
  - The regular-expression engine is a parameter: any function reporting where the leftmost match lies. A reported match is cut out of the searched text, so "the matched text is a piece of the message" is proved, not assumed.
- `Scoring` (`scoring.dfy`) covers the scorer as pure functions:
  - The weighted total is computed on integers, with the weights in percent, and proved equal to `Math.round` of the weighted sum taken exactly over the reals.
  - Check sizes and deal amounts are exact reals.

With only a maximum check size, the code averages it with zero (`scoring.ts:78`), so the midpoint is half the maximum. `Scoring.CheckSizeMid` states this.

## Model

| member | source | states |
|---|---|---|
| Text.Includes | apps/api/src/lib/scoring.ts:91 | `hay.includes(needle)` holds exactly when `needle` occurs at some position of `hay` |
| Text.Lower | apps/api/src/lib/scoring.ts:91 | lower-casing keeps the length, leaves no capital letter, turns each capital into its small letter and keeps every other character |
| Text.LowerIdempotent | apps/api/src/lib/scoring.ts:91 | lower-casing an already lower-cased text changes nothing |
| Text.IndexOf | apps/api/src/lib/compliance.ts:167 | the position found is an occurrence of the pattern, and no occurrence lies before it; no position is found only when there is no occurrence at all |
| Text.IndexFrom | apps/api/src/lib/compliance.ts:167 | the first occurrence at or after a start position, with no occurrence between the start and it |
| Text.Substitution | apps/api/src/lib/compliance.ts:167 | the replacement text `replace` inserts; a replacement without `$` is inserted literally |
| Text.ReplaceFirst | apps/api/src/lib/compliance.ts:167 | a text without the pattern is returned unchanged; otherwise only the first occurrence found by `indexOf` is replaced, the text before and after it kept |
| Text.ReplaceTrailing | apps/api/src/lib/compliance.ts:167 | when the pattern's first character does not occur before its trailing occurrence, `replace` swaps exactly that trailing occurrence and keeps the text before it |
| Compliance.FirstMatch | apps/api/src/lib/compliance.ts:116 | a match is returned exactly when the engine reports one lying inside the text; it then has the reported length and occurs at the reported position |
| Compliance.MatchInText | apps/api/src/lib/compliance.ts:116-123 | whatever the engine reports, a matched text is a substring of the searched text |
| Compliance.FullContent | apps/api/src/lib/compliance.ts:82 | the searched text is the subject (empty when absent), exactly one space, then the content, with the subject first |
| Compliance.GateViolations | apps/api/src/lib/compliance.ts:84-112 | the gates yield at most two violations, all CRITICAL and without matched text |
| Compliance.PatternHit | apps/api/src/lib/compliance.ts:116-124 | one prohibited entry yields one violation exactly when its pattern matches: HIGH, with the entry's rule and message and the matched text |
| Compliance.ProhibitedHits | apps/api/src/lib/compliance.ts:115-125 | the scan of a table yields no more violations than the table has entries |
| Compliance.ElementWarning | apps/api/src/lib/compliance.ts:129-131 | one required element yields one warning, with its rule and message, exactly when its pattern does not match |
| Compliance.MissingElements | apps/api/src/lib/compliance.ts:127-132 | the check of a table yields no more warnings than the table has entries |
| Compliance.ReturnCheck | apps/api/src/lib/compliance.ts:134-146 | at most one violation, exactly when a return figure is found and no qualifier is; it is HIGH and carries the matched figure |
| Compliance.Evaluate | apps/api/src/lib/compliance.ts:79-158 | the reference result: `passed` exactly when there is no violation, and no sanitized content |
| Compliance.StructuralGates | apps/api/src/lib/compliance.ts:84-112 | the three gates push, in order, the opt-out, 506(b) and 506(c) violations whose conditions hold |
| Compliance.ProhibitedHitsStep | apps/api/src/lib/compliance.ts:115-125 | scanning one more prohibited entry appends exactly that entry's hit |
| Compliance.ScanProhibited | apps/api/src/lib/compliance.ts:115-125 | the loop over the prohibited table appends one HIGH violation, carrying `match[0]`, per matching entry, in table order |
| Compliance.MissingElementsStep | apps/api/src/lib/compliance.ts:127-132 | checking one more required element appends exactly that element's warning |
| Compliance.ScanRequired | apps/api/src/lib/compliance.ts:127-132 | the loop over the required table yields one warning per element whose pattern is absent, in table order |
| Compliance.CheckCompliance | apps/api/src/lib/compliance.ts:79-158 | the whole check returns the reference result: gate violations, then prohibited hits, then the return rule; warnings from the required elements; `passed` exactly when there is no violation; never a sanitized content |
| Compliance.TableFacts | apps/api/src/lib/compliance.ts:43-58 | nine prohibited patterns and two required elements; entries 1 and 6, and only they, share the rule id NO_RISK_FREE; no two entries share id and message; no entry reuses a gate's or the return rule's id |
| Compliance.ProhibitedHitsShape | apps/api/src/lib/compliance.ts:115-125 | at most one violation per entry; every hit is HIGH, is the hit of one matching entry with its rule and message, and carries a substring of the searched text |
| Compliance.ProhibitedHitsGrow | apps/api/src/lib/compliance.ts:115-125 | scanning a prefix of the table yields a prefix of the violations: later entries only append |
| Compliance.ProhibitedHitsPrefix | apps/api/src/lib/compliance.ts:115-125 | entry `j` adds exactly its own hit right after those of the entries before it, and these stay a prefix of the full scan |
| Compliance.ProhibitedHitsInTableOrder | apps/api/src/lib/compliance.ts:115-125 | when two entries both match, the earlier entry's violation is reported before the later entry's, each with its own rule, message and match |
| Compliance.ProhibitedEntryReported | apps/api/src/lib/compliance.ts:43-53 | each prohibited entry is reported, by rule and message, exactly when its pattern matches |
| Compliance.MissingElementsExact | apps/api/src/lib/compliance.ts:127-132 | a warning is present exactly when some required element with that rule and message is absent from the text; at most one per element |
| Compliance.RequiredWarnings | apps/api/src/lib/compliance.ts:55-58 | the warnings are the past-performance warning, then the broker-dealer warning, each only if missing: at most two, exactly two when both are missing |
| Compliance.ScanRules | apps/api/src/lib/compliance.ts:115-125 | the prohibited-language scan only reports HIGH violations, never under a gate's or the return rule's id |
| Compliance.ReportsAppend | apps/api/src/lib/compliance.ts:80 | a rule appears in a list of violations built by appending exactly when it appears in one of the parts |
| Compliance.HitsNeverReport | apps/api/src/lib/compliance.ts:115-125 | a rule id that no table entry uses is never reported by the scan |
| Compliance.ScanNeverReportsGateRules | apps/api/src/lib/compliance.ts:43-53 | the nine patterns never report OPT_OUT_RESPECTED, 506B_PRIOR_RELATIONSHIP, 506C_ACCREDITED_ONLY or QUALIFY_RETURN_PROJECTIONS |
| Compliance.GateReports | apps/api/src/lib/compliance.ts:84-112 | each gate reports its rule exactly when its own condition holds; no gate reports the return rule |
| Compliance.GateFacts | apps/api/src/lib/compliance.ts:84-112 | gate violations are CRITICAL without matched text; opt-out comes first when present; there are at most two, since the offering gates exclude each other |
| Compliance.ViolationLayout | apps/api/src/lib/compliance.ts:84-146 | the violations are the gates', then the scan's, then the return rule's |
| Compliance.ViolationParts | apps/api/src/lib/compliance.ts:84-146 | a rule is reported by a check exactly when the gates, the scan or the return rule report it |
| Compliance.ReturnCheckReportsOnlyQualify | apps/api/src/lib/compliance.ts:139-144 | the return rule reports no rule id other than QUALIFY_RETURN_PROJECTIONS |
| Compliance.GateRulesOnlyFromGates | apps/api/src/lib/compliance.ts:84-125 | a gate's rule id appears among a check's violations exactly when the gate itself fired, whatever the content |
| Compliance.PassedIffNoViolations | apps/api/src/lib/compliance.ts:148-157 | `passed` holds exactly when there is no violation, whatever the warnings; no sanitized content is returned |
| Compliance.OptOutGate | apps/api/src/lib/compliance.ts:84-91 | an opted-out investor always gets OPT_OUT_RESPECTED, CRITICAL, as the first violation, whatever the content; no other investor ever gets it |
| Compliance.OfferingGates | apps/api/src/lib/compliance.ts:93-112 | 506B_PRIOR_RELATIONSHIP appears exactly for a 506(b) offering without a prior relationship, 506C_ACCREDITED_ONLY exactly for a 506(c) offering to a NOT_ACCREDITED investor; never both |
| Compliance.QualifyOnlyFromReturnCheck | apps/api/src/lib/compliance.ts:134-146 | QUALIFY_RETURN_PROJECTIONS comes only from the return rule, and then as the last violation |
| Compliance.ReturnQualification | apps/api/src/lib/compliance.ts:134-146 | QUALIFY_RETURN_PROJECTIONS is reported exactly when a return figure is found and no qualifying word occurs anywhere; it is then last, HIGH, and carries the matched figure |
| Compliance.TwoHitsInOrder | apps/api/src/lib/compliance.ts:115-125 | two matching entries give two violations, the earlier entry's first, each with its own rule and message |
| Compliance.NoRiskFreeTwice | apps/api/src/lib/compliance.ts:45-50 | a text matching both risk-free patterns gets two NO_RISK_FREE violations, "Claims risk-free investment" before "Claims no risk" |
| Compliance.ViolationCountBound | apps/api/src/lib/compliance.ts:84-146 | a check reports at most 12 violations: two gates, nine patterns, one return rule |
| Compliance.SeverityFixedByRule | apps/api/src/lib/compliance.ts:84-146 | every violation's severity is fixed by its rule: CRITICAL for the three gates, HIGH for all others |
| Compliance.MatchedTextInContent | apps/api/src/lib/compliance.ts:116-143 | every matched text a violation carries is a substring of `subject + " " + content` |
| Compliance.ProhibitedHitsAgree | apps/api/src/lib/compliance.ts:115-125 | the scan depends on the engine only through its answers on the table's patterns |
| Compliance.ReturnCheckAgree | apps/api/src/lib/compliance.ts:134-146 | the return rule depends on the engine only through its answers on the two return patterns |
| Compliance.WarningsNeverBlock | apps/api/src/lib/compliance.ts:127-148 | the required-disclaimer results never influence the violations or the verdict |
| Compliance.FirmLabel | apps/api/src/lib/compliance.ts:65 | the templates name the configured firm, or "[FIRM]" exactly when the name is unset or empty; the label is never empty |
| Compliance.FooterHeadBraceFree | apps/api/src/lib/compliance.ts:64-65 | the footer text before the firm name holds no brace |
| Compliance.FooterTailBraceFree | apps/api/src/lib/compliance.ts:65-67 | the footer text between the firm name and the placeholder holds no brace |
| Compliance.FooterBodyBraceFree | apps/api/src/lib/compliance.ts:63-68 | the footer before the placeholder holds a brace exactly when the firm name does, and never for an unset firm name |
| Compliance.DisclaimersFor | apps/api/src/lib/compliance.ts:62-75 | each of the four channel disclaimers names the firm; the trimmed e-mail footer ends with the unsubscribe placeholder |
| Compliance.FooterReplacement | apps/api/src/lib/compliance.ts:167-168 | replacing the placeholder at the end of a brace-free footer body inserts the link's substitution there; a link without `$` is inserted literally |
| Compliance.AppendComplianceFooter | apps/api/src/lib/compliance.ts:163-169 | for any firm name without a brace (an unset one included): the content, a blank line, then the footer with its trailing unsubscribe placeholder replaced by the link; the link is inserted literally when it holds no `$` |
| Compliance.IsBrokerDealerSafe | apps/api/src/lib/compliance.ts:175-185 | an action is unsafe exactly when it equals, case-sensitively, one of the six broker-dealer actions |
| Scoring.ScoreAccreditation | apps/api/src/lib/scoring.ts:60-69 | scores lie in [0,100]: 100 exactly for third-party-verified and institutional investors, 70 exactly for self-certified, 30 exactly for unverified, 0 exactly for non-accredited ones |
| Scoring.CheckSizeMid | apps/api/src/lib/scoring.ts:78 | the midpoint is the average of two given bounds; a lone minimum is itself; a lone maximum is halved |
| Scoring.FitForMid | apps/api/src/lib/scoring.ts:80-84 | the fit is one of 100/85/65/35/10: 100 exactly when the midpoint covers the target, otherwise 85 exactly from twice the minimum, 65 exactly from the minimum, 35 exactly from half the minimum, and 10 exactly below every threshold |
| Scoring.ScoreCheckSizeFit | apps/api/src/lib/scoring.ts:71-85 | the fit lies in [10,100]; it is 20 exactly when both bounds are missing or zero, and otherwise it is the threshold fit of the check-size midpoint against the deal minimum and target |
| Scoring.HasHotelPreference | apps/api/src/lib/scoring.ts:91 | a hotel preference needs at least one preference |
| Scoring.HotelPreferenceIgnoresCase | apps/api/src/lib/scoring.ts:91 | letter case never matters: preferences that agree once lower-cased agree on naming hotels or hospitality |
| Scoring.PreferencePoints | apps/api/src/lib/scoring.ts:91-94 | 40 exactly for a hotel preference, 15 exactly for no preferences, 5 otherwise |
| Scoring.PriorDealPoints | apps/api/src/lib/scoring.ts:97-100 | in [0,30]: 0 exactly below one prior deal, 15 exactly for one, 25 exactly for two to four, 30 exactly from five |
| Scoring.ExperiencePoints | apps/api/src/lib/scoring.ts:103-110 | in [5,30]: 30 exactly for developers, 28 for operators, 25 for active LPs, 20 for passive LPs, 5 exactly without experience |
| Scoring.PriorDealsMonotone | apps/api/src/lib/scoring.ts:97-112 | more prior hotel deals never lower the prior-deal points or the asset alignment |
| Scoring.ScoreAssetAlignment | apps/api/src/lib/scoring.ts:87-113 | the preference, prior-deal and experience parts add up to at most 100, so the cap never changes the sum; the result lies in [10,100]; 100 needs a hotel preference, five prior deals and a developer background |
| Scoring.ScoreEngagement | apps/api/src/lib/scoring.ts:115-122 | at most 100; for non-negative counts it is the sum of the capped terms (replies x30 up to 40, clicks x10 up to 25, opens x3 up to 15, calls x15 up to 20), since those caps never exceed 100 together; 0 without replies, clicks, opens or calls |
| Scoring.ScoreBehavioral | apps/api/src/lib/scoring.ts:124-129 | at most 100; for non-negative counts it is visits x8 capped at 40 plus downloads x20 capped at 60; 0 without visits and downloads |
| Scoring.ScoreRelationship | apps/api/src/lib/scoring.ts:131-136 | 100 exactly for a prior investor who is also a referral; 90 for a prior investor only; 75 for a referral only; 15 exactly when neither |
| Scoring.DeadlineBonus | apps/api/src/lib/scoring.ts:141-145 | in [0,40]: 40 exactly for a deadline within 30 days, 25 exactly for 31 to 90 days, 10 exactly for 91 to 180 days, 0 exactly without a deadline or beyond 180 days |
| Scoring.ScoreUrgency | apps/api/src/lib/scoring.ts:138-147 | in [0,100]; the score is the 1031 bonus (60 or 0) plus the deadline bonus, the 100 cap never binding; exactly 100 for a 1031 exchange with a deadline within 30 days |
| Scoring.GetTier | apps/api/src/lib/scoring.ts:149-155 | each tier is exactly the interval of totals it covers: A+ from 85, A 70-84, B 50-69, C 30-49, D below 30 |
| Scoring.RoundHalfUp | apps/api/src/lib/scoring.ts:177 | `Math.round`: the integer within half a unit of the value, halves rounded up |
| Scoring.WeightedSum | apps/api/src/lib/scoring.ts:177-185 | with every sub-score in [0,100] the weighted sum lies in [0,100] |
| Scoring.RoundedHundredths | apps/api/src/lib/scoring.ts:177-185 | rounding a hundredth-scaled integer half up is adding 50 and dividing by 100 |
| Scoring.WeightedTotal | apps/api/src/lib/scoring.ts:177-185 | the integer total equals `Math.round` of the exact weighted sum, and lies in [0,100] when every sub-score does |
| Scoring.CalculateInvestorScore | apps/api/src/lib/scoring.ts:159-198 | each reported sub-score is the corresponding scorer applied to the input fields; the tier is the tier of the total; the total is the rounded weighted sum of the sub-scores; with non-negative counts every sub-score and the total lie in [0,100] |
| Scoring.WeightsSumToWhole | apps/api/src/lib/scoring.ts:48-56 | the seven weights add up to 100 percent, and seven equal sub-scores x give a weighted sum of exactly x |
| Scoring.TierMonotone | apps/api/src/lib/scoring.ts:149-155 | a higher total never gets a lower tier |
| Scoring.TierBoundaries | apps/api/src/lib/scoring.ts:149-155 | 85 is A+ and 84 is A, 70 is A and 69 is B, 50 is B and 49 is C, 30 is C and 29 is D |
| Scoring.FitMonotone | apps/api/src/lib/scoring.ts:80-84 | a larger midpoint never lowers the fit, whatever the deal minimum and target |
| Scoring.CheckSizeFitAtTarget | apps/api/src/lib/scoring.ts:71-85 | a midpoint exactly at the target scores 100; one dollar below the target but at least twice the minimum scores 85 |
| Scoring.EngagementRepliesCapped | apps/api/src/lib/scoring.ts:117 | each term is capped on its own: two replies and nothing else give 40, not 60 |
| Scoring.EngagementMonotone | apps/api/src/lib/scoring.ts:115-122 | more replies, clicks, opens or calls never lower the engagement score |
| Scoring.BehavioralMonotone | apps/api/src/lib/scoring.ts:124-129 | more visits or downloads never lower the behavioural score |
| Scoring.UrgencyMonotone | apps/api/src/lib/scoring.ts:138-147 | a nearer deadline never lowers urgency, and any deadline counts at least as much as none |
| Scoring.TotalMonotone | apps/api/src/lib/scoring.ts:177-185 | raising any sub-score never lowers the rounded total |
| Scoring.MoreEngagementNeverLowersScore | apps/api/src/lib/scoring.ts:159-198 | an investor who differs from another only by more engagement never gets a lower total or a lower tier |

## Left out

- The regular-expression engine. Matching is a parameter of the model; the pattern sources are kept as data only. `test` is modelled as "the engine finds a match".
- The `logger.info` call in `checkCompliance` (`compliance.ts:150-155`). It does not affect the result.
- The `process.env.FIRM_NAME` lookup made when the module loads. The firm name is a parameter, with `None` for an unset variable.
- The Prisma enums behind the accreditation status, offering type and hospitality experience. They become datatypes. The accreditation status given to the compliance check stays a free string compared by exact equality.
- JavaScript floating-point rounding. Check sizes and deal amounts are exact reals, so `NaN`, infinities and binary rounding of `0.5 * min` or of the weighted sum are not modelled.
- `toLowerCase` is modelled for ASCII letters only; other case mappings of Unicode are not modelled.
- Route handlers, authentication, audit logging, the dashboard and the web front end. They only feed inputs to, or display outputs of, the two engines.
- Compliance.AppendComplianceFooter: its closed form is stated only for a firm name without `{`. The fixed template text is proved brace-free, so only a configured firm name containing `{` is not covered. For such a name, the model's definition still replaces the first placeholder occurrence, exactly as `replace` does.
- Scoring.ScoreEngagement: the lower bound 0 and the sum of capped terms are stated only for non-negative counts. The code accepts negative counts and the model computes the same values for them.
- Scoring.ScoreBehavioral: the lower bound 0 and the sum of capped terms are stated only for non-negative counts, as for engagement.
- Scoring.CalculateInvestorScore: the [0,100] bounds are stated only for non-negative engagement and behavioural counts.
