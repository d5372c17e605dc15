# Instagram account risk detector: request, recommendations and display

A Dafny model of the deterministic logic around the risk-scoring engine of the
Instagram account risk detector:

- **Backend** (`backend/main.py`). `generate_recommendations` builds the list of
  safety recommendations. It starts with a fixed block chosen by the risk level, then
  adds up to three extra items, each triggered when some reason, lowercased, contains
  a keyword. `analyze_account` assembles the response record from the engine's
  outputs. Module `BackendMain`: the imperative builder `GenerateRecommendations` is
  proved equal to the specification function `Recommendations`. Python's
  `any(... in r.lower() ...)` is the loop `AnyReasonMentions`.
- **Form** (`frontend/src/components/AnalysisForm.tsx`). The form state holds one text
  per control. `handleChange` overwrites the text of one control. `handleSubmit`
  builds the request payload (its ten guarded statements are split, in order, over
  the helper methods `AddCounts` and `AddDetails`): `username` is always sent, every other property only
  when its text is non-empty. The four counts are sent as `parseInt` of the text,
  `verified` as the boolean `text === 'yes'`, and the rest verbatim. Module
  `AnalysisForm`, with JavaScript's `parseInt` (no radix) in module `JsParseInt`.
- **Dashboard** (`frontend/src/components/ResultDashboard.tsx`). The colour classes
  chosen from the risk level, from the confidence label, and from the risk score for
  the gauge (bands ≥ 65, ≥ 40, below). Module `ResultDashboard`.

Helper modules: `Options` (the optional value used for absent payload keys) and
`Text` (lowercasing and substring search).

## Behaviour notes

- The username is echoed verbatim in the response (`backend/main.py:82`).
- The recommendations are the level's block followed by up to three
  keyword-triggered extras (`backend/main.py:113-142`).
- `verified` is sent as a boolean, `true` only for "yes", or its key is left out
  when the control is empty (`AnalysisForm.tsx:40`).
- The four count controls are number inputs (`AnalysisForm.tsx:108`, `120`, `131`,
  `145`). Their text is empty or a floating-point numeral. `parseInt` keeps its
  leading integer digits, so "12.7" is sent as 12 and "1e3" as 1. A numeral with no
  leading digit, such as ".5", gives NaN. The payload object then holds NaN, which
  JSON serialisation sends as `null`.
- The `required` attribute of the username control (`AnalysisForm.tsx:92`) stops the
  form from being submitted while the username is empty. The empty-username payload
  is what the handler would build, not what the page sends.
- `getRiskColor` (`ResultDashboard.tsx:9-13`) is defined but never called: the
  rendered level colour is the badge's (`getRiskBadgeColor` at `ResultDashboard.tsx:83`).
  It is modelled all the same.

## Model

| member | source | states |
|---|---|---|
| `BackendMain.AnyReasonMentions` | backend/main.py:133-140 | the scan answers true exactly when some reason, lowercased, contains the keyword |
| `BackendMain.GenerateRecommendations` | backend/main.py:113-142 | the appended list equals the specification `Recommendations` (level block, then the triggered extras in fixed order) and has 3 to 7 items |
| `BackendMain.HighRiskOpensWithItsBlock` | backend/main.py:117-121 | "High Risk" yields the four high-risk items, in order, as the first four entries |
| `BackendMain.ModerateRiskOpensWithItsBlock` | backend/main.py:122-126 | "Moderate Risk" yields its four items, in order, as the first four entries |
| `BackendMain.OtherLevelsOpenWithSafeBlock` | backend/main.py:127-130 | every other level string, not only "Low Risk", yields the three-item safe block as prefix |
| `BackendMain.ExtrasNotInBlocks` | backend/main.py:117-140 | no extra item occurs in any level block, so an extra's presence is due to its keyword alone |
| `BackendMain.ExtraPresentIffMentioned` | backend/main.py:133-140 | each extra item is in the list if and only if some lowercased reason contains its keyword |
| `BackendMain.ExtrasFollowBlockInOrder` | backend/main.py:132-142 | after the base block come only extras, each at most once, in the order profile picture, link, follower |
| `BackendMain.NoDuplicateRecommendations` | backend/main.py:113-142 | no recommendation appears twice |
| `BackendMain.RecommendationCount` | backend/main.py:113-142 | the length is between 3 and 7; with no reasons the list is exactly the base block, of 4, 4 or 3 items |
| `BackendMain.AnalyzeAccount` | backend/main.py:80-90 | the response echoes the username and the reasons unchanged, copies score, level, confidence and label from the risk data, carries the recommendations for that level and those reasons (opening with the level's block) and the supplied timestamp |
| `Text.Lower` | backend/main.py:133 | lowercasing keeps the length and maps each character on its own, A-Z to a-z |
| `Text.ContainsLowerIff` | backend/main.py:133 | a keyword occurs in the lowercased reason exactly when some slice of the reason lowercases to the keyword |
| `JsParseInt.ParseInt` | frontend/src/components/AnalysisForm.tsx:36-39 | `parseInt` skips leading white space, reads an optional sign and a `0x`/`0X` prefix, then takes the longest run of digits, NaN when there is none; a number needs a decimal digit in the text, and a negative number a minus sign |
| `JsParseInt.ParseIntReadsDecimal` | frontend/src/components/AnalysisForm.tsx:36-39 | `parseInt` reads back the decimal numeral of n and stops at the first non-digit |
| `JsParseInt.ParseIntReadsNegativeDecimal` | frontend/src/components/AnalysisForm.tsx:36-39 | with a leading minus sign `parseInt` gives the negated number |
| `JsParseInt.ParseIntRejectsNonNumeral` | frontend/src/components/AnalysisForm.tsx:36-39 | text starting with no white space, sign or digit (such as ".5") is read as NaN, which the payload object then holds |
| `AnalysisForm.HandleChange` | frontend/src/components/AnalysisForm.tsx:57-61 | the control named by the event gets the event's value and every other control keeps its text |
| `AnalysisForm.HandleSubmit` | frontend/src/components/AnalysisForm.tsx:31-45 | every property of the posted object is its control's encoding: username always, the others present exactly when non-empty |
| `AnalysisForm.Properties` | frontend/src/components/AnalysisForm.tsx:31-45 | the object's keys are the property names of the fields present, each mapped to that field's value, and there is no other key |
| `AnalysisForm.SubmittedKeys` | frontend/src/components/AnalysisForm.tsx:31-45 | a payload that encodes the form (the result of `HandleSubmit`) has a field's name as a key exactly when the field is `username` or its control is non-empty, and no other key |
| `AnalysisForm.EncodingRules` | frontend/src/components/AnalysisForm.tsx:31-45 | username is always present and verbatim (even empty); the other properties are present iff non-empty, the counts as `parseInt`, `verified` as a boolean, the rest verbatim |
| `AnalysisForm.VerifiedIsTrueOnlyForYes` | frontend/src/components/AnalysisForm.tsx:40 | a non-empty `verified` is sent as true exactly for "yes" and as false for any other text |
| `AnalysisForm.ChangeAffectsOneEntry` | frontend/src/components/AnalysisForm.tsx:57-61 | a change event alters only its own control's property; choosing an empty option ("Unknown", "Select", "None", "Normal") drops the key, as if the control were untouched |
| `AnalysisForm.NamesDistinct` | frontend/src/components/AnalysisForm.tsx:11-23 | the eleven property names are pairwise distinct, so no two fields of the payload share a key |
| `AnalysisForm.InitialPayload` | frontend/src/components/AnalysisForm.tsx:11-23 | from the initial state `handleSubmit` would build a payload with only the empty username (the page blocks that submit, see the notes above) |
| `ResultDashboard.RiskColor` | frontend/src/components/ResultDashboard.tsx:9-13 | the uncalled gradient helper: red exactly for "High Risk", yellow-to-orange exactly for "Moderate Risk", green for every other string |
| `ResultDashboard.RiskBadgeColor` | frontend/src/components/ResultDashboard.tsx:15-19 | red, yellow and green badge classes for the same three cases |
| `ResultDashboard.ConfidenceColor` | frontend/src/components/ResultDashboard.tsx:21-25 | green exactly for "High", yellow exactly for "Medium", orange for everything else |
| `ResultDashboard.GaugeStartClass` | frontend/src/components/ResultDashboard.tsx:71 | the first stop is red iff score ≥ 65, yellow iff 40 ≤ score < 65, green iff score < 40 |
| `ResultDashboard.GaugeEndClass` | frontend/src/components/ResultDashboard.tsx:72 | the last stop is dark red, orange or dark green for the same three bands |
| `ResultDashboard.BadgeSplitsLikeGradient` | frontend/src/components/ResultDashboard.tsx:9-19 | two levels get the same badge exactly when the uncalled gradient helper gives them the same gradient |
| `ResultDashboard.LowConfidenceIsOrange` | frontend/src/components/ResultDashboard.tsx:21-25 | "Low" gets orange, the same as any label other than "High" and "Medium" |
| `ResultDashboard.GaugeStopsAgree` | frontend/src/components/ResultDashboard.tsx:71-72 | both gradient stops always come from the same band as the score |
| `ResultDashboard.GaugeBoundaries` | frontend/src/components/ResultDashboard.tsx:71-72 | the lower bounds 65 and 40 are inclusive: 65 red, 64 and 40 yellow, 39 green |
| `ResultDashboard.ScoreBandMonotone` | frontend/src/components/ResultDashboard.tsx:71-72 | a higher score never falls in a lower band |
| `ResultDashboard.BadgeMatchesRecommendations` | frontend/src/components/ResultDashboard.tsx:15-19 | the level badge rendered at line 83 is red, yellow or green exactly when the server's recommendations for the same level open with the high, moderate or safe block |

## Left out

- The risk-scoring engine (`calculate_risk_score`, `get_risk_reasons`, imported at
  `backend/main.py:8`) is not part of this model: its outputs (score, level,
  confidence, label, reasons) are parameters of `AnalyzeAccount`.
- `datetime.now().isoformat()` (`backend/main.py:89`) is a parameter of `AnalyzeAccount`.
- Persistence (`save_analysis`, `backend/database.py`), the FastAPI application,
  CORS, routing, error wrapping, `get_history` and the `uvicorn` entry point: I/O and
  framework plumbing.
- pydantic validation and coercion of the request (`backend/main.py:30-41`): the
  model's `AccountInput` is already the validated record.
- `api/index.py` (import glue) and `frontend/src/components/About.tsx` (static markup).
- The asynchronous `axios.post`, `setLoading`, error alerts and logging, React state
  hooks and all JSX rendering in the form and the dashboard.
- The gauge's circumference and dash offset (floating point, `ResultDashboard.tsx:28-29`)
  and the timestamp's `Date` formatting.
- `Text.Lower`: lowercases A-Z only; Python's `str.lower` also lowercases non-ASCII
  letters. The keywords are ASCII, but a non-ASCII capital that lowercases to an
  ASCII letter (such as the Kelvin sign) is not modelled.
- `JsParseInt.ParseIntReadsDecimal`: `parseInt` results are exact integers. JavaScript
  rounds magnitudes beyond 2^53 to the nearest double, gives -0 for "-0", and
  `JSON.stringify` sends NaN as `null`; none of these is modelled.
- `AnalysisForm.HandleChange`: the event's `name` is one of the eleven controls. Every
  control in the form carries one of these names, and any other name would add a
  property the payload builder never reads.
