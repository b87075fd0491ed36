# Technology recommendation model

A verified model of the recommendation core of a technology-consulting simulation script. The script does four things:

- It samples a current tool and a pain point for each of seven departments.
- It scores a fixed catalog of six tools by averaging four attribute scores.
- It picks a recommended tool per department through an ordered chain of case-insensitive keyword rules. When no rule fires, it falls back to the best-scoring tool.
- It adds the recommendation and its score to the department table.

The model covers the scoring, the score table, the rule engine and the two column assignments. It proves these properties:

- Every score is the exact mean of its four attributes, and rounding to two decimals leaves it unchanged.
- The score table has the catalog's keys, in the catalog's order.
- The fallback is the first maximum in iteration order.
- Every recommendation is a catalog key, so the score lookup never yields NaN.
- Matching ignores case.
- With the script's table, each rule's tool is recommended exactly when its rule is the first to fire; Odoo ERP also when no rule fires, and Custom Cloud Solution never.

Files, one module each:

- `wrappers.dfy` holds `Option`.
- `ordered_dict.dfy` models Python dictionaries as insertion-ordered association lists, with lookup and assignment.
- `scoring.dfy` holds the tool profile, `compute_score` and `round(x, 2)`.
- `catalog.dfy` holds `tech_options`, the loop that fills `recommendations`, and the script's concrete table.
- `text.dfy` holds `str.lower()` and the substring test.
- `rules.dfy` holds `recommend_best_tool`, the `max(..., key=...)` fallback and the rule-precedence lemmas.
- `scenarios.dfy` states what the rule engine returns on concrete current tools and pain points from the script's lists.
- `report.dfy` holds the department table as a class whose column-assignment methods mirror the script's in-place DataFrame updates, and `Simulate`, which runs steps 1 to 3 on given samples.

Scores are exact `real`s. Each profile has four integer attributes, so every mean is a multiple of 1/4, and the model proves that rounding to two decimals is then the identity.

## Model

| member | source | states |
|---|---|---|
| OrderedDict.Get | deloitte_tech_consulting_solution.py:83 | a lookup misses exactly when the name is not a key; a hit returns a value stored under that key |
| OrderedDict.Put | deloitte_tech_consulting_solution.py:58 | assigning to an existing key keeps the key order; assigning to a new key appends the key and the pair at the end |
| OrderedDict.PutGet | deloitte_tech_consulting_solution.py:58 | after `d[k] = v`, `d[k]` is `v` and every other key keeps its old value |
| OrderedDict.PutDistinct | deloitte_tech_consulting_solution.py:58 | assignment keeps the keys distinct |
| OrderedDict.GetAt | deloitte_tech_consulting_solution.py:83 | in a dictionary with distinct keys, looking up an entry's key gives that entry's value |
| Scoring.Round2 | deloitte_tech_consulting_solution.py:54 | `round(x, 2)` is a multiple of 1/100 within 1/200 of `x`; at an exact tie it is the even multiple |
| Scoring.Round2Exact | deloitte_tech_consulting_solution.py:54 | `round(x, 2)` leaves a value with at most two decimals unchanged |
| Scoring.ComputeScore | deloitte_tech_consulting_solution.py:53-54 | the score times the number of attributes gives back their total, so rounding loses nothing |
| Scoring.ScoreIsMean | deloitte_tech_consulting_solution.py:53-54 | `compute_score` equals the sum of the four attributes divided by 4, a multiple of 1/4 that rounding leaves unchanged |
| Scoring.ScoreWithinAttributes | deloitte_tech_consulting_solution.py:53-54 | the score lies between the smallest and the largest attribute |
| Scoring.ScoreInRange | deloitte_tech_consulting_solution.py:53-54 | attributes in 0..10 give a score in 0..10 |
| Catalog.Scores | deloitte_tech_consulting_solution.py:56-58 | the table the loop builds has exactly the catalog's tools as keys |
| Catalog.ScoresKeys | deloitte_tech_consulting_solution.py:56-58 | the table's keys are the catalog's keys, in the catalog's order |
| Catalog.ScoresAt | deloitte_tech_consulting_solution.py:56-58 | `recommendations` has the catalog's length, and its i-th entry is the i-th tool paired with the score of that tool's profile |
| Catalog.ScoresLookup | deloitte_tech_consulting_solution.py:56-58 | `recommendations[t]` is defined exactly for the catalog's tools, and equals `compute_score(tech_options[t])` |
| Catalog.BuildRecommendations | deloitte_tech_consulting_solution.py:56-58 | the loop builds the table entry by entry, keeping the catalog's keys and order, each value being the entry's score |
| Catalog.Recommendations | deloitte_tech_consulting_solution.py:43-58 | the script's `recommendations` has the keys of `tech_options`, in the same order |
| Catalog.RecommendationsValues | deloitte_tech_consulting_solution.py:43-58 | the script's table is Odoo ERP 8.0, Oracle NetSuite 7.75, Zoho One 8.0, Salesforce 7.5, Microsoft Power Platform 8.0, Custom Cloud Solution 7.25, in that order |
| Catalog.CatalogScoresInRange | deloitte_tech_consulting_solution.py:43-58 | every value of the script's table lies in 0..10 |
| Rules.MaxFrom | deloitte_tech_consulting_solution.py:76 | the scan behind `max` returns an index of the table, either the best so far or one it scanned, scoring at least the best so far |
| Rules.MaxByScore | deloitte_tech_consulting_solution.py:76 | `max(t, key=t.get)` fails only on an empty table; otherwise it is the key of an entry that no entry outscores and no earlier entry reaches |
| Rules.MaxFromIsFirstMax | deloitte_tech_consulting_solution.py:76 | the scan behind `max` returns the index of a maximal score that no earlier entry reaches |
| Rules.FirstMaxUnique | deloitte_tech_consulting_solution.py:76 | a table has at most one first maximum |
| Rules.MaxByScoreIsFirstMax | deloitte_tech_consulting_solution.py:76 | `max(t, key=t.get)` is the key of the first entry, in iteration order, with a maximal score |
| Text.Lower | deloitte_tech_consulting_solution.py:65-73 | `s.lower()` has the length of `s`, and each character is the lowered character of `s` at that position |
| Text.LowerIdempotent | deloitte_tech_consulting_solution.py:65-73 | lowering a lowered string changes nothing |
| Text.Contains | deloitte_tech_consulting_solution.py:65-73 | `p in s` holds only when `p` is no longer than `s` |
| Text.LowerContainsAt | deloitte_tech_consulting_solution.py:65-73 | a keyword is in `s.lower()` when the characters of `s` from some position lower to it |
| Text.LowerContainsIff | deloitte_tech_consulting_solution.py:65-73 | a keyword is in `s.lower()` if and only if some window of `s` lowers to it, character by character |
| Text.LowerLacks | deloitte_tech_consulting_solution.py:65-73 | a keyword is not in `s.lower()` when `s` holds one of its characters in neither case |
| Text.LowerLacksPair | deloitte_tech_consulting_solution.py:65-73 | a keyword is not in `s.lower()` when two adjacent characters of it never occur side by side in `s`, in either case |
| Rules.Mentions | deloitte_tech_consulting_solution.py:65-73 | `keyword in text.lower()` holds only for a keyword no longer than the text |
| Rules.Recommend | deloitte_tech_consulting_solution.py:64-76 | `recommend_best_tool` returns no tool only when the fallback `max` runs on an empty table; a returned tool is one of the five rule tools or a key of the table |
| Rules.RecommendIsFirstMatch | deloitte_tech_consulting_solution.py:64-76 | `recommend_best_tool` tries the six keyword rules in their fixed order and returns the first match; when no rule fires, it returns the best-scoring tool |
| Rules.RecommendIgnoresCase | deloitte_tech_consulting_solution.py:65-73 | lowering either input first does not change the result |
| Rules.FallbackIsOdoo | deloitte_tech_consulting_solution.py:76 | on the script's table the fallback is "Odoo ERP", first of the three tools tied at 8.0 |
| Rules.RecommendOutcomes | deloitte_tech_consulting_solution.py:64-76 | on the script's table each tool is returned exactly when its rule is the first to fire; "Odoo ERP" is also returned when no rule fires, and "Custom Cloud Solution" never |
| Rules.EngagementBeforeSecurity | deloitte_tech_consulting_solution.py:65-70 | a pain point that mentions both "engagement" and "security" gets "Salesforce" unless the first rule fires |
| Rules.RecommendIsCatalogKey | deloitte_tech_consulting_solution.py:64-83 | on the script's table the result is always a key of `tech_options`, and its `recommendations` lookup is defined |
| Scenarios.NoToolManualEntry | deloitte_tech_consulting_solution.py:65-66 | "No Tool" with "Manual data entry" gets "Odoo ERP" |
| Scenarios.NoToolAlwaysOdoo | deloitte_tech_consulting_solution.py:65-66 | "No Tool" gets "Odoo ERP" whatever the pain point and the table, because "No" lowers to the keyword "no" |
| Scenarios.MailchimpLowEngagement | deloitte_tech_consulting_solution.py:65-68 | "Mailchimp" with "Low customer engagement" gets "Salesforce" |
| Scenarios.LegacySystemAnalytics | deloitte_tech_consulting_solution.py:65-74 | "Legacy System" with "Lack of analytics & reporting" gets "Oracle NetSuite"; the capitalised "Legacy" still triggers the legacy rule |
| Scenarios.SapHighCost | deloitte_tech_consulting_solution.py:64-76 | "SAP" with "High cost and licensing issues" fires no rule and gets the fallback, "Odoo ERP" |
| Report.RecommendBestTool | deloitte_tech_consulting_solution.py:64-76 | the script's call always yields a name that is a key of `tech_options` and of `recommendations` |
| Report.ApplyRows | deloitte_tech_consulting_solution.py:78-81 | `DataFrame.apply` over two columns: the new column has one entry per row, and entry `i` is the function applied to row `i` |
| Report.DepartmentTable.constructor | deloitte_tech_consulting_solution.py:31-37 | the table starts with the given department, current-tool and pain-point columns, which have equal lengths |
| Report.DepartmentTable.AssignRecommendedTool | deloitte_tech_consulting_solution.py:78-81 | the new `Recommended_Tool` column holds, row by row, the recommendation for that row's current tool and pain point; the other columns do not change |
| Report.DepartmentTable.AssignToolScore | deloitte_tech_consulting_solution.py:83 | the new `Tool_Score` column holds, row by row, the table's value for that row's recommended tool, or NaN for a missing key; the three input columns keep equal lengths |
| Report.Simulate | deloitte_tech_consulting_solution.py:19-83 | the score table comes from the loop over `tech_options`; for any samples drawn from the script's pools, the table has exactly 7 rows in the order of `departments`; each row's recommendation is a catalog tool and its score is that tool's table value, never NaN |

## Left out

- Random sampling (`random.choices`, lines 33-34) is left out because it is nondeterministic. `Simulate` takes the sampled current tools and pain points as arguments: one per department, each drawn from its pool.
- pandas mechanics (`DataFrame`, `apply`, `map`) are modelled as sequences of column values. Index labels and dtypes are not modelled.
- `generate_consulting_report` (lines 89-96) is left out because it only prints.
- `df.to_csv` (line 104) is left out because it is file output.
- `plot_recommendation_distribution` (lines 111-121) is left out because it is chart rendering and file output.
- Float semantics of division and `round` are left out. The model uses exact reals, and rounding is exact round-half-even to hundredths. The script's attributes are integers from 4 to 10, so every mean it computes is a multiple of 1/4 below 16, which a float represents exactly, and nothing the script computes is lost. For very large integer attributes a float mean could differ from the exact one; `Scoring.ScoreIsMean` and `Scoring.ScoreInRange` are stated for exact arithmetic.
- `str.lower()` is modelled for ASCII letters only. Python also lowers non-ASCII letters, and a few of them expand to two characters; none of this matters for the ASCII keywords and inputs of the script.
- `recommend_best_tool` reads the global `recommendations`. The model passes this table as a parameter, so `Rules.Recommend` returns `None` where `max` of an empty table would raise ValueError. With the script's own table the result is always a tool name (`Rules.RecommendIsCatalogKey`).
- A dictionary literal with a repeated key is not modelled. The catalog type requires distinct keys, as every Python dictionary has.
