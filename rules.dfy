/** `recommend_best_tool`: an ordered chain of case-insensitive keyword
    tests on the current tool and the pain point, first match wins, with a
    fallback to the best-scoring tool of `recommendations`. */
module Rules {
  import opened Wrappers
  import opened OrderedDict
  import opened Text
  import opened Catalog

  const OdooErp := "Odoo ERP"
  const NetSuite := "Oracle NetSuite"
  const ZohoOne := "Zoho One"
  const Salesforce := "Salesforce"
  const PowerPlatform := "Microsoft Power Platform"

  /** `keyword in text.lower()`; every keyword of the rules is lower-case.
      A keyword longer than the text is never mentioned. */
  predicate Mentions(text: string, keyword: string)
    ensures Mentions(text, keyword) ==> |keyword| <= |text|
  {
    Contains(Lower(text), keyword)
  }

  /** The scan of `max(t, key=t.get)` over the keys from index `i` on, with
      `best` the index of the best key seen so far: a later key replaces it
      only when its score is strictly greater. */
  function MaxFrom(t: ScoreTable, i: nat, best: nat): (k: nat)
    requires best < i <= |t|
    ensures k < |t|
    ensures k == best || i <= k
    ensures t[best].1 <= t[k].1
    decreases |t| - i
  {
    if i == |t| then best
    else if t[i].1 > t[best].1 then MaxFrom(t, i + 1, i)
    else MaxFrom(t, i + 1, best)
  }

  /** `max(t, key=t.get)`; `None` for an empty `t`, where `max` raises
      ValueError. Otherwise it is the key of an entry whose score no entry
      exceeds and no earlier entry reaches. */
  function MaxByScore(t: ScoreTable): (r: Option<string>)
    ensures r.None? <==> t == []
    ensures r.Some? ==> exists k: nat | k < |t| :: IsFirstMax(t, k) && t[k].0 == r.value
  {
    if t == [] then None
    else
      MaxFromIsFirstMax(t, 1, 0);
      Some(t[MaxFrom(t, 1, 0)].0)
  }

  /** Entry `k` has the highest score of `t`, and every entry before it
      scores strictly less. */
  ghost predicate IsFirstMax(t: ScoreTable, k: nat) {
    && k < |t|
    && (forall j :: 0 <= j < |t| ==> t[j].1 <= t[k].1)
    && (forall j :: 0 <= j < k ==> t[j].1 < t[k].1)
  }

  /** The scan keeps the first maximum it meets. */
  lemma {:induction false} MaxFromIsFirstMax(t: ScoreTable, i: nat, best: nat)
    requires best < i <= |t|
    requires forall j :: 0 <= j < i ==> t[j].1 <= t[best].1
    requires forall j :: 0 <= j < best ==> t[j].1 < t[best].1
    ensures IsFirstMax(t, MaxFrom(t, i, best))
    decreases |t| - i
  {
    if i < |t| {
      if t[i].1 > t[best].1 {
        MaxFromIsFirstMax(t, i + 1, i);
      } else {
        MaxFromIsFirstMax(t, i + 1, best);
      }
    }
  }

  /** A table has at most one first maximum. */
  lemma FirstMaxUnique(t: ScoreTable, k1: nat, k2: nat)
    requires IsFirstMax(t, k1) && IsFirstMax(t, k2)
    ensures k1 == k2
  {
    assert t[k1].1 == t[k2].1;
  }

  /** `max(t, key=t.get)` is the key of the first entry, in iteration order,
      whose score is maximal. */
  lemma MaxByScoreIsFirstMax(t: ScoreTable, k: nat)
    requires IsFirstMax(t, k)
    ensures MaxByScore(t) == Some(t[k].0)
  {
    MaxFromIsFirstMax(t, 1, 0);
    FirstMaxUnique(t, k, MaxFrom(t, 1, 0));
  }

  /** `recommend_best_tool(current_tool, pain_point)`, reading the table
      `recommendations` as `t`. `None` only when the fallback `max` is taken
      over an empty table. */
  function Recommend(t: ScoreTable, currentTool: string, painPoint: string): (r: Option<string>)
    ensures r.None? ==> t == []
    ensures r.Some? ==> r.value in [OdooErp, Salesforce, PowerPlatform, ZohoOne, NetSuite] || r.value in Keys(t)
  {
    if Mentions(painPoint, "manual") || Mentions(currentTool, "no") then Some(OdooErp)
    else if Mentions(painPoint, "engagement") then Some(Salesforce)
    else if Mentions(painPoint, "security") then Some(PowerPlatform)
    else if Mentions(painPoint, "vendor") then Some(ZohoOne)
    else if Mentions(currentTool, "legacy") then Some(NetSuite)
    else MaxByScore(t)
  }

  /** Which input a keyword rule looks at. */
  datatype Field = CurrentTool | PainPoint

  /** "if `keyword` occurs in the lowered `field`, recommend `tool`". */
  datatype Rule = Rule(field: Field, keyword: string, tool: string)

  /** The keyword rules of `recommend_best_tool`, in the order they are tried. */
  const KeywordRules := [
    Rule(PainPoint, "manual", OdooErp),
    Rule(CurrentTool, "no", OdooErp),
    Rule(PainPoint, "engagement", Salesforce),
    Rule(PainPoint, "security", PowerPlatform),
    Rule(PainPoint, "vendor", ZohoOne),
    Rule(CurrentTool, "legacy", NetSuite)
  ]

  /** The tool of the first rule of `rules` that fires, if any. */
  function FirstMatch(rules: seq<Rule>, currentTool: string, painPoint: string): Option<string> {
    if rules == [] then None
    else
      var text := if rules[0].field == CurrentTool then currentTool else painPoint;
      if Mentions(text, rules[0].keyword) then Some(rules[0].tool)
      else FirstMatch(rules[1..], currentTool, painPoint)
  }

  /** The rule chain is a first-match-wins scan of `KeywordRules`, with the
      best-scoring tool when no rule fires. */
  lemma RecommendIsFirstMatch(t: ScoreTable, currentTool: string, painPoint: string)
    ensures Recommend(t, currentTool, painPoint)
      == match FirstMatch(KeywordRules, currentTool, painPoint)
         case Some(tool) => Some(tool)
         case None => MaxByScore(t)
  {
    var rs := KeywordRules;
    var m := FirstMatch(rs, currentTool, painPoint);
    assert m == if Mentions(painPoint, "manual") then Some(OdooErp) else FirstMatch(rs[1..], currentTool, painPoint);
    assert FirstMatch(rs[1..], currentTool, painPoint)
      == if Mentions(currentTool, "no") then Some(OdooErp) else FirstMatch(rs[2..], currentTool, painPoint)
      by { assert rs[1..][1..] == rs[2..]; }
    assert FirstMatch(rs[2..], currentTool, painPoint)
      == if Mentions(painPoint, "engagement") then Some(Salesforce) else FirstMatch(rs[3..], currentTool, painPoint)
      by { assert rs[2..][1..] == rs[3..]; }
    assert FirstMatch(rs[3..], currentTool, painPoint)
      == if Mentions(painPoint, "security") then Some(PowerPlatform) else FirstMatch(rs[4..], currentTool, painPoint)
      by { assert rs[3..][1..] == rs[4..]; }
    assert FirstMatch(rs[4..], currentTool, painPoint)
      == if Mentions(painPoint, "vendor") then Some(ZohoOne) else FirstMatch(rs[5..], currentTool, painPoint)
      by { assert rs[4..][1..] == rs[5..]; }
    assert FirstMatch(rs[5..], currentTool, painPoint)
      == if Mentions(currentTool, "legacy") then Some(NetSuite) else None
      by { assert rs[5..][1..] == []; }
  }

  /** Matching ignores the case of both inputs. */
  lemma RecommendIgnoresCase(t: ScoreTable, currentTool: string, painPoint: string)
    ensures Recommend(t, currentTool, painPoint) == Recommend(t, Lower(currentTool), Lower(painPoint))
  {
    LowerIdempotent(currentTool);
    LowerIdempotent(painPoint);
  }

  /** With the script's table, the fallback is "Odoo ERP": it ties at 8.0
      with "Zoho One" and "Microsoft Power Platform" and comes first. */
  lemma FallbackIsOdoo()
    ensures MaxByScore(Recommendations()) == Some(OdooErp)
  {
    var t := [
      ("Odoo ERP", 8.0),
      ("Oracle NetSuite", 7.75),
      ("Zoho One", 8.0),
      ("Salesforce", 7.5),
      ("Microsoft Power Platform", 8.0),
      ("Custom Cloud Solution", 7.25)
    ];
    assert IsFirstMax(t, 0);
    MaxByScoreIsFirstMax(t, 0);
    RecommendationsValues();
  }

  /** With the script's table, each tool is recommended exactly when its
      rule is the first to fire; "Odoo ERP" also when no rule fires, and
      "Custom Cloud Solution" never. */
  lemma RecommendOutcomes(currentTool: string, painPoint: string)
    ensures var r := Recommend(Recommendations(), currentTool, painPoint);
      var first := Mentions(painPoint, "manual") || Mentions(currentTool, "no");
      var engagement := Mentions(painPoint, "engagement");
      var security := Mentions(painPoint, "security");
      var vendor := Mentions(painPoint, "vendor");
      var legacy := Mentions(currentTool, "legacy");
      && (r == Some(OdooErp) <==> first || (!engagement && !security && !vendor && !legacy))
      && (r == Some(Salesforce) <==> !first && engagement)
      && (r == Some(PowerPlatform) <==> !first && !engagement && security)
      && (r == Some(ZohoOne) <==> !first && !engagement && !security && vendor)
      && (r == Some(NetSuite) <==> !first && !engagement && !security && !vendor && legacy)
      && r != Some("Custom Cloud Solution")
  {
    FallbackIsOdoo();
  }

  /** A pain point that mentions both "engagement" and "security" gets
      "Salesforce" from any table, unless the first rule fires. */
  lemma EngagementBeforeSecurity(t: ScoreTable, currentTool: string, painPoint: string)
    requires !Mentions(painPoint, "manual") && !Mentions(currentTool, "no")
    requires Mentions(painPoint, "engagement") && Mentions(painPoint, "security")
    ensures Recommend(t, currentTool, painPoint) == Some(Salesforce)
  {
  }

  /** With the script's table the result is always a key of `tech_options`,
      so the `Tool_Score` lookup in `recommendations` is always defined. */
  lemma RecommendIsCatalogKey(currentTool: string, painPoint: string)
    ensures Recommend(Recommendations(), currentTool, painPoint).Some?
    ensures Recommend(Recommendations(), currentTool, painPoint).value in Keys(TechOptions)
    ensures Get(Recommendations(), Recommend(Recommendations(), currentTool, painPoint).value).Some?
  {
    RecommendOutcomes(currentTool, painPoint);
    var r := Recommend(Recommendations(), currentTool, painPoint).value;
    var keys := Keys(TechOptions);
    assert keys[0] == OdooErp && keys[1] == NetSuite && keys[2] == ZohoOne;
    assert keys[3] == Salesforce && keys[4] == PowerPlatform;
    assert r in keys;
    ScoresLookup(TechOptions, r);
  }
}
