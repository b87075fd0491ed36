/** The rule engine on concrete inputs drawn from the script's lists of
    current tools and pain points. Each input string first gets a lemma
    saying which keywords it mentions; the scenarios combine two of them. */
module Scenarios {
  import opened Wrappers
  import opened Text
  import opened Catalog
  import opened Rules

  /** "Manual data entry" mentions "manual". */
  lemma ManualDataEntryKeywords(pain: string)
    requires pain == "Manual data entry"
    ensures Mentions(pain, "manual")
  {
    LowerContainsAt(pain, "manual", 0);
  }

  /** "No Tool" mentions "no": lowering turns "No" into the keyword. */
  lemma NoToolKeywords(tool: string)
    requires tool == "No Tool"
    ensures Mentions(tool, "no")
  {
    LowerContainsAt(tool, "no", 0);
  }

  /** "Low customer engagement" mentions "engagement" but not "manual". */
  lemma LowCustomerEngagementKeywords(pain: string)
    requires pain == "Low customer engagement"
    ensures !Mentions(pain, "manual") && Mentions(pain, "engagement")
  {
    NoManualInLowCustomerEngagement(pain);
    LowerContainsAt(pain, "engagement", 13);
  }

  /** Helper: "Low customer engagement" never has "m" followed by "a". */
  lemma NoManualInLowCustomerEngagement(pain: string)
    requires pain == "Low customer engagement"
    ensures !Mentions(pain, "manual")
  {
    LowerLacksPair(pain, "manual", 0);
  }

  /** "Mailchimp" does not mention "no". */
  lemma MailchimpKeywords(tool: string)
    requires tool == "Mailchimp"
    ensures !Mentions(tool, "no")
  {
    LowerLacks(tool, "no", 0);
  }

  /** "Lack of analytics & reporting" mentions no keyword of the pain-point rules. */
  lemma AnalyticsKeywords(pain: string)
    requires pain == "Lack of analytics & reporting"
    ensures !Mentions(pain, "manual") && !Mentions(pain, "engagement")
    ensures !Mentions(pain, "security") && !Mentions(pain, "vendor")
  {
    AnalyticsLetters(pain);
    NoPainKeyword(pain, 0, 6, 3, 0);
  }

  /** Helper: "Lack of analytics & reporting" has no "m", "u" or "v" in either case. */
  lemma AnalyticsLetters(pain: string)
    requires pain == "Lack of analytics & reporting"
    ensures Avoids(pain, 'm') && Avoids(pain, 'u') && Avoids(pain, 'v')
  {
  }

  /** "Legacy System" mentions "legacy" but not "no". */
  lemma LegacySystemKeywords(tool: string)
    requires tool == "Legacy System"
    ensures Mentions(tool, "legacy") && !Mentions(tool, "no")
  {
    LowerContainsAt(tool, "legacy", 0);
    LowerLacks(tool, "no", 0);
  }

  /** "High cost and licensing issues" mentions no keyword of the pain-point rules. */
  lemma HighCostKeywords(pain: string)
    requires pain == "High cost and licensing issues"
    ensures !Mentions(pain, "manual") && !Mentions(pain, "engagement")
    ensures !Mentions(pain, "security") && !Mentions(pain, "vendor")
  {
    HighCostLetters(pain);
    NoPainKeyword(pain, 0, 6, 7, 0);
  }

  /** Helper: "High cost and licensing issues" has no "m", "y" or "v" in either case. */
  lemma HighCostLetters(pain: string)
    requires pain == "High cost and licensing issues"
    ensures Avoids(pain, 'm') && Avoids(pain, 'y') && Avoids(pain, 'v')
  {
  }

  /** "SAP" mentions neither "no" nor "legacy". */
  lemma SapKeywords(tool: string)
    requires tool == "SAP"
    ensures !Mentions(tool, "no") && !Mentions(tool, "legacy")
  {
    LowerLacks(tool, "no", 0);
    LowerLacks(tool, "legacy", 0);
  }

  /** Helper: a text missing one character of each pain-point keyword
      mentions none of them. */
  lemma NoPainKeyword(pain: string, m: nat, e: nat, s: nat, v: nat)
    requires m < 6 && e < 10 && s < 8 && v < 6
    requires Avoids(pain, "manual"[m]) && Avoids(pain, "engagement"[e])
    requires Avoids(pain, "security"[s]) && Avoids(pain, "vendor"[v])
    ensures !Mentions(pain, "manual") && !Mentions(pain, "engagement")
    ensures !Mentions(pain, "security") && !Mentions(pain, "vendor")
  {
    LowerLacks(pain, "manual", m);
    LowerLacks(pain, "engagement", e);
    LowerLacks(pain, "security", s);
    LowerLacks(pain, "vendor", v);
  }

  /** "No Tool" with "Manual data entry" gets "Odoo ERP". */
  lemma NoToolManualEntry(tool: string, pain: string)
    requires tool == "No Tool" && pain == "Manual data entry"
    ensures Recommend(Recommendations(), tool, pain) == Some(OdooErp)
  {
    ManualDataEntryKeywords(pain);
  }

  /** "No Tool" gets "Odoo ERP" with any pain point and any table. */
  lemma NoToolAlwaysOdoo(t: ScoreTable, tool: string, pain: string)
    requires tool == "No Tool"
    ensures Recommend(t, tool, pain) == Some(OdooErp)
  {
    NoToolKeywords(tool);
  }

  /** "Mailchimp" with "Low customer engagement" gets "Salesforce". */
  lemma MailchimpLowEngagement(tool: string, pain: string)
    requires tool == "Mailchimp" && pain == "Low customer engagement"
    ensures Recommend(Recommendations(), tool, pain) == Some(Salesforce)
  {
    MailchimpKeywords(tool);
    LowCustomerEngagementKeywords(pain);
  }

  /** "Legacy System" with "Lack of analytics & reporting" gets
      "Oracle NetSuite": the legacy rule fires before the fallback. */
  lemma LegacySystemAnalytics(tool: string, pain: string)
    requires tool == "Legacy System" && pain == "Lack of analytics & reporting"
    ensures Recommend(Recommendations(), tool, pain) == Some(NetSuite)
  {
    LegacySystemKeywords(tool);
    AnalyticsKeywords(pain);
  }

  /** "SAP" with "High cost and licensing issues" fires no rule and gets the
      best-scoring tool, "Odoo ERP". */
  lemma SapHighCost(tool: string, pain: string)
    requires tool == "SAP" && pain == "High cost and licensing issues"
    ensures Recommend(Recommendations(), tool, pain) == Some(OdooErp)
  {
    SapKeywords(tool);
    HighCostKeywords(pain);
    FallbackIsOdoo();
  }
}
