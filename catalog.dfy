/** The technology catalog `tech_options` and the `recommendations` table
    that maps each tool to its averaged score. */
module Catalog {
  import opened Wrappers
  import opened OrderedDict
  import opened Scoring

  /** A dictionary from tool name to attribute profile. */
  type Catalog = c: seq<(string, Profile)> | DistinctKeys(c)

  /** A dictionary from tool name to averaged score. */
  type ScoreTable = seq<(string, real)>

  /** `tech_options`, in insertion order. */
  const TechOptions: Catalog := [
    ("Odoo ERP", Profile(8, 7, 9, 8)),
    ("Oracle NetSuite", Profile(6, 7, 9, 9)),
    ("Zoho One", Profile(9, 8, 8, 7)),
    ("Salesforce", Profile(5, 6, 10, 9)),
    ("Microsoft Power Platform", Profile(7, 9, 8, 8)),
    ("Custom Cloud Solution", Profile(4, 6, 9, 10))
  ]

  /** The table the `recommendations` loop has built after visiting the
      entries of `c`: one `recommendations[tool] = compute_score(scores)`
      per entry, in order. */
  function Scores(c: seq<(string, Profile)>): (t: ScoreTable)
    ensures forall k :: k in Keys(t) <==> k in Keys(c)
  {
    if c == [] then []
    else
      KeysSnoc(c);
      Put(Scores(c[..|c| - 1]), c[|c| - 1].0, ComputeScore(c[|c| - 1].1))
  }

  /** `recommendations` has the catalog's keys in the catalog's order, and
      each key's value is the score of that key's profile. */
  lemma {:induction false} ScoresAt(c: Catalog)
    ensures |Scores(c)| == |c|
    ensures forall i :: 0 <= i < |c| ==> Scores(c)[i] == (c[i].0, ComputeScore(c[i].1))
  {
    if c != [] {
      var n := |c| - 1;
      var init: Catalog := DistinctPrefix(c, n);
      ScoresAt(init);
      var prev := Scores(init);
      var last := c[n];
      assert last.0 !in Keys(prev) by {
        forall i | 0 <= i < n ensures Keys(prev)[i] != last.0 {
          assert Keys(prev)[i] == prev[i].0 == init[i].0 == c[i].0;
        }
      }
      assert Scores(c) == prev + [(last.0, ComputeScore(last.1))];
      forall i | 0 <= i < |c| ensures Scores(c)[i] == (c[i].0, ComputeScore(c[i].1)) {
        if i < n {
          assert Scores(c)[i] == prev[i] && init[i] == c[i];
        }
      }
    }
  }

  /** Helper: a prefix of a catalog is a catalog. */
  function DistinctPrefix(c: Catalog, n: nat): (init: Catalog)
    requires n <= |c|
    ensures init == c[..n]
  {
    var init := c[..n];
    assert forall i, j :: 0 <= i < j < n ==> init[i].0 == c[i].0 && init[j].0 == c[j].0;
    init
  }

  /** The table's keys are the catalog's keys, in the catalog's order. */
  lemma ScoresKeys(c: Catalog)
    ensures Keys(Scores(c)) == Keys(c)
  {
    ScoresAt(c);
  }

  /** `recommendations[t] == compute_score(tech_options[t])` for every tool
      `t` of the catalog, and no other name is a key. */
  lemma ScoresLookup(c: Catalog, name: string)
    ensures Get(Scores(c), name).Some? <==> name in Keys(c)
    ensures forall i :: 0 <= i < |c| && c[i].0 == name ==> Get(Scores(c), name) == Some(ComputeScore(c[i].1))
  {
    ScoresAt(c);
    var s := Scores(c);
    assert Keys(s) == Keys(c);
    assert DistinctKeys(s) by {
      forall i, j | 0 <= i < j < |s| ensures s[i].0 != s[j].0 {
        assert s[i].0 == c[i].0 && s[j].0 == c[j].0;
      }
    }
    forall i | 0 <= i < |c| && c[i].0 == name ensures Get(s, name) == Some(ComputeScore(c[i].1)) {
      GetAt(s, i);
    }
  }

  /** The loop of the script that fills `recommendations`:
      `for tool, scores in tech_options.items(): recommendations[tool] = compute_score(scores)`. */
  method BuildRecommendations(c: Catalog) returns (recommendations: ScoreTable)
    ensures recommendations == Scores(c)
    ensures |recommendations| == |c|
    ensures forall i :: 0 <= i < |c| ==> recommendations[i] == (c[i].0, ComputeScore(c[i].1))
  {
    recommendations := [];
    for i := 0 to |c|
      invariant recommendations == Scores(c[..i])
    {
      assert c[..i + 1][..i] == c[..i];
      recommendations := Put(recommendations, c[i].0, ComputeScore(c[i].1));
    }
    assert c[..|c|] == c;
    ScoresAt(c);
  }

  /** `recommendations` as the script computes it from `tech_options`. */
  function Recommendations(): (t: ScoreTable)
    ensures Keys(t) == Keys(TechOptions)
  {
    ScoresKeys(TechOptions);
    Scores(TechOptions)
  }

  /** The script's `recommendations`, value by value: Odoo ERP 8.0,
      Oracle NetSuite 7.75, Zoho One 8.0, Salesforce 7.5,
      Microsoft Power Platform 8.0, Custom Cloud Solution 7.25. */
  lemma RecommendationsValues()
    ensures Recommendations() == [
      ("Odoo ERP", 8.0),
      ("Oracle NetSuite", 7.75),
      ("Zoho One", 8.0),
      ("Salesforce", 7.5),
      ("Microsoft Power Platform", 8.0),
      ("Custom Cloud Solution", 7.25)
    ]
  {
    var c := TechOptions;
    ScoresOfSix(c);
    ScoreIsMean(c[0].1);
    ScoreIsMean(c[1].1);
    ScoreIsMean(c[2].1);
    ScoreIsMean(c[3].1);
    ScoreIsMean(c[4].1);
    ScoreIsMean(c[5].1);
  }

  /** Helper: the score table of a six-entry catalog, entry by entry. */
  lemma ScoresOfSix(c: Catalog)
    requires |c| == 6
    ensures Scores(c) == [
      (c[0].0, ComputeScore(c[0].1)),
      (c[1].0, ComputeScore(c[1].1)),
      (c[2].0, ComputeScore(c[2].1)),
      (c[3].0, ComputeScore(c[3].1)),
      (c[4].0, ComputeScore(c[4].1)),
      (c[5].0, ComputeScore(c[5].1))
    ]
  {
    ScoresAt(c);
    var t := Scores(c);
    assert t[0] == (c[0].0, ComputeScore(c[0].1));
    assert t[1] == (c[1].0, ComputeScore(c[1].1));
    assert t[2] == (c[2].0, ComputeScore(c[2].1));
    assert t[3] == (c[3].0, ComputeScore(c[3].1));
    assert t[4] == (c[4].0, ComputeScore(c[4].1));
    assert t[5] == (c[5].0, ComputeScore(c[5].1));
    SixEntries(t);
  }

  /** Helper: a sequence of length six is the display of its six elements. */
  lemma SixEntries<T>(t: seq<T>)
    requires |t| == 6
    ensures t == [t[0], t[1], t[2], t[3], t[4], t[5]]
  {
  }

  /** Every catalog attribute is on the 0..10 scale, so every value of
      `recommendations` is too. */
  lemma CatalogScoresInRange(name: string, score: real)
    requires Get(Recommendations(), name) == Some(score)
    ensures 0.0 <= score <= 10.0
  {
    RecommendationsValues();
    ScoreTableInRange(Recommendations(), name, score);
  }

  /** Helper: a lookup in the script's table, given by its values. */
  lemma ScoreTableInRange(t: ScoreTable, name: string, score: real)
    requires t == [
      ("Odoo ERP", 8.0),
      ("Oracle NetSuite", 7.75),
      ("Zoho One", 8.0),
      ("Salesforce", 7.5),
      ("Microsoft Power Platform", 8.0),
      ("Custom Cloud Solution", 7.25)
    ]
    requires Get(t, name) == Some(score)
    ensures 7.0 <= score <= 8.0
  {
  }
}
