/** The department table `df`: one row per department with its sampled
    current tool and pain point, to which the script adds the columns
    `Recommended_Tool` and `Tool_Score` in place. */
module Report {
  import opened Wrappers
  import opened OrderedDict
  import opened Catalog
  import opened Rules

  /** `departments`. */
  const Departments: seq<string> := ["HR", "Finance", "IT", "Marketing", "Operations", "Logistics", "Procurement"]

  /** `current_tools`, the pool the current tools are drawn from. */
  const CurrentTools: seq<string> := ["Excel", "SAP", "Legacy System", "Mailchimp", "Manual Process", "Zoho", "No Tool"]

  /** `pain_points`, the pool the pain points are drawn from. */
  const PainPoints: seq<string> := [
    "Manual data entry",
    "High cost and licensing issues",
    "Security vulnerabilities",
    "Low customer engagement",
    "No process standardization",
    "Inefficient vendor communication",
    "Lack of analytics & reporting"
  ]

  /** `xs` could be the result of `random.choices(pool, k=n)`: `n` draws,
      with replacement, from `pool`. */
  predicate DrawnFrom(xs: seq<string>, pool: seq<string>, n: nat) {
    |xs| == n && forall i :: 0 <= i < |xs| ==> xs[i] in pool
  }

  /** `recommend_best_tool` as the script calls it, on its own
      `recommendations`: always a tool of `tech_options`. */
  function RecommendBestTool(currentTool: string, painPoint: string): (r: string)
    ensures Recommend(Recommendations(), currentTool, painPoint) == Some(r)
    ensures r in Keys(TechOptions)
    ensures Get(Recommendations(), r).Some?
  {
    RecommendIsCatalogKey(currentTool, painPoint);
    Recommend(Recommendations(), currentTool, painPoint).value
  }

  /** `DataFrame.apply(lambda row: f(row[a], row[b]), axis=1)` over two
      columns of equal length: row `i` of the new column is `f` of row `i`. */
  method ApplyRows(f: (string, string) -> string, a: seq<string>, b: seq<string>) returns (column: seq<string>)
    requires |a| == |b|
    ensures |column| == |a|
    ensures forall i :: 0 <= i < |a| ==> column[i] == f(a[i], b[i])
  {
    column := [];
    for i := 0 to |a|
      invariant |column| == i
      invariant forall j :: 0 <= j < i ==> column[j] == f(a[j], b[j])
    {
      column := column + [f(a[i], b[i])];
    }
  }

  /** The pandas DataFrame `df`, column by column. `recommendedTool` and
      `toolScore` are empty until the script assigns them; a `None` score
      is the NaN that `Series.map` gives for a tool missing from the table. */
  class DepartmentTable {
    var department: seq<string>
    var currentTool: seq<string>
    var painPoint: seq<string>
    var recommendedTool: seq<string>
    var toolScore: seq<Option<real>>

    /** The three columns built from `data` have one entry per row. */
    ghost predicate Valid()
      reads this
    {
      |currentTool| == |department| && |painPoint| == |department|
    }

    /** `pd.DataFrame(data)`. */
    constructor (departments: seq<string>, currentTools: seq<string>, painPoints: seq<string>)
      requires |currentTools| == |departments| && |painPoints| == |departments|
      ensures Valid()
      ensures department == departments && currentTool == currentTools && painPoint == painPoints
      ensures recommendedTool == [] && toolScore == []
    {
      department := departments;
      currentTool := currentTools;
      painPoint := painPoints;
      recommendedTool := [];
      toolScore := [];
    }

    /** `df["Recommended_Tool"] = df.apply(lambda row:
        recommend_best_tool(row["Current_Tool"], row["Pain_Point"]), axis=1)`. */
    method AssignRecommendedTool()
      requires Valid()
      modifies this`recommendedTool
      ensures Valid()
      ensures |recommendedTool| == |department|
      ensures forall i :: 0 <= i < |department| ==>
        recommendedTool[i] == RecommendBestTool(currentTool[i], painPoint[i])
    {
      recommendedTool := ApplyRows(RecommendBestTool, currentTool, painPoint);
    }

    /** `df["Tool_Score"] = df["Recommended_Tool"].map(recommendations)`. */
    method AssignToolScore(recommendations: ScoreTable)
      requires Valid()
      modifies this`toolScore
      ensures Valid()
      ensures |toolScore| == |recommendedTool|
      ensures forall i :: 0 <= i < |recommendedTool| ==>
        toolScore[i] == Get(recommendations, recommendedTool[i])
    {
      var column: seq<Option<real>> := [];
      for i := 0 to |recommendedTool|
        invariant |column| == i
        invariant forall j :: 0 <= j < i ==> column[j] == Get(recommendations, recommendedTool[j])
      {
        column := column + [Get(recommendations, recommendedTool[i])];
      }
      toolScore := column;
    }
  }

  /** Steps 1 to 3 of the script with the two `random.choices` draws given
      as arguments. The score table is built by the loop over `tech_options`;
      the department table gets seven rows, in the order of `departments`,
      each with a catalog tool and that tool's score (never NaN). */
  method Simulate(currentTools: seq<string>, painPoints: seq<string>) returns (df: DepartmentTable)
    requires DrawnFrom(currentTools, CurrentTools, |Departments|)
    requires DrawnFrom(painPoints, PainPoints, |Departments|)
    ensures fresh(df) && df.Valid()
    ensures |df.department| == 7 && df.department == Departments
    ensures df.currentTool == currentTools && df.painPoint == painPoints
    ensures |df.recommendedTool| == 7 && |df.toolScore| == 7
    ensures forall i :: 0 <= i < 7 ==>
      && df.recommendedTool[i] == RecommendBestTool(currentTools[i], painPoints[i])
      && df.recommendedTool[i] in Keys(TechOptions)
      && df.toolScore[i].Some?
      && df.toolScore[i] == Get(Recommendations(), df.recommendedTool[i])
  {
    var recommendations := BuildRecommendations(TechOptions);
    df := new DepartmentTable(Departments, currentTools, painPoints);
    df.AssignRecommendedTool();
    df.AssignToolScore(recommendations);
  }
}
