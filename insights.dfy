/** Industry insights (actions/dashboard.js): the canned default insights, the
    choice between the model's insights and the defaults, and the
    get-or-create of the insight row for the caller's industry. */
module Insights {
  import opened Wrappers
  import opened Text
  import opened AiText
  import opened Accounts

  /** One entry of `salaryRanges`. Numbers are JavaScript numbers. */
  datatype SalaryRange = SalaryRange(role: string, min: real, max: real, median: real, location: string)

  /** The insight fields, as the model is asked to return them. */
  datatype Insights = Insights(
    salaryRanges: seq<SalaryRange>,
    growthRate: real,
    demandLevel: string,
    topSkills: seq<string>,
    marketOutlook: string,
    keyTrends: seq<string>,
    recommendedSkills: seq<string>)

  /** The values the prompt allows for `demandLevel`. */
  predicate IsDemandLevel(s: string) {
    s == "High" || s == "Medium" || s == "Low"
  }

  /** The values the prompt allows for `marketOutlook`. */
  predicate IsMarketOutlook(s: string) {
    s == "Positive" || s == "Neutral" || s == "Negative"
  }

  /** A salary range whose median lies between its bounds. */
  predicate Ordered(s: SalaryRange) {
    s.min <= s.median <= s.max
  }

  /** A remote salary range; only ordered ones can be built. */
  function Remote(role: string, min: real, max: real, median: real): (r: SalaryRange)
    requires min <= median <= max
    ensures Ordered(r) && r.role == role && r.location == "Remote"
  {
    SalaryRange(role, min, max, median, "Remote")
  }

  /** `defaultInsights(industry)`: five ordered salary ranges, a demand level
      and an outlook within the prompt's enumerations, and five entries in
      each list; `industry` plays no part. */
  function DefaultInsights(industry: Option<string>): (r: Insights)
    ensures |r.salaryRanges| == 5
    ensures forall k :: 0 <= k < |r.salaryRanges| ==> Ordered(r.salaryRanges[k])
    ensures IsDemandLevel(r.demandLevel) && IsMarketOutlook(r.marketOutlook)
    ensures |r.topSkills| == 5 && |r.keyTrends| == 5 && |r.recommendedSkills| == 5
  {
    Insights(
      [ Remote("Junior Engineer", 30000.0, 50000.0, 40000.0),
        Remote("Mid Engineer", 50000.0, 90000.0, 70000.0),
        Remote("Senior Engineer", 90000.0, 140000.0, 115000.0),
        Remote("Manager", 100000.0, 160000.0, 130000.0),
        Remote("Director", 140000.0, 200000.0, 170000.0) ],
      8.0,
      "High",
      ["Problem Solving", "Communication", "Leadership", "Time Management", "Teamwork"],
      "Positive",
      ["AI Adoption", "Automation", "Remote Work", "Cloud Migration", "Data-Driven Decisions"],
      ["SQL", "Python", "Project Management", "Public Speaking", "Writing"])
  }

  /** The defaults are the same whatever the industry. */
  lemma DefaultInsightsIgnoreIndustry(a: Option<string>, b: Option<string>)
    ensures DefaultInsights(a) == DefaultInsights(b)
  {
  }

  /** `generateAIInsights(industry)`: the parsed, cleaned model reply, or the
      defaults when there is no key, the call throws or the parse fails;
      never a mixture of the two. `parse` stands for `JSON.parse`. */
  function GenerateAIInsights(industry: Option<string>, apiKey: Option<string>, reply: AiReply,
                              parse: string -> Option<Insights>): (r: Insights)
    ensures !Configured(apiKey) ==> r == DefaultInsights(industry)
    ensures reply.Threw? ==> r == DefaultInsights(industry)
    ensures Configured(apiKey) && reply.Replied? ==>
              r == parse(Clean(reply.text)).GetOr(DefaultInsights(industry))
    ensures r == DefaultInsights(industry) ||
              (Configured(apiKey) && reply.Replied? && parse(Clean(reply.text)) == Some(r))
  {
    if !Configured(apiKey) then DefaultInsights(industry)
    else match reply
      case Threw => DefaultInsights(industry)
      case Replied(text) =>
        match parse(Clean(text))
        case Some(insights) => insights
        case None => DefaultInsights(industry)
  }

  /** A reply that wraps JSON in a "```json" fence is parsed as the trimmed
      JSON itself. */
  lemma FencedReplyParsesJson(industry: Option<string>, apiKey: Option<string>, json: string,
                              parse: string -> Option<Insights>)
    requires Configured(apiKey) && NoBacktick(json)
    ensures GenerateAIInsights(industry, apiKey, Replied("```json\n" + json + "```"), parse) ==
              parse(Trim(json)).GetOr(DefaultInsights(industry))
  {
    CleanJsonFence(json);
  }

  /** Seven days, in milliseconds. */
  const WeekMs: int := 7 * 24 * 60 * 60 * 1000

  /** A row of the industry-insight table. */
  datatype IndustryInsight = IndustryInsight(industry: Option<string>, insights: Insights, nextUpdate: int)

  /** `user.industryInsight`: the first row for the user's industry; a user
      without an industry has none. */
  function InsightFor(rows: seq<IndustryInsight>, industry: Option<string>): (r: Option<IndustryInsight>)
    ensures r.Some? ==> r.value in rows && r.value.industry == industry && industry.Some?
    ensures r.None? <==> industry.None? || forall k :: 0 <= k < |rows| ==> rows[k].industry != industry
  {
    if industry.None? || rows == [] then None
    else if rows[0].industry == industry then Some(rows[0])
    else
      var r := InsightFor(rows[1..], industry);
      assert forall k :: 1 <= k < |rows| ==> rows[k] == rows[1..][k - 1];
      r
  }

  /** A row added behind the others changes the lookup only for its own
      industry, and only when that industry had no row. */
  lemma {:induction false} InsightForAppend(rows: seq<IndustryInsight>, row: IndustryInsight, industry: Option<string>)
    ensures InsightFor(rows + [row], industry) ==
              if InsightFor(rows, industry).None? && industry.Some? && row.industry == industry
              then Some(row) else InsightFor(rows, industry)
  {
    if industry.Some? && rows != [] && rows[0].industry != industry {
      assert (rows + [row])[1..] == rows[1..] + [row];
      InsightForAppend(rows[1..], row, industry);
    }
  }

  /** No two rows share an industry (the table's unique key). */
  predicate UniqueIndustries(rows: seq<IndustryInsight>) {
    forall i, j :: 0 <= i < j < |rows| && rows[i].industry.Some? ==> rows[i].industry != rows[j].industry
  }

  /** The industry-insight table. */
  class InsightStore {
    var rows: seq<IndustryInsight>

    ghost predicate Valid()
      reads this
    {
      UniqueIndustries(rows)
    }

    constructor()
      ensures Valid() && rows == []
    {
      rows := [];
    }

    /** `getIndustryInsights()`: the caller checks come first and write
        nothing; an existing row is returned as it is; otherwise one row is
        created for the user's industry with the generated insights and an
        update due one week after `now`. `createFails` stands for a database
        error, which propagates. */
    method GetIndustryInsights(caller: Option<string>, users: map<string, User>, now: int,
                               apiKey: Option<string>, reply: AiReply, parse: string -> Option<Insights>,
                               createFails: bool)
      returns (r: Result<IndustryInsight, Error>)
      requires Valid()
      modifies this
      ensures Valid()
      ensures CurrentUser(caller, users).Failure? ==>
                r == Failure(CurrentUser(caller, users).error) && rows == old(rows)
      ensures CurrentUser(caller, users).Success? && InsightFor(old(rows), users[caller.value].industry).Some? ==>
                r == Success(InsightFor(old(rows), users[caller.value].industry).value) && rows == old(rows)
      ensures CurrentUser(caller, users).Success? && InsightFor(old(rows), users[caller.value].industry).None? ==>
                if createFails then r == Failure(StoreFailure) && rows == old(rows)
                else
                  var industry := users[caller.value].industry;
                  && r == Success(IndustryInsight(industry, GenerateAIInsights(industry, apiKey, reply, parse), now + WeekMs))
                  && r.value.nextUpdate == now + 604800000
                  && rows == old(rows) + [r.value]
    {
      var user := CurrentUser(caller, users);
      if user.Failure? {
        return Failure(user.error);
      }
      var existing := InsightFor(rows, user.value.industry);
      if existing.Some? {
        return Success(existing.value);
      }
      var insights := GenerateAIInsights(user.value.industry, apiKey, reply, parse);
      if createFails {
        return Failure(StoreFailure);
      }
      var row := IndustryInsight(user.value.industry, insights, now + WeekMs);
      rows := rows + [row];
      r := Success(row);
    }
  }

  /** Once a row was created for an industry, the next lookup finds that row,
      so a second call creates nothing. */
  lemma CreatedRowIsFound(rows: seq<IndustryInsight>, row: IndustryInsight)
    requires row.industry.Some? && InsightFor(rows, row.industry).None?
    ensures InsightFor(rows + [row], row.industry) == Some(row)
    ensures UniqueIndustries(rows) ==> UniqueIndustries(rows + [row])
  {
    InsightForAppend(rows, row, row.industry);
  }
}
