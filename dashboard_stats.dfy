/**
 * The dashboard's counters and recent-activity list: how many opinions there
 * are, how many people submitted them, how many are processed, the processed
 * rate and the pending count, and the latest opinions with their labels.
 */
module DashboardStats {

  import opened Wrappers
  import opened Seqs
  import opened Store

  // ---------------------------------------------------------------- counters

  /** The employee ids that submitted at least one opinion (`user_id` not NULL). */
  function Submitters(table: seq<OpinionRow>): (ids: set<string>)
    ensures forall r :: r in table && r.userId.Some? ==> r.userId.value in ids
    ensures forall id :: id in ids ==> exists r :: r in table && r.userId == Some(id)
  {
    set r | r in table && r.userId.Some? :: r.userId.value
  }

  /** `userCnt`: the number of distinct submitters. */
  function UserCount(table: seq<OpinionRow>): (n: nat)
    ensures n <= |table|
    ensures n == 0 <==> forall r :: r in table ==> r.userId.None?
  {
    SubmittersBound(table);
    if r :| r in table && r.userId.Some? then
      assert r.userId.value in Submitters(table);
      |Submitters(table)|
    else
      assert Submitters(table) == {};
      |Submitters(table)|
  }

  /** There are never more submitters than opinions. */
  lemma {:induction false} SubmittersBound(table: seq<OpinionRow>)
    ensures |Submitters(table)| <= |table|
    decreases |table|
  {
    if table != [] {
      var rest := table[1..];
      SubmittersBound(rest);
      var extra := if table[0].userId.Some? then {table[0].userId.value} else {};
      assert Submitters(table) <= Submitters(rest) + extra by {
        forall id | id in Submitters(table) ensures id in Submitters(rest) + extra {
          var r :| r in table && r.userId.Some? && r.userId.value == id;
          if r != table[0] { assert r in rest; }
        }
      }
      assert |Submitters(rest) + extra| <= |Submitters(rest)| + |extra|;
      SubsetCardinality(Submitters(table), Submitters(rest) + extra);
    }
  }

  /** A subset is no larger than its superset. */
  lemma {:induction false} SubsetCardinality<T>(a: set<T>, b: set<T>)
    requires a <= b
    ensures |a| <= |b|
    decreases |a|
  {
    if a != {} {
      var x :| x in a;
      SubsetCardinality(a - {x}, b - {x});
    }
  }

  /** Opinions that add to the processed count as written: the status `처리완료` only. */
  predicate CompletedAsWritten(r: OpinionRow)
  {
    r.status == Some("처리완료")
  }

  /** The processed count as written; a failed count query reads as 0. */
  function ProcessedCountAsWritten(table: seq<OpinionRow>, queryFails: bool): (n: nat)
    ensures n <= |table|
    ensures queryFails ==> n == 0
    ensures !queryFails ==> (n == 0 <==> forall r :: r in table ==> !CompletedAsWritten(r))
  {
    if queryFails then 0
    else
      var done := Filter(table, CompletedAsWritten);
      if r :| r in table && CompletedAsWritten(r) then
        assert r in done;
        |done|
      else
        FilterNone(table, CompletedAsWritten);
        |done|
  }

  /** As written, opinions answered through the response dialog or the detail page (both write `답변완료`)
    * are never counted: a table of answered opinions shows 0 processed. */
  lemma AnsweredNotCountedAsWritten(table: seq<OpinionRow>)
    requires forall r :: r in table ==> r.status == Some("답변완료")
    ensures ProcessedCountAsWritten(table, false) == 0
  {
    assert Filter(table, CompletedAsWritten) == [] by {
      if Filter(table, CompletedAsWritten) != [] { assert Filter(table, CompletedAsWritten)[0] in Filter(table, CompletedAsWritten); }
    }
  }

  /** Opinions counted as processed: answered (`답변완료`, the final status the answering screens write) or
    * completed (`처리완료`, the status the list and the dashboard name). */
  predicate Completed(r: OpinionRow)
  {
    r.status == Some("답변완료") || r.status == Some("처리완료")
  }

  /** The processed count; a failed count query reads as 0. */
  function ProcessedCount(table: seq<OpinionRow>, queryFails: bool): (n: nat)
    ensures n <= |table|
    ensures queryFails ==> n == 0
    ensures !queryFails ==> n == |Filter(table, Completed)|
    ensures !queryFails ==> forall r :: r in table && r.status == Some("답변완료") ==> n > 0
  {
    if queryFails then 0
    else
      var done := Filter(table, Completed);
      assert forall r :: r in table && r.status == Some("답변완료") ==> r in done;
      |done|
  }

  /** The corrected count never falls below the count as written. */
  lemma {:induction false} ProcessedCountCoversAsWritten(table: seq<OpinionRow>, queryFails: bool)
    ensures ProcessedCountAsWritten(table, queryFails) <= ProcessedCount(table, queryFails)
    decreases |table|
  {
    if !queryFails && table != [] {
      ProcessedCountCoversAsWritten(table[1..], false);
    }
  }

  /** Opinions answered through the response dialog or the detail page. */
  predicate Answered(r: OpinionRow)
  {
    r.status == Some("답변완료")
  }

  /** The corrected count is the count as written plus the answered opinions. */
  lemma {:induction false} ProcessedCountSplits(table: seq<OpinionRow>)
    ensures ProcessedCount(table, false) == ProcessedCountAsWritten(table, false) + |Filter(table, Answered)|
    decreases |table|
  {
    if table != [] {
      ProcessedCountSplits(table[1..]);
    }
  }

  /** `Math.round(100 * processed / total)`, or 0 without opinions; halves round up. */
  function ProcessedRate(total: int, processed: int): (rate: int)
    ensures total <= 0 ==> rate == 0
    ensures total > 0 ==> 200 * processed - total < 2 * total * rate <= 200 * processed + total
  {
    if total > 0 then (200 * processed + total) / (2 * total) else 0
  }

  /** Multiplying by a positive number keeps strict order, so it can be cancelled. */
  lemma CancelPositive(k: int, a: int, b: int)
    requires k > 0 && k * a < k * b
    ensures a < b
  {
  }

  /** The rate is a percentage: 0 with nothing processed, 100 with everything processed, never above 100. */
  lemma ProcessedRateBounds(total: int, processed: int)
    requires 0 <= processed <= total
    ensures 0 <= ProcessedRate(total, processed) <= 100
    ensures processed == 0 ==> ProcessedRate(total, processed) == 0
    ensures 0 < processed == total ==> ProcessedRate(total, processed) == 100
  {
    if total > 0 {
      var rate, k := ProcessedRate(total, processed), 2 * total;
      assert k * rate <= 200 * processed + total <= 201 * total < k * 101;
      CancelPositive(k, rate, 101);
      assert k * -1 < 200 * processed - total < k * rate;
      CancelPositive(k, -1, rate);
      if processed == 0 {
        assert k * rate <= total < k * 1;
        CancelPositive(k, rate, 1);
      }
      if processed == total {
        assert k * 99 < 199 * total < k * rate;
        CancelPositive(k, 99, rate);
      }
    }
  }

  /** `pendingCnt`. */
  function PendingCount(total: int, processed: int): (pending: int)
    ensures pending + processed == total
  {
    total - processed
  }

  // ---------------------------------------------------------------- recent opinions

  /** The category names shown when the category list is empty. */
  const DefaultCategoryNames: seq<string> := ["업무개선", "복리후생", "시설환경", "조직문화", "교육/훈련"]

  /** The affiliate names shown when the affiliate list is empty. */
  const DefaultCompanyNames: seq<string> := ["본사", "계열사A", "계열사B"]

  /** The names the chart lists: the loaded names, or the defaults when nothing was loaded. */
  function ChartNames(loaded: seq<Named>, defaults: seq<string>): (names: seq<Option<string>>)
    requires defaults != []
    ensures names != []
    ensures loaded != [] ==> |names| == |loaded| && forall i :: 0 <= i < |loaded| ==> names[i] == loaded[i].name
    ensures loaded == [] ==> |names| == |defaults| && forall i :: 0 <= i < |defaults| ==> names[i] == Some(defaults[i])
  {
    if loaded != [] then seq(|loaded|, i requires 0 <= i < |loaded| => loaded[i].name)
    else seq(|defaults|, i requires 0 <= i < |defaults| => Some(defaults[i]))
  }

  /** One entry of the recent-activity list. */
  datatype RecentOpinion = RecentOpinion(id: nat, title: Option<string>, status: Option<string>, quarter: Option<string>,
                                         categoryName: string, companyName: string)

  /** `recentOpinions`: the first ten opinions, labelled by cycling through the chart's names. */
  function RecentOpinions(table: seq<OpinionRow>, categoryNames: seq<Option<string>>, companyNames: seq<Option<string>>)
    : (recent: seq<RecentOpinion>)
    requires categoryNames != [] && companyNames != []
    ensures |recent| == if |table| < 10 then |table| else 10
    ensures forall i :: 0 <= i < |recent| ==> recent[i].id == table[i].id && recent[i].status == table[i].status
    ensures forall i :: 0 <= i < |recent| ==> recent[i].title == table[i].title && recent[i].quarter == table[i].quarter
    ensures forall i :: 0 <= i < |recent| ==>
      recent[i].categoryName == OrElse(categoryNames[i % |categoryNames|], "일반")
      && recent[i].companyName == OrElse(companyNames[i % |companyNames|], "본사")
  {
    var first := if |table| < 10 then table else table[..10];
    seq(|first|, i requires 0 <= i < |first| =>
      RecentOpinion(first[i].id, first[i].title, first[i].status, first[i].quarter,
                    OrElse(categoryNames[i % |categoryNames|], "일반"), OrElse(companyNames[i % |companyNames|], "본사")))
  }

  /** The recent opinions keep the table's newest-first order. */
  lemma RecentKeepsOrder(table: seq<OpinionRow>, categoryNames: seq<Option<string>>, companyNames: seq<Option<string>>)
    requires categoryNames != [] && companyNames != []
    requires forall i, j :: 0 <= i < j < |table| ==> table[i].id > table[j].id
    ensures var recent := RecentOpinions(table, categoryNames, companyNames);
      forall i, j :: 0 <= i < j < |recent| ==> recent[i].id > recent[j].id
  {
  }

  /** The recent-activity card shows at most the first five. */
  function Displayed(recent: seq<RecentOpinion>): (shown: seq<RecentOpinion>)
    ensures |shown| <= 5 && |shown| <= |recent| && shown == recent[..|shown|]
    ensures |recent| <= 5 ==> shown == recent
  {
    if |recent| <= 5 then recent else recent[..5]
  }

  // ---------------------------------------------------------------- the whole card

  /** Which of the dashboard's queries failed. */
  datatype Failures = Failures(count: bool, basic: bool, userIds: bool, processed: bool, categories: bool, companies: bool)

  /** What the dashboard displays. */
  datatype Dashboard = Dashboard(totalCnt: nat, userCnt: nat, processedCnt: nat, processedRate: int, pendingCnt: int,
                                 recent: seq<RecentOpinion>)

  /** The dashboard built around a processed count: any failed query but the processed count is fatal. */
  function DashboardWith(table: seq<OpinionRow>, categories: seq<Named>, companies: seq<Named>, failed: Failures, processed: nat)
    : (r: Option<Dashboard>)
    requires processed <= |table|
    ensures r.None? <==> failed.count || failed.basic || failed.userIds || failed.categories || failed.companies
    ensures r.Some? ==> r.value.totalCnt == |table| && r.value.userCnt <= r.value.totalCnt
    ensures r.Some? ==> r.value.processedCnt == processed && r.value.pendingCnt == |table| - processed
    ensures r.Some? ==> 0 <= r.value.processedRate <= 100
  {
    if failed.count || failed.basic || failed.userIds || failed.categories || failed.companies then None
    else
      ProcessedRateBounds(|table|, processed);
      Some(Dashboard(
        |table|, UserCount(table), processed, ProcessedRate(|table|, processed), PendingCount(|table|, processed),
        RecentOpinions(table, ChartNames(categories, DefaultCategoryNames), ChartNames(companies, DefaultCompanyNames))))
  }

  /** The dashboard's data as written: the processed count counts `처리완료` only; a failed processed count
    * reads as 0. */
  function LoadDashboard(table: seq<OpinionRow>, categories: seq<Named>, companies: seq<Named>, failed: Failures)
    : (r: Option<Dashboard>)
    ensures r.None? <==> failed.count || failed.basic || failed.userIds || failed.categories || failed.companies
    ensures r.Some? ==> r.value.totalCnt == |table| && r.value.userCnt <= r.value.totalCnt
    ensures r.Some? ==> r.value.processedCnt == ProcessedCountAsWritten(table, failed.processed)
    ensures r.Some? ==> r.value.processedCnt <= r.value.totalCnt && r.value.pendingCnt >= 0
    ensures r.Some? ==> 0 <= r.value.processedRate <= 100
    ensures r.Some? && failed.processed ==> r.value.processedCnt == 0 && r.value.pendingCnt == |table|
  {
    DashboardWith(table, categories, companies, failed, ProcessedCountAsWritten(table, failed.processed))
  }

  /** The dashboard's data with the corrected processed count, which also counts answered opinions. */
  function LoadDashboardCorrected(table: seq<OpinionRow>, categories: seq<Named>, companies: seq<Named>, failed: Failures)
    : (r: Option<Dashboard>)
    ensures r.None? <==> LoadDashboard(table, categories, companies, failed).None?
    ensures r.Some? ==> r.value.processedCnt == ProcessedCount(table, failed.processed)
    ensures r.Some? ==> r.value.processedCnt >= LoadDashboard(table, categories, companies, failed).value.processedCnt
    ensures r.Some? ==> r.value.processedCnt <= r.value.totalCnt && r.value.pendingCnt >= 0
    ensures r.Some? ==> 0 <= r.value.processedRate <= 100
  {
    ProcessedCountCoversAsWritten(table, failed.processed);
    DashboardWith(table, categories, companies, failed, ProcessedCount(table, failed.processed))
  }

  // ---------------------------------------------------------------- emoji

  /** The emoji of each known category. */
  const CategoryEmoji: map<string, string> := map[
    "업무개선" := "💼", "복리후생" := "🎁", "교육/훈련" := "📚", "조직문화" := "🤝", "시설환경" := "🏢", "기타" := "💡"]

  /** `getEmojiByCategory`: the category's emoji, or 💡 for any other category. */
  function EmojiFor(category: string): (e: string)
    ensures category in CategoryEmoji ==> e == CategoryEmoji[category]
    ensures category !in CategoryEmoji ==> e == "💡"
  {
    if category in CategoryEmoji then CategoryEmoji[category] else "💡"
  }

  /** Each default chart category has its own emoji, different from the fallback. */
  lemma DefaultCategoriesHaveEmoji()
    ensures forall c :: c in DefaultCategoryNames ==> c in CategoryEmoji && EmojiFor(c) != "💡"
  {
  }
}
