/**
 * The administrator's opinion screen: one search loads the opinions of a
 * quarter, joins them with the category, affiliate and user lists, narrows
 * them with the free-text, category and affiliate filters, and the export
 * turns what is shown into spreadsheet rows, leaving out blinded opinions.
 */
module AdminPanel {

  import opened Wrappers
  import opened Strings
  import opened Seqs
  import opened Dates
  import opened Store
  import opened Moderation

  /** One row of the result table after the joins (`OpinionData`). */
  datatype AdminOpinion = AdminOpinion(
    id: string,
    seqNo: nat,
    name: string,
    dept: string,
    company: string,
    category: string,
    title: string,
    asis: Option<string>,
    tobe: string,
    effect: Option<string>,
    caseStudy: Option<string>,
    status: string,
    regDate: string,
    negativeScore: nat,
    prodDept: string,
    procDesc: string,
    procId: Option<string>,
    procName: Option<string>)

  /** The three lists loaded beside the opinions; a list whose load failed is empty. */
  datatype Lookups = Lookups(categories: seq<Named>, companies: seq<Named>, users: seq<UserRow>)

  // ---------------------------------------------------------------- the query

  /** The rows the opinion query asks for: created within the quarter's window, and of the chosen status unless 'all'. */
  predicate InSearchWindow(r: OpinionRow, year: nat, quarter: string, statusFilter: string)
  {
    && r.createdAt.Some?
    && InRange(r.createdAt.value, QuarterDateRange(year, quarter))
    && (statusFilter == "all" || r.status == Some(statusFilter))
  }

  /** Builds the opinion query's filters the way `handleSearch` does: the window first, then the status. */
  method SearchQuery(year: nat, quarter: string, statusFilter: string) returns (ks: seq<Constraint>)
    ensures forall r :: SatisfiesAll(r, ks) <==> InSearchWindow(r, year, quarter, statusFilter)
  {
    var range := QuarterDateRange(year, quarter);
    ks := [Gte(CreatedAt, range.start), Lte(CreatedAt, EndOfDay(range.end))];
    if statusFilter != "all" {
      ks := ks + [Eq(Status, statusFilter)];
    }
    forall r: OpinionRow
      ensures SatisfiesAll(r, ks) <==> InSearchWindow(r, year, quarter, statusFilter)
    {
      if SatisfiesAll(r, ks) {
        assert Holds(r, ks[0]) && Holds(r, ks[1]);
        if statusFilter != "all" { assert Holds(r, ks[2]); }
      }
    }
  }

  // ---------------------------------------------------------------- the joins

  /** Joins one opinion row with the lookups and fills in the display defaults. */
  function Enrich(row: OpinionRow, lk: Lookups, toIso: string -> Option<string>): (o: AdminOpinion)
    ensures o.dept == DeptOf(lk.users, row.userId)
    ensures o.prodDept == DeptOf(lk.users, row.procId)
    ensures o.category == NameOf(lk.categories, row.categoryId, "기타")
    ensures o.company == NameOf(lk.companies, row.companyId, "알 수 없음")
    ensures o.id == NatToString(row.id) && o.seqNo == (if row.seqNo != 0 then row.seqNo else row.id)
    ensures o.name != "" && (o.name == "익명" || row.userId == Some(o.name))
    ensures o.name == OrElse(row.userId, "익명") && o.status == OrElse(row.status, "접수")
    ensures o.title == OrElse(row.title, "") && o.tobe == OrElse(row.tobe, "") && o.procDesc == OrElse(row.procDesc, "")
    ensures o.asis == Present(row.asis) && o.effect == Present(row.effect) && o.caseStudy == Present(row.caseStudy)
    ensures o.procId == Present(row.procId) && o.procName == Present(row.procName)
    ensures o.regDate == FormatDate(OrElse(row.createdAt, ""), toIso)
    ensures o.negativeScore == row.negativeScore
  {
    AdminOpinion(
      id := NatToString(row.id),
      seqNo := if row.seqNo != 0 then row.seqNo else row.id,
      name := OrElse(row.userId, "익명"),
      dept := DeptOf(lk.users, row.userId),
      company := NameOf(lk.companies, row.companyId, "알 수 없음"),
      category := NameOf(lk.categories, row.categoryId, "기타"),
      title := OrElse(row.title, ""),
      asis := Present(row.asis),
      tobe := OrElse(row.tobe, ""),
      effect := Present(row.effect),
      caseStudy := Present(row.caseStudy),
      status := OrElse(row.status, "접수"),
      regDate := FormatDate(OrElse(row.createdAt, ""), toIso),
      negativeScore := row.negativeScore,
      prodDept := DeptOf(lk.users, row.procId),
      procDesc := OrElse(row.procDesc, ""),
      procId := Present(row.procId),
      procName := Present(row.procName))
  }

  /** `opinionData.map(...)`. */
  function EnrichAll(rows: seq<OpinionRow>, lk: Lookups, toIso: string -> Option<string>): (os: seq<AdminOpinion>)
    ensures |os| == |rows| && forall i :: 0 <= i < |rows| ==> os[i] == Enrich(rows[i], lk, toIso)
  {
    seq(|rows|, i requires 0 <= i < |rows| => Enrich(rows[i], lk, toIso))
  }

  /** The requester's and the processor's departments come from their own users: when the two ids name
    * two different users, each with a unique id, the row shows each one's department. */
  lemma TwoJoinsStaySeparate(row: OpinionRow, lk: Lookups, toIso: string -> Option<string>, requester: UserRow, processor: UserRow)
    requires requester in lk.users && processor in lk.users
    requires row.userId == Some(requester.employeeId) && row.procId == Some(processor.employeeId)
    requires requester.employeeId != "" && processor.employeeId != ""
    requires forall v :: v in lk.users && v.employeeId == requester.employeeId ==> v == requester
    requires forall v :: v in lk.users && v.employeeId == processor.employeeId ==> v == processor
    ensures Enrich(row, lk, toIso).dept == OrElse(requester.dept, "")
    ensures Enrich(row, lk, toIso).prodDept == OrElse(processor.dept, "")
  {
    DeptOfUnique(lk.users, requester);
    DeptOfUnique(lk.users, processor);
  }

  // ---------------------------------------------------------------- the client-side filters

  /** The free-text match: the term (already trimmed and lower-cased) occurs in the lower-cased name, id, title or proposal. */
  predicate MatchesTerm(o: AdminOpinion, term: string)
  {
    Contains(Lower(o.name), term) || Contains(Lower(o.id), term) || Contains(Lower(o.title), term) || Contains(Lower(o.tobe), term)
  }

  /** The free-text filter; a blank search text lets every row through. */
  predicate TextMatches(o: AdminOpinion, searchText: string)
  {
    Trim(searchText) == "" || MatchesTerm(o, Lower(Trim(searchText)))
  }

  /** Whether a row survives the three filters; a blank search text and the value 'all' switch a filter off. */
  predicate Keeps(o: AdminOpinion, searchText: string, category: string, affiliate: string)
    ensures Keeps(o, searchText, category, affiliate) ==>
      (category == "all" || o.category == category) && (affiliate == "all" || o.company == affiliate)
    ensures Keeps(o, searchText, category, affiliate) && Trim(searchText) != "" ==> MatchesTerm(o, Lower(Trim(searchText)))
    ensures Trim(searchText) == "" && category == "all" && affiliate == "all" ==> Keeps(o, searchText, category, affiliate)
  {
    TextMatches(o, searchText) && (category == "all" || o.category == category) && (affiliate == "all" || o.company == affiliate)
  }

  /** The filter chain of `handleSearch`: each active filter narrows the rows left by the previous one. */
  method FilterRows(enriched: seq<AdminOpinion>, searchText: string, category: string, affiliate: string)
    returns (rows: seq<AdminOpinion>)
    ensures rows == Filter(enriched, o => Keeps(o, searchText, category, affiliate))
  {
    var p1 := (o: AdminOpinion) => TextMatches(o, searchText);
    var p2 := (o: AdminOpinion) => TextMatches(o, searchText) && (category == "all" || o.category == category);
    var p3 := (o: AdminOpinion) => Keeps(o, searchText, category, affiliate);
    rows := enriched;
    if Trim(searchText) != "" {
      var term := Lower(Trim(searchText));
      var q := (o: AdminOpinion) => MatchesTerm(o, term);
      rows := Filter(rows, q);
      FilterCongruent(enriched, q, p1);
    } else {
      FilterAll(enriched, p1);
    }
    if category != "all" {
      var q := (o: AdminOpinion) => o.category == category;
      FilterNarrow(enriched, rows, p1, q, p2);
      rows := Filter(rows, q);
    } else {
      FilterCongruent(enriched, p1, p2);
    }
    if affiliate != "all" {
      var q := (o: AdminOpinion) => o.company == affiliate;
      FilterNarrow(enriched, rows, p2, q, p3);
      rows := Filter(rows, q);
    } else {
      FilterCongruent(enriched, p2, p3);
    }
  }

  /** With a blank search text and both selectors on 'all', every loaded row is shown. */
  lemma {:induction false} NoFilterKeepsAll(enriched: seq<AdminOpinion>, searchText: string)
    requires IsBlank(searchText)
    ensures Filter(enriched, o => Keeps(o, searchText, "all", "all")) == enriched
  {
    TrimEmptyIff(searchText);
    FilterAll(enriched, o => Keeps(o, searchText, "all", "all"));
  }

  /** The search ignores case: a title containing the term in any capitalisation is found. */
  lemma {:induction false} SearchIgnoresCase(o: AdminOpinion, searchText: string, before: string, found: string, after: string)
    requires o.title == before + found + after
    requires Trim(searchText) != "" && Lower(found) == Lower(Trim(searchText))
    ensures Keeps(o, searchText, "all", "all")
  {
    LowerConcat(before + found, after);
    LowerConcat(before, found);
    ContainsInfix(Lower(before), Lower(found), Lower(after));
  }

  /** The filters only remove rows: whatever order the loaded rows were in (id, descending), the shown rows keep it. */
  lemma FiltersKeepOrder(enriched: seq<AdminOpinion>, searchText: string, category: string, affiliate: string,
                         before: (AdminOpinion, AdminOpinion) -> bool)
    requires Chain(enriched, before)
    ensures Chain(Filter(enriched, o => Keeps(o, searchText, category, affiliate)), before)
  {
    FilterKeepsOrder(enriched, o => Keeps(o, searchText, category, affiliate), before);
  }

  /** What a successful search shows: the rows of the window, joined, that pass the filters. */
  function SearchResult(table: seq<OpinionRow>, lk: Lookups, toIso: string -> Option<string>,
                        year: nat, quarter: string, statusFilter: string,
                        searchText: string, category: string, affiliate: string): (shown: seq<AdminOpinion>)
    ensures |shown| <= |table|
    ensures forall o :: o in shown ==> Keeps(o, searchText, category, affiliate)
    ensures forall r :: r in table && InSearchWindow(r, year, quarter, statusFilter) && Keeps(Enrich(r, lk, toIso), searchText, category, affiliate) ==>
      Enrich(r, lk, toIso) in shown
  {
    var fetched := Filter(table, r => InSearchWindow(r, year, quarter, statusFilter));
    EnrichAllHas(fetched, lk, toIso);
    Filter(EnrichAll(fetched, lk, toIso), o => Keeps(o, searchText, category, affiliate))
  }

  /** Every row's enrichment is among the enriched rows. */
  lemma EnrichAllHas(rows: seq<OpinionRow>, lk: Lookups, toIso: string -> Option<string>)
    ensures forall r :: r in rows ==> Enrich(r, lk, toIso) in EnrichAll(rows, lk, toIso)
  {
    forall r | r in rows ensures Enrich(r, lk, toIso) in EnrichAll(rows, lk, toIso) {
      var i :| 0 <= i < |rows| && rows[i] == r;
      assert EnrichAll(rows, lk, toIso)[i] == Enrich(r, lk, toIso);
    }
  }

  /** Every shown row comes from a stored row of the window, joined, and passes the filters. */
  lemma SearchResultSound(table: seq<OpinionRow>, lk: Lookups, toIso: string -> Option<string>,
                          year: nat, quarter: string, statusFilter: string,
                          searchText: string, category: string, affiliate: string, o: AdminOpinion)
    requires o in SearchResult(table, lk, toIso, year, quarter, statusFilter, searchText, category, affiliate)
    ensures Keeps(o, searchText, category, affiliate)
    ensures exists r :: r in table && InSearchWindow(r, year, quarter, statusFilter) && o == Enrich(r, lk, toIso)
  {
    var fetched := Filter(table, r => InSearchWindow(r, year, quarter, statusFilter));
    var enriched := EnrichAll(fetched, lk, toIso);
    var i :| 0 <= i < |enriched| && enriched[i] == o;
    assert fetched[i] in fetched;
  }

  /** The search pipeline of `handleSearch`: the query, the joins, then the filter passes. */
  method RunSearch(table: seq<OpinionRow>, lk: Lookups, toIso: string -> Option<string>,
                   year: nat, quarter: string, statusFilter: string,
                   searchText: string, category: string, affiliate: string) returns (rows: seq<AdminOpinion>)
    ensures rows == SearchResult(table, lk, toIso, year, quarter, statusFilter, searchText, category, affiliate)
  {
    var ks := SearchQuery(year, quarter, statusFilter);
    FilterCongruent(table, r => SatisfiesAll(r, ks), r => InSearchWindow(r, year, quarter, statusFilter));
    var fetched := Select(table, ks);
    var enriched := EnrichAll(fetched, lk, toIso);
    rows := FilterRows(enriched, searchText, category, affiliate);
  }

  // ---------------------------------------------------------------- the screen

  /** The screen's state; `opinionData` is what the result table shows. */
  class AdminPanelState {
    var year: nat
    var quarter: string
    var affiliateFilter: string
    var employeeIdFilter: string
    var categoryFilter: string
    var statusFilter: string
    var isLoading: bool
    var hasSearched: bool
    var opinionData: seq<AdminOpinion>

    /** The initial state: this year, the current quarter, every filter off, nothing loaded. */
    constructor(currentYear: nat, currentMonth: int)
      ensures year == currentYear && quarter == QuarterOfMonth(currentMonth)
      ensures affiliateFilter == "all" && employeeIdFilter == "" && categoryFilter == "all" && statusFilter == "all"
      ensures !isLoading && !hasSearched && opinionData == []
    {
      year := currentYear;
      quarter := QuarterOfMonth(currentMonth);
      affiliateFilter := "all";
      employeeIdFilter := "";
      categoryFilter := "all";
      statusFilter := "all";
      isLoading := false;
      hasSearched := false;
      opinionData := [];
    }

    /** `handleSearch`. `table` is the opinion table in id-descending order, `queryFails` says whether the
      * opinion query returned an error, and `lk` holds the three lists (empty where a load failed).
      * The table is cleared first; a failed query leaves it empty and `hasSearched` as it was. */
    method HandleSearch(table: seq<OpinionRow>, queryFails: bool, lk: Lookups, toIso: string -> Option<string>)
      modifies this
      ensures year == old(year) && quarter == old(quarter) && statusFilter == old(statusFilter)
      ensures affiliateFilter == old(affiliateFilter) && employeeIdFilter == old(employeeIdFilter) && categoryFilter == old(categoryFilter)
      ensures !isLoading
      ensures queryFails ==> opinionData == [] && hasSearched == old(hasSearched)
      ensures !queryFails ==> hasSearched
      ensures !queryFails ==> opinionData == SearchResult(table, lk, toIso, year, quarter, statusFilter, employeeIdFilter, categoryFilter, affiliateFilter)
    {
      isLoading := true;
      opinionData := [];
      if !queryFails {
        var rows := RunSearch(table, lk, toIso, year, quarter, statusFilter, employeeIdFilter, categoryFilter, affiliateFilter);
        opinionData := rows;
        hasSearched := true;
      }
      isLoading := false;
    }
  }

  // ---------------------------------------------------------------- the export

  /** The spreadsheet's header, in column order. */
  const ExportHeader: seq<string> := ["No", "업무주관부서", "안건구분", "안건상세", "안건요청부서", "상세내용", "답변"]

  /** The spreadsheet's column widths, in characters, in the same order. */
  const ColumnWidths: seq<nat> := [5, 15, 20, 30, 15, 50, 50]

  /** One spreadsheet row. */
  datatype ExportRow = ExportRow(no: nat, procDept: string, category: string, title: string, requestDept: string, detail: string, answer: string)

  /** The cells of a row, in the header's order. */
  function Cells(r: ExportRow): (cells: seq<string>)
    ensures |cells| == |ExportHeader| == |ColumnWidths|
    ensures cells[0] == NatToString(r.no) && cells[1] == r.procDept && cells[2] == r.category && cells[3] == r.title
    ensures cells[4] == r.requestDept && cells[5] == r.detail && cells[6] == r.answer
  {
    [NatToString(r.no), r.procDept, r.category, r.title, r.requestDept, r.detail, r.answer]
  }

  /** The row for the `no`-th exported opinion. */
  function ToExportRow(no: nat, o: AdminOpinion): (r: ExportRow)
    ensures r.no == no && r.procDept == o.prodDept && r.requestDept == o.dept
    ensures r.category == o.category && r.title == o.title && r.detail == o.tobe && r.answer == o.procDesc
  {
    ExportRow(no, o.prodDept, o.category, o.title, o.dept, o.tobe, o.procDesc)
  }

  /** A row that may be downloaded: one below the blinding threshold. */
  predicate MayDownload(o: AdminOpinion)
  {
    !IsBlinded(o.negativeScore)
  }

  /** A row the export leaves out. */
  predicate Blinded(o: AdminOpinion)
  {
    IsBlinded(o.negativeScore)
  }

  /** The rows that may be downloaded. */
  function Downloadable(data: seq<AdminOpinion>): seq<AdminOpinion>
  {
    Filter(data, MayDownload)
  }

  datatype ExportError = NoData | NothingDownloadable

  /** A successful export: the rows written and how many shown rows were left out. */
  datatype Export = Export(rows: seq<ExportRow>, excludedCount: nat)

  /** `handleExport` without the file: refuses an empty table, then a table with nothing downloadable;
    * otherwise numbers the downloadable rows from 1. */
  function ExportOpinions(data: seq<AdminOpinion>): (r: Result<Export, ExportError>)
    ensures r == Err(NoData) <==> data == []
    ensures r == Err(NothingDownloadable) <==> data != [] && forall o :: o in data ==> IsBlinded(o.negativeScore)
    ensures r.Ok? ==> 0 < |r.value.rows| && |r.value.rows| + r.value.excludedCount == |data|
    ensures r.Ok? ==> forall k :: 0 <= k < |r.value.rows| ==> r.value.rows[k].no == k + 1
  {
    if data == [] then Err(NoData)
    else
      var kept := Downloadable(data);
      if kept == [] then
        assert forall o :: o in data ==> !MayDownload(o);
        Err(NothingDownloadable)
      else
        assert exists o :: o in data && !IsBlinded(o.negativeScore) by { assert kept[0] in kept; }
        Ok(Export(seq(|kept|, k requires 0 <= k < |kept| => ToExportRow(k + 1, kept[k])), |data| - |kept|))
  }

  /** The export writes exactly the unblinded rows, in table order: row k is the k-th unblinded opinion. */
  lemma ExportWritesUnblinded(data: seq<AdminOpinion>)
    requires ExportOpinions(data).Ok?
    ensures var rows := ExportOpinions(data).value.rows;
      && |rows| == |Downloadable(data)|
      && (forall k :: 0 <= k < |rows| ==> rows[k] == ToExportRow(k + 1, Downloadable(data)[k]))
      && (forall o :: o in Downloadable(data) <==> o in data && !Blinded(o))
  {
  }

  /** The excluded count is the number of blinded rows shown. */
  lemma {:induction false} ExcludedAreBlinded(data: seq<AdminOpinion>)
    requires ExportOpinions(data).Ok?
    ensures ExportOpinions(data).value.excludedCount == |Filter(data, Blinded)|
  {
    FilterComplement(data, MayDownload, Blinded);
  }

  /** The message after a download mentions the excluded rows only when there are some. */
  function ExportMessage(excludedCount: nat): (m: string)
    ensures excludedCount == 0 <==> m == "Excel 파일이 다운로드되었습니다."
    ensures excludedCount > 0 ==> Contains(m, NatToString(excludedCount) + "건 제외")
  {
    var done := "Excel 파일이 다운로드되었습니다.";
    if excludedCount > 0 then
      var m := done + " (부적절한 내용 " + NatToString(excludedCount) + "건 제외)";
      assert m == (done + " (부적절한 내용 ") + (NatToString(excludedCount) + "건 제외") + ")";
      ContainsInfix(done + " (부적절한 내용 ", NatToString(excludedCount) + "건 제외", ")");
      m
    else done
  }
}
