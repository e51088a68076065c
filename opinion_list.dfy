/**
 * The opinion list every user sees: a query for the selected year (or one of
 * its quarters), optionally narrowed by a day range and a status, joined with
 * the category and affiliate names, then filtered again in the browser by
 * search text, category and day range.
 */
module OpinionList {

  import opened Wrappers
  import opened Strings
  import opened Seqs
  import opened Dates
  import opened Store
  import opened Tones

  /** One opinion as the list shows it (`Opinion`). */
  datatype ListOpinion = ListOpinion(
    id: nat,
    seqNo: nat,
    title: string,
    asis: string,
    tobe: string,
    userId: string,
    status: string,
    quarter: Option<string>,
    updatedAt: Option<string>,
    categoryName: string,
    companyName: string,
    content: string,
    regDate: string)

  // ---------------------------------------------------------------- the query

  /** The rows the list's query asks for. The year-or-quarter window and the optional day bounds are all
    * inclusive, an end day through 23:59:59; 'all' switches the status filter off. */
  predicate InListWindow(r: OpinionRow, year: nat, quarterFilter: string, dateFrom: string, dateTo: string, statusFilter: string)
  {
    && r.createdAt.Some?
    && InRange(r.createdAt.value, QuarterDateRange(year, quarterFilter))
    && (dateFrom == "" || LexLe(dateFrom, r.createdAt.value))
    && (dateTo == "" || LexLe(r.createdAt.value, EndOfDay(dateTo)))
    && (statusFilter == "all" || r.status == Some(statusFilter))
  }

  /** Builds the list's query the way the component does, adding one filter at a time. */
  method ListQuery(year: nat, quarterFilter: string, dateFrom: string, dateTo: string, statusFilter: string)
    returns (ks: seq<Constraint>)
    ensures forall r :: SatisfiesAll(r, ks) <==> InListWindow(r, year, quarterFilter, dateFrom, dateTo, statusFilter)
  {
    var range: DateRange;
    if quarterFilter != "all" {
      range := QuarterDateRange(year, quarterFilter);
    } else {
      range := QuarterDateRange(year, "all");
    }
    ks := [Gte(CreatedAt, range.start), Lte(CreatedAt, EndOfDay(range.end))];
    assert forall r :: SatisfiesAll(r, ks) <==> r.createdAt.Some? && InRange(r.createdAt.value, range) by {
      forall r: OpinionRow ensures SatisfiesAll(r, ks) <==> r.createdAt.Some? && InRange(r.createdAt.value, range) {
        if SatisfiesAll(r, ks) { assert Holds(r, ks[0]) && Holds(r, ks[1]); }
      }
    }
    ghost var want := (r: OpinionRow) => r.createdAt.Some? && InRange(r.createdAt.value, range);
    if dateFrom != "" {
      forall r: OpinionRow { SatisfiesAppend(r, ks, Gte(CreatedAt, dateFrom)); }
      ks := ks + [Gte(CreatedAt, dateFrom)];
    }
    assert forall r :: SatisfiesAll(r, ks) <==> want(r) && (dateFrom == "" || LexLe(dateFrom, r.createdAt.value));
    if dateTo != "" {
      forall r: OpinionRow { SatisfiesAppend(r, ks, Lte(CreatedAt, EndOfDay(dateTo))); }
      ks := ks + [Lte(CreatedAt, EndOfDay(dateTo))];
    }
    assert forall r :: SatisfiesAll(r, ks) <==>
      (want(r) && (dateFrom == "" || LexLe(dateFrom, r.createdAt.value)) && (dateTo == "" || LexLe(r.createdAt.value, EndOfDay(dateTo))));
    if statusFilter != "all" {
      forall r: OpinionRow { SatisfiesAppend(r, ks, Eq(Status, statusFilter)); }
      ks := ks + [Eq(Status, statusFilter)];
    }
  }

  /** The list's year window and the admin panel's quarter window are the same mapping: selecting 'all'
    * and selecting a quarter both go through the one quarter-to-range function, and a quarter's rows lie
    * inside the year's. */
  lemma ListWindowWithinYear(r: OpinionRow, year: nat, quarterFilter: string, dateFrom: string, dateTo: string, statusFilter: string)
    requires InListWindow(r, year, quarterFilter, dateFrom, dateTo, statusFilter)
    ensures InListWindow(r, year, "all", dateFrom, dateTo, statusFilter)
  {
    QuarterWithinYear(year, quarterFilter, r.createdAt.value);
  }

  // ---------------------------------------------------------------- the join

  /** Joins one row with the category and affiliate names and fills in the defaults. */
  function ListEnrich(row: OpinionRow, categories: seq<Named>, companies: seq<Named>): (o: ListOpinion)
    ensures o.content == o.title
    ensures o.regDate == OrElse(row.createdAt, "")
    ensures o.status != "" && (o.status == "접수" || row.status == Some(o.status))
    ensures o.status == OrElse(row.status, "접수") && o.title == OrElse(row.title, "")
    ensures o.asis == OrElse(row.asis, "") && o.tobe == OrElse(row.tobe, "") && o.userId == OrElse(row.userId, "")
    ensures o.categoryName == NameOf(categories, row.categoryId, "기타")
    ensures o.companyName == NameOf(companies, row.companyId, "알 수 없음")
    ensures o.id == row.id && o.seqNo == row.seqNo
    ensures o.quarter == row.quarter && o.updatedAt == Present(row.updatedAt)
  {
    ListOpinion(
      id := row.id,
      seqNo := row.seqNo,
      title := OrElse(row.title, ""),
      asis := OrElse(row.asis, ""),
      tobe := OrElse(row.tobe, ""),
      userId := OrElse(row.userId, ""),
      status := OrElse(row.status, "접수"),
      quarter := row.quarter,
      updatedAt := Present(row.updatedAt),
      categoryName := NameOf(categories, row.categoryId, "기타"),
      companyName := NameOf(companies, row.companyId, "알 수 없음"),
      content := OrElse(row.title, ""),
      regDate := OrElse(row.createdAt, ""))
  }

  // ---------------------------------------------------------------- the browser-side filter

  /** `matchesSearch`: an empty term matches everything; otherwise the lower-cased term occurs in the
    * lower-cased title, current situation or proposal (the term is not trimmed). */
  predicate MatchesSearch(o: ListOpinion, searchTerm: string)
  {
    searchTerm == ""
    || Contains(Lower(o.title), Lower(searchTerm))
    || Contains(Lower(o.asis), Lower(searchTerm))
    || Contains(Lower(o.tobe), Lower(searchTerm))
  }

  /** The `YYYY-MM-DD` part of a timestamp. */
  function DayOf(ts: string): string
  {
    Take(ts, 10)
  }

  /** The day-range check as written: the whole timestamp is compared with the bare bound days. */
  predicate InDayBoundsAsWritten(regDate: string, dateFrom: string, dateTo: string)
  {
    && (dateFrom == "" || regDate == "" || LexLe(dateFrom, regDate))
    && (dateTo == "" || regDate == "" || LexLe(regDate, dateTo))
  }

  /** As written, an opinion created during the `dateTo` day is kept by the query (which admits that day
    * through 23:59:59) and then dropped by the browser check: a timestamp extends its day's string. */
  lemma DateToDayDroppedAsWritten(day: string, time: string)
    requires day != [] && time != [] && LexLe(time, "T23:59:59")
    ensures LexLe(day + time, EndOfDay(day))
    ensures !InDayBoundsAsWritten(day + time, "", day)
  {
    LexLeCommonPrefix(day, time, "T23:59:59");
    LexLeNotBelowPrefix(day, time);
  }

  /** The day-range check as intended: the day of the timestamp lies between the bound days. */
  predicate InDayBounds(regDate: string, dateFrom: string, dateTo: string)
  {
    && (dateFrom == "" || regDate == "" || LexLe(dateFrom, DayOf(regDate)))
    && (dateTo == "" || regDate == "" || LexLe(DayOf(regDate), dateTo))
  }

  /** With the day check compared day to day, every row the query returned passes it again. */
  lemma {:induction false} QueriedRowsPassDayBounds(ts: string, dateFrom: string, dateTo: string)
    requires |dateFrom| <= 10 && |dateTo| == 10
    requires dateFrom == "" || LexLe(dateFrom, ts)
    requires LexLe(ts, EndOfDay(dateTo))
    ensures InDayBounds(ts, dateFrom, dateTo)
  {
    if dateFrom != "" { LexLeTakeRight(dateFrom, ts, 10); }
    LexLeTakeLeft(ts, dateTo, "T23:59:59");
  }

  /** The as-written check keeps no row the day-to-day check would drop: it only loses rows of the `dateTo`
    * day (see `DateToDayDroppedAsWritten`). */
  lemma {:induction false} AsWrittenWithinDayBounds(ts: string, dateFrom: string, dateTo: string)
    requires |dateFrom| <= 10
    requires InDayBoundsAsWritten(ts, dateFrom, dateTo)
    ensures InDayBounds(ts, dateFrom, dateTo)
  {
    if dateFrom != "" && ts != "" { LexLeTakeRight(dateFrom, ts, 10); }
    if dateTo != "" && ts != "" {
      var day := DayOf(ts);
      LexLePrefix(day, ts[|day|..]);
      assert day + ts[|day|..] == ts;
      LexLeTrans(day, ts, dateTo);
    }
  }

  /** `let matchesDate`: starts true and is narrowed by each bound that is set, when the row has a date; the
    * whole `reg_date` timestamp is compared with the bound days, as written. */
  method MatchesDate(regDate: string, dateFrom: string, dateTo: string) returns (matchesDate: bool)
    ensures matchesDate == InDayBoundsAsWritten(regDate, dateFrom, dateTo)
  {
    matchesDate := true;
    if dateFrom != "" && regDate != "" {
      matchesDate := matchesDate && LexLe(dateFrom, regDate);
    }
    if dateTo != "" && regDate != "" {
      matchesDate := matchesDate && LexLe(regDate, dateTo);
    }
  }

  /** Whether a row survives the browser-side filter, with the date check as written. */
  predicate ListKeeps(o: ListOpinion, searchTerm: string, categoryFilter: string, dateFrom: string, dateTo: string)
  {
    MatchesSearch(o, searchTerm) && (categoryFilter == "all" || o.categoryName == categoryFilter)
    && InDayBoundsAsWritten(o.regDate, dateFrom, dateTo)
  }

  /** `filteredOpinions`: a failed or pending query shows nothing. */
  function FilteredOpinions(opinions: Option<seq<ListOpinion>>, searchTerm: string, categoryFilter: string, dateFrom: string, dateTo: string)
    : (r: seq<ListOpinion>)
    ensures opinions.None? ==> r == []
    ensures opinions.Some? ==> forall o :: o in r <==> o in opinions.value && ListKeeps(o, searchTerm, categoryFilter, dateFrom, dateTo)
    ensures opinions.Some? ==> forall o :: multiset(r)[o] ==
                                          (if ListKeeps(o, searchTerm, categoryFilter, dateFrom, dateTo) then multiset(opinions.value)[o] else 0)
  {
    match opinions
    case None => []
    case Some(os) =>
      FilterMultiset(os, o => ListKeeps(o, searchTerm, categoryFilter, dateFrom, dateTo));
      Filter(os, o => ListKeeps(o, searchTerm, categoryFilter, dateFrom, dateTo))
  }

  /** The filter only removes opinions: whatever order the loaded list was in (id, descending), the shown list
    * keeps it. */
  lemma FilteredOpinionsKeepOrder(opinions: seq<ListOpinion>, searchTerm: string, categoryFilter: string,
                                  dateFrom: string, dateTo: string, before: (ListOpinion, ListOpinion) -> bool)
    requires Chain(opinions, before)
    ensures Chain(FilteredOpinions(Some(opinions), searchTerm, categoryFilter, dateFrom, dateTo), before)
  {
    FilterKeepsOrder(opinions, o => ListKeeps(o, searchTerm, categoryFilter, dateFrom, dateTo), before);
  }

  /** Without search text, category or day bounds, the list shows every loaded opinion, in the loaded order. */
  lemma NoFilterShowsAll(opinions: seq<ListOpinion>)
    ensures FilteredOpinions(Some(opinions), "", "all", "", "") == opinions
  {
    FilterAll(opinions, o => ListKeeps(o, "", "all", "", ""));
  }

  /** The search finds a term in any capitalisation inside the proposal. */
  lemma {:induction false} SearchIgnoresCase(o: ListOpinion, searchTerm: string, before: string, found: string, after: string)
    requires o.tobe == before + found + after && Lower(found) == Lower(searchTerm)
    ensures MatchesSearch(o, searchTerm)
  {
    LowerConcat(before + found, after);
    LowerConcat(before, found);
    ContainsInfix(Lower(before), Lower(found), Lower(after));
  }

  // ---------------------------------------------------------------- badges

  /** The statuses the list knows a colour for. */
  const ListStatuses: seq<string> := ["접수", "검토중", "처리중", "처리완료", "보류", "반려"]

  /** `getStatusColor`: a colour per known status; every other status is gray like 보류. */
  function StatusColor(status: string): (t: Tone)
    ensures status !in ListStatuses ==> t == Gray
    ensures t == Gray <==> status == "보류" || status !in ListStatuses
  {
    match status
    case "접수" => Blue
    case "검토중" => Yellow
    case "처리중" => Orange
    case "처리완료" => Green
    case "보류" => Gray
    case "반려" => Red
    case _ => Gray
  }

  /** The colours that are not gray tell their statuses apart. */
  lemma StatusColorsDistinct(s1: string, s2: string)
    requires StatusColor(s1) == StatusColor(s2) != Gray
    ensures s1 == s2
  {
  }

  /** `getStatusText`: the status itself, or '알 수 없음' for an empty one. */
  function StatusText(status: string): (r: string)
    ensures r != ""
    ensures status != "" ==> r == status
    ensures status == "" ==> r == "알 수 없음"
  {
    Or(status, "알 수 없음")
  }
}
