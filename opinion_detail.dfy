/**
 * The page that shows one opinion in full: the opinion row joined with its
 * category, affiliate, submitter and (when it has been answered) responder,
 * with display defaults for whatever is missing, and the administrator's save
 * of a status and an answer.
 */
module OpinionDetail {

  import opened Wrappers
  import opened Strings
  import opened Store
  import opened Seqs
  import opened Tones

  /** The page's copy of the opinion (`Opinion`). */
  datatype DetailOpinion = DetailOpinion(
    id: string,
    seqNo: nat,
    title: string,
    content: string,
    asis: Option<string>,
    tobe: Option<string>,
    effect: Option<string>,
    caseStudy: Option<string>,
    category: string,
    affiliate: string,
    department: string,
    employeeId: string,
    name: string,
    status: string,
    submittedAt: string,
    updatedAt: Option<string>,
    procDesc: Option<string>,
    procUserId: Option<string>,
    procDate: Option<string>,
    responderDepartment: Option<string>,
    responderName: Option<string>,
    negativeScore: Option<nat>)

  /** The submitter lookup: `.eq('employee_id', user_id || '').single()`. */
  function SubmitterLookup(row: OpinionRow, users: seq<UserRow>): (r: Option<UserRow>)
    ensures r.Some? ==> r.value in users && r.value.employeeId == OrElse(row.userId, "")
    ensures r.Some? <==> |Filter(users, (u: UserRow) => u.employeeId == OrElse(row.userId, ""))| == 1
    ensures forall i ::
      (0 <= i < |users| && users[i].employeeId == OrElse(row.userId, "")
       && forall j :: 0 <= j < |users| && j != i ==> users[j].employeeId != OrElse(row.userId, "")) ==>
      r == Some(users[i])
  {
    SingleUser(users, OrElse(row.userId, ""))
  }

  /** The responder lookup, made only when the opinion has a processor id; a failed lookup leaves no responder. */
  function ResponderLookup(row: OpinionRow, users: seq<UserRow>): (r: Option<UserRow>)
    ensures OrElse(row.procId, "") == "" ==> r == None
    ensures r.Some? ==> row.procId == Some(r.value.employeeId) && r.value in users
    ensures OrElse(row.procId, "") != "" ==>
              (r.Some? <==> |Filter(users, (u: UserRow) => u.employeeId == row.procId.value)| == 1)
    ensures forall i ::
      (0 <= i < |users| && OrElse(row.procId, "") != "" && row.procId == Some(users[i].employeeId)
       && forall j :: 0 <= j < |users| && j != i ==> users[j].employeeId != users[i].employeeId) ==>
      r == Some(users[i])
  {
    match row.procId
    case None => None
    case Some(k) => if k == "" then None else SingleUser(users, k)
  }

  /** `formattedOpinion`: the row with its joins and the page's defaults. */
  function FormatOpinion(row: OpinionRow, categories: seq<Named>, companies: seq<Named>,
                         submitter: Option<UserRow>, responder: Option<UserRow>): (o: DetailOpinion)
    ensures o.category == NameOf(categories, row.categoryId, "미분류")
    ensures o.affiliate == NameOf(companies, row.companyId, "미지정")
    ensures o.department != "" && o.name != "" && o.status != ""
    ensures o.status == OrElse(row.status, "접수") && o.employeeId == OrElse(row.userId, "")
    ensures o.title == OrElse(row.title, "") && o.content == OrElse(row.content, "")
    ensures submitter.None? ==> o.department == "미지정" && o.name == "익명"
    ensures submitter.Some? ==> o.department == OrElse(submitter.value.dept, "미지정") && o.name == OrElse(submitter.value.name, "익명")
    ensures OrElse(row.regDate, "") != "" ==> o.submittedAt == row.regDate.value
    ensures OrElse(row.regDate, "") == "" ==> o.submittedAt == OrElse(row.createdAt, "")
    ensures o.id == NatToString(row.id) && o.seqNo == row.seqNo
    ensures o.asis == Present(row.asis) && o.tobe == Present(row.tobe)
    ensures o.effect == Present(row.effect) && o.caseStudy == Present(row.caseStudy)
    ensures o.updatedAt == Present(row.updatedAt) && o.procDate == o.updatedAt
    ensures o.negativeScore.None? <==> row.negativeScore == 0
    ensures o.negativeScore.Some? ==> o.negativeScore.value == row.negativeScore
    ensures responder.None? ==> o.responderName.None? && o.responderDepartment.None?
    ensures responder.Some? ==> o.responderName == Present(responder.value.name) && o.responderDepartment == Present(responder.value.dept)
    ensures o.procDesc == Present(row.procDesc) && o.procUserId == Present(row.procId)
  {
    var submitterDept := match submitter case None => None case Some(u) => u.dept;
    var submitterName := match submitter case None => None case Some(u) => u.name;
    DetailOpinion(
      id := NatToString(row.id),
      seqNo := row.seqNo,
      title := OrElse(row.title, ""),
      content := OrElse(row.content, ""),
      asis := Present(row.asis),
      tobe := Present(row.tobe),
      effect := Present(row.effect),
      caseStudy := Present(row.caseStudy),
      category := NameOf(categories, row.categoryId, "미분류"),
      affiliate := NameOf(companies, row.companyId, "미지정"),
      department := OrElse(submitterDept, "미지정"),
      employeeId := OrElse(row.userId, ""),
      name := OrElse(submitterName, "익명"),
      status := OrElse(row.status, "접수"),
      submittedAt := OrElse(row.regDate, OrElse(row.createdAt, "")),
      updatedAt := Present(row.updatedAt),
      procDesc := Present(row.procDesc),
      procUserId := Present(row.procId),
      procDate := Present(row.updatedAt),
      responderDepartment := match responder case None => None case Some(u) => Present(u.dept),
      responderName := match responder case None => None case Some(u) => Present(u.name),
      negativeScore := if row.negativeScore != 0 then Some(row.negativeScore) else None)
  }

  /** The row update the page's save sends, keyed by the opinion's id. */
  datatype DetailUpdate = DetailUpdate(idKey: string, status: string, procDesc: string, procDate: string, updatedAt: string, procId: string)

  /** The fixed processor id the page writes. */
  const SaveProcId := "admin001"

  /** The page's state. */
  class DetailPage {
    var opinion: Option<DetailOpinion>
    var adminNotes: string
    var processingStatus: string
    var isLoading: bool
    var isDataLoading: bool

    constructor()
      ensures opinion == None && adminNotes == "" && processingStatus == "" && !isLoading && isDataLoading
    {
      opinion := None;
      adminNotes := "";
      processingStatus := "";
      isLoading := false;
      isDataLoading := true;
    }

    /** The shown processing date is the shown update time. */
    predicate DatesAgree()
      reads this
    {
      opinion.Some? ==> opinion.value.procDate == opinion.value.updatedAt
    }

    /** `fetchOpinionDetail`. `fetched` is the opinion row, or None when the query failed or found nothing;
      * the lists stand for the joined tables. On success the form takes the opinion's answer and status. */
    method FetchOpinionDetail(fetched: Option<OpinionRow>, categories: seq<Named>, companies: seq<Named>, users: seq<UserRow>)
      modifies this
      ensures !isDataLoading && isLoading == old(isLoading)
      ensures fetched.None? ==> opinion == old(opinion) && adminNotes == old(adminNotes) && processingStatus == old(processingStatus)
      ensures fetched.Some? ==>
        var o := FormatOpinion(fetched.value, categories, companies, SubmitterLookup(fetched.value, users), ResponderLookup(fetched.value, users));
        opinion == Some(o) && adminNotes == OrElse(o.procDesc, "") && processingStatus == o.status
      ensures fetched.Some? ==> DatesAgree()
    {
      isDataLoading := true;
      if fetched.Some? {
        var row := fetched.value;
        var o := FormatOpinion(row, categories, companies, SubmitterLookup(row, users), ResponderLookup(row, users));
        opinion := Some(o);
        adminNotes := OrElse(o.procDesc, "");
        processingStatus := o.status;
      }
      isDataLoading := false;
    }

    /** `handleSaveAdminNotes`. `now` is the current time, used for both timestamps; `writeOk` says whether the
      * store accepted the update. Returns the update sent (none when no opinion is loaded). */
    method HandleSaveAdminNotes(now: string, writeOk: bool) returns (sent: Option<DetailUpdate>)
      modifies this
      ensures adminNotes == old(adminNotes) && processingStatus == old(processingStatus) && isDataLoading == old(isDataLoading)
      ensures old(opinion).None? ==> sent == None && opinion == None && isLoading == old(isLoading)
      ensures old(opinion).Some? ==> !isLoading
      ensures old(opinion).Some? ==> sent == Some(DetailUpdate(old(opinion).value.id, processingStatus, adminNotes, now, now, SaveProcId))
      ensures old(opinion).Some? && writeOk ==> opinion == Some(old(opinion).value.(
        procDesc := Some(adminNotes), status := processingStatus, procDate := Some(now), updatedAt := Some(now)))
      ensures !writeOk ==> opinion == old(opinion)
      ensures old(opinion).Some? && writeOk ==> opinion.Some? && opinion.value.procDate == Some(now) && opinion.value.updatedAt == Some(now)
      ensures old(DatesAgree()) ==> DatesAgree()
    {
      sent := None;
      if opinion.None? {
        return;
      }
      isLoading := true;
      var current := opinion.value;
      sent := Some(DetailUpdate(current.id, processingStatus, adminNotes, now, now, SaveProcId));
      if writeOk {
        opinion := Some(current.(procDesc := Some(adminNotes), status := processingStatus, procDate := Some(now), updatedAt := Some(now)));
      }
      isLoading := false;
    }
  }

  /** `getStatusColor` of the page. */
  function StatusColor(status: string): (t: Tone)
    ensures status !in ["접수", "검토중", "처리중", "답변완료", "반려"] ==> t == Gray
  {
    match status
    case "접수" => Blue
    case "검토중" => Yellow
    case "처리중" => Yellow
    case "답변완료" => Green
    case "보류" => Gray
    case "반려" => Red
    case _ => Gray
  }

  /** Under review (검토중) and in progress (처리중) share a colour; answered (답변완료) is set apart from both. */
  lemma ReviewAndProgressShareColor()
    ensures StatusColor("검토중") == StatusColor("처리중") != StatusColor("답변완료")
  {
  }
}
