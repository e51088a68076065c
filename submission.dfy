/**
 * The employee's submission form: it is prefilled from the stored user
 * info, takes the current quarter, checks that the eight required fields
 * are filled and that the chosen category and affiliate are known, inserts
 * one opinion with status 접수, and on success clears the opinion's own
 * fields while keeping the submitter's.
 */
module OpinionSubmissionForm {

  import opened Wrappers
  import opened Seqs
  import opened Dates
  import opened Store
  import opened Moderation
  import opened Browser
  import AdminPanel
  import OpinionList

  /** The form's fields (`formData`). Category and affiliate hold the chosen names. */
  datatype FormData = FormData(
    category: string,
    affiliate: string,
    department: string,
    employeeId: string,
    name: string,
    title: string,
    currentSituation: string,
    suggestion: string,
    quarter: string)

  /** The empty form; the quarter starts as Q1 until the current one is set. */
  const EmptyForm := FormData("", "", "", "", "", "", "", "", "Q1")

  /** The eight fields that must not be empty, in the order the form checks them. */
  function RequiredFields(f: FormData): (fields: seq<string>)
    ensures |fields| == 8 && f.title in fields && f.employeeId in fields
  {
    [f.category, f.affiliate, f.department, f.employeeId, f.name, f.title, f.currentSituation, f.suggestion]
  }

  /** Every required field is filled. */
  predicate Filled(f: FormData)
  {
    forall i :: 0 <= i < |RequiredFields(f)| ==> RequiredFields(f)[i] != ""
  }

  /** Why a submission did not go through. */
  datatype SubmitError = MissingField | UnknownChoice

  /** The checks of `handleSubmit` before the insert: the required fields, then the category and affiliate
    * names, each resolved to the id of the first loaded entry with that name. */
  function ValidateSubmission(f: FormData, categories: seq<Choice>, companies: seq<Choice>): (r: Result<(int, int), SubmitError>)
    ensures r == Err(MissingField) <==> !Filled(f)
    ensures r == Err(UnknownChoice) <==>
      Filled(f) && ((forall c :: c in categories ==> c.name != f.category) || (forall c :: c in companies ==> c.name != f.affiliate))
    ensures r.Ok? ==> Choice(r.value.0, f.category) in categories && Choice(r.value.1, f.affiliate) in companies
    ensures forall i :: 0 <= i < |categories| && categories[i].name == f.category && (forall j :: 0 <= j < i ==> categories[j].name != f.category) ==>
      r.Ok? ==> r.value.0 == categories[i].id
    ensures forall i :: 0 <= i < |companies| && companies[i].name == f.affiliate && (forall j :: 0 <= j < i ==> companies[j].name != f.affiliate) ==>
      r.Ok? ==> r.value.1 == companies[i].id
  {
    if !Filled(f) then Err(MissingField)
    else
      match (Find(categories, (c: Choice) => c.name == f.category), Find(companies, (c: Choice) => c.name == f.affiliate))
      case (Some(cat), Some(comp)) => Ok((cat.id, comp.id))
      case _ => Err(UnknownChoice)
  }

  /** The row the form inserts into `opinion`. */
  datatype NewOpinion = NewOpinion(
    categoryId: int,
    companyId: int,
    quarter: string,
    content: string,
    title: string,
    asis: string,
    tobe: string,
    userId: string,
    status: string,
    regDate: string)

  /** The inserted record: the title doubles as the content, the status is 접수 and `reg_date` is the time of submission. */
  function NewRecord(f: FormData, categoryId: int, companyId: int, now: string): (r: NewOpinion)
    ensures r.status == "접수" && r.regDate == now
    ensures r.title == f.title && r.content == f.title
    ensures r.asis == f.currentSituation && r.tobe == f.suggestion
    ensures r.userId == f.employeeId && r.quarter == f.quarter
    ensures r.categoryId == categoryId && r.companyId == companyId
  {
    NewOpinion(
      categoryId := categoryId,
      companyId := companyId,
      quarter := f.quarter,
      content := f.title,
      title := f.title,
      asis := f.currentSituation,
      tobe := f.suggestion,
      userId := f.employeeId,
      status := "접수",
      regDate := now)
  }

  /** The form after a successful submission: the opinion's fields are cleared, the submitter's and the quarter kept. */
  function Reset(f: FormData): (g: FormData)
    ensures g.affiliate == f.affiliate && g.department == f.department && g.employeeId == f.employeeId
    ensures g.name == f.name && g.quarter == f.quarter
    ensures g.category == "" && g.title == "" && g.currentSituation == "" && g.suggestion == ""
  {
    FormData("", f.affiliate, f.department, f.employeeId, f.name, "", "", "", f.quarter)
  }

  /** The prefill from the stored user info: company, dept, id and name, each '' when missing or empty. */
  function Prefill(f: FormData, info: StoredUserInfo): (g: FormData)
    ensures g.affiliate == OrElse(info.company, "") && g.department == OrElse(info.dept, "")
    ensures g.employeeId == OrElse(info.id, "") && g.name == OrElse(info.name, "")
    ensures g.category == f.category && g.title == f.title && g.currentSituation == f.currentSituation
    ensures g.suggestion == f.suggestion && g.quarter == f.quarter
  {
    f.(affiliate := OrElse(info.company, ""), department := OrElse(info.dept, ""),
       employeeId := OrElse(info.id, ""), name := OrElse(info.name, ""))
  }

  /** A reset form cannot be sent again as it is: the same opinion is not inserted twice by a second click. */
  lemma ResetFormIsRejected(f: FormData, categories: seq<Choice>, companies: seq<Choice>)
    ensures ValidateSubmission(Reset(f), categories, companies) == Err(MissingField)
  {
    assert RequiredFields(Reset(f))[0] == "";
  }

  /** Resetting twice is resetting once, and resetting keeps what the prefill wrote. */
  lemma ResetIdempotent(f: FormData, info: StoredUserInfo)
    ensures Reset(Reset(f)) == Reset(f)
    ensures Reset(Prefill(f, info)) == Prefill(Reset(f), info)
  {
  }

  /** Once the four prefilled fields are filled and the user fills in the other four, the form can be sent
    * as soon as the chosen names are among the loaded ones. */
  lemma PrefilledFormAccepted(info: StoredUserInfo, category: string, title: string, situation: string, suggestion: string,
                              quarter: string, categories: seq<Choice>, companies: seq<Choice>)
    requires info.company.Some? && info.dept.Some? && info.id.Some? && info.name.Some?
    requires info.company.value != "" && info.dept.value != "" && info.id.value != "" && info.name.value != ""
    requires category != "" && title != "" && situation != "" && suggestion != ""
    requires exists c :: c in categories && c.name == category
    requires exists c :: c in companies && c.name == info.company.value
    ensures ValidateSubmission(Prefill(FormData(category, "", "", "", "", title, situation, suggestion, quarter), info),
                               categories, companies).Ok?
  {
    var g := Prefill(FormData(category, "", "", "", "", title, situation, suggestion, quarter), info);
    assert RequiredFields(g) == [category, info.company.value, info.dept.value, info.id.value, info.name.value, title, situation, suggestion];
  }

  /** The row as the store keeps it once inserted: the store assigns id, seq and created_at, and no column the
    * form does not write is set (the negativity score starts at 0). */
  function StoredRow(rec: NewOpinion, id: nat, seqNo: nat, createdAt: string): OpinionRow
  {
    OpinionRow(
      id := id, seqNo := seqNo,
      title := Some(rec.title), content := Some(rec.content), asis := Some(rec.asis), tobe := Some(rec.tobe),
      effect := None, caseStudy := None,
      userId := Some(rec.userId), status := Some(rec.status), quarter := Some(rec.quarter),
      regDate := Some(rec.regDate), createdAt := Some(createdAt), updatedAt := None,
      categoryId := Some(rec.categoryId), companyId := Some(rec.companyId),
      negativeScore := 0, procId := None, procName := None, procDesc := None)
  }

  /** A submitted opinion shows up in the opinion list as it was sent: under the chosen category, with its title,
    * status 접수, the title as its content; when category ids are unique the list shows the chosen name. */
  lemma SubmittedOpinionListed(f: FormData, cats: seq<Choice>, comps: seq<Choice>, now: string,
                               id: nat, seqNo: nat, createdAt: string, categories: seq<Named>, companies: seq<Named>)
    requires ValidateSubmission(f, cats, comps).Ok?
    requires Named(ValidateSubmission(f, cats, comps).value.0, Some(f.category)) in categories
    requires forall c :: c in categories && c.id == ValidateSubmission(f, cats, comps).value.0 ==> c.name == Some(f.category)
    ensures var rec := NewRecord(f, ValidateSubmission(f, cats, comps).value.0, ValidateSubmission(f, cats, comps).value.1, now);
      var o := OpinionList.ListEnrich(StoredRow(rec, id, seqNo, createdAt), categories, companies);
      o.title == f.title && o.content == f.title && o.status == "접수" && o.asis == f.currentSituation && o.tobe == f.suggestion
      && o.categoryName == f.category && o.quarter == Some(f.quarter)
  {
    var ids := ValidateSubmission(f, cats, comps).value;
    assert RequiredFields(f)[0] == f.category;
    var rec := NewRecord(f, ids.0, ids.1, now);
    var row := StoredRow(rec, id, seqNo, createdAt);
    var o := OpinionList.ListEnrich(row, categories, companies);
    assert o.categoryName == NameOf(categories, Some(ids.0), "기타");
    assert o.categoryName == f.category;
  }

  /** A fresh opinion is never blinded: it is downloadable by the administrator's export. */
  lemma SubmittedOpinionDownloadable(f: FormData, ids: (int, int), now: string, id: nat, seqNo: nat, createdAt: string,
                                     lk: AdminPanel.Lookups, toIso: string -> Option<string>)
    ensures AdminPanel.MayDownload(AdminPanel.Enrich(StoredRow(NewRecord(f, ids.0, ids.1, now), id, seqNo, createdAt), lk, toIso))
    ensures !IsBlinded(StoredRow(NewRecord(f, ids.0, ids.1, now), id, seqNo, createdAt).negativeScore)
  {
  }

  /** The form component's state. */
  class SubmissionForm {
    var form: FormData
    var isSubmitting: bool
    var categories: seq<Choice>
    var companies: seq<Choice>

    constructor()
      ensures form == EmptyForm && !isSubmitting && categories == [] && companies == []
    {
      form := EmptyForm;
      isSubmitting := false;
      categories := [];
      companies := [];
    }

    /** `fetchMasterData`: each list is replaced by the active rows loaded, `data || []`; a failed load
      * (None) keeps the list it had. */
    method LoadMasterData(categoryData: Result<Option<seq<Choice>>, string>, companyData: Result<Option<seq<Choice>>, string>)
      modifies this
      ensures form == old(form) && isSubmitting == old(isSubmitting)
      ensures categories == (if categoryData.Err? then old(categories) else if categoryData.value.None? then [] else categoryData.value.value)
      ensures companies == (if companyData.Err? then old(companies) else if companyData.value.None? then [] else companyData.value.value)
    {
      if categoryData.Ok? {
        categories := if categoryData.value.None? then [] else categoryData.value.value;
      }
      if companyData.Ok? {
        companies := if companyData.value.None? then [] else companyData.value.value;
      }
    }

    /** The prefill effect: stored user info that is present and parses (Some) fills the submitter's fields. */
    method LoadUserInfo(stored: Option<StoredUserInfo>)
      modifies this
      ensures isSubmitting == old(isSubmitting) && categories == old(categories) && companies == old(companies)
      ensures form == (if stored.Some? then Prefill(old(form), stored.value) else old(form))
    {
      if stored.Some? {
        form := Prefill(form, stored.value);
      }
    }

    /** The current-quarter effect; `month` is the current month, 1 to 12. */
    method SetCurrentQuarter(month: int)
      modifies this
      ensures form == old(form).(quarter := QuarterOfMonth(month))
      ensures isSubmitting == old(isSubmitting) && categories == old(categories) && companies == old(companies)
    {
      var currentQuarter := "Q1";
      if 1 <= month <= 3 {
        currentQuarter := "Q1";
      } else if 4 <= month <= 6 {
        currentQuarter := "Q2";
      } else if 7 <= month <= 9 {
        currentQuarter := "Q3";
      } else {
        currentQuarter := "Q4";
      }
      form := form.(quarter := currentQuarter);
    }

    /** `handleSubmit`. `now` is the time of submission and `insertOk` whether the store accepted the row.
      * Returns the row sent to the store, if the checks let one through. */
    method HandleSubmit(now: string, insertOk: bool) returns (sent: Option<NewOpinion>)
      modifies this
      ensures categories == old(categories) && companies == old(companies)
      ensures !Filled(old(form)) ==> sent == None && form == old(form) && isSubmitting == old(isSubmitting)
      ensures ValidateSubmission(old(form), categories, companies) == Err(UnknownChoice) ==>
        sent == None && form == old(form) && !isSubmitting
      ensures ValidateSubmission(old(form), categories, companies).Ok? ==> !isSubmitting
      ensures ValidateSubmission(old(form), categories, companies).Ok? ==>
        sent == Some(NewRecord(old(form), ValidateSubmission(old(form), categories, companies).value.0,
                               ValidateSubmission(old(form), categories, companies).value.1, now))
      ensures sent.Some? && insertOk ==> form == Reset(old(form))
      ensures !insertOk ==> form == old(form)
    {
      sent := None;
      var checked := ValidateSubmission(form, categories, companies);
      if checked == Err(MissingField) {
        return;
      }
      isSubmitting := true;
      if checked.Ok? {
        var rec := NewRecord(form, checked.value.0, checked.value.1, now);
        sent := Some(rec);
        if insertOk {
          form := Reset(form);
        }
      }
      isSubmitting := false;
    }
  }
}
