/**
 * The administrator's response dialog over one opinion of the admin table.
 * An administrator picks a processing status and writes an answer; the answer
 * is written to the store keyed by the opinion's `seq`, and the opinion on
 * screen takes the new values only once that write has succeeded.
 */
module OpinionDetailModal {

  import opened Wrappers
  import opened Strings
  import opened Store
  import opened Moderation
  import opened Tones
  import opened AdminPanel

  /** Whether the profile belongs to an administrator (`userProfile?.role === 'admin'`). */
  predicate IsAdminProfile(profile: Option<UserProfile>)
  {
    profile.Some? && profile.value.user.role == Some("admin")
  }

  /** The dialog's blinding flag: the shared threshold on the opinion's score, whatever its status. */
  predicate IsBlindedOpinion(o: AdminOpinion)
  {
    IsBlinded(o.negativeScore)
  }

  /** The statuses the dialog's selector offers. */
  const ResponseStatuses: seq<string> := ["접수", "처리중", "답변완료"]

  /** Why a response was refused, in the order the checks run. */
  datatype RespondError = NotAdmin | MissingStatus | EmptyResponse

  /** The checks of `handleSubmit`, in order: an administrator's profile, then a status, then a non-blank answer. */
  function ValidateResponse(profile: Option<UserProfile>, status: string, response: string): (r: Result<UserProfile, RespondError>)
    ensures r == Err(NotAdmin) <==> !IsAdminProfile(profile)
    ensures r == Err(MissingStatus) <==> IsAdminProfile(profile) && status == ""
    ensures r == Err(EmptyResponse) <==> IsAdminProfile(profile) && status != "" && IsBlank(response)
    ensures r.Ok? ==> profile == Some(r.value) && status != "" && !IsBlank(response)
  {
    TrimEmptyIff(response);
    if !IsAdminProfile(profile) then Err(NotAdmin)
    else if status == "" then Err(MissingStatus)
    else if Trim(response) == "" then Err(EmptyResponse)
    else Ok(profile.value)
  }

  /** The row update sent to the store, keyed by `seq`. */
  datatype ResponseUpdate = ResponseUpdate(seqKey: nat, status: string, procId: string, procName: Option<string>, procDesc: string, updatedAt: string)

  /** The update for a validated response: keyed by the opinion's `seq`, signed with the administrator's
    * employee id and name (NULL when the profile has none). */
  function UpdateFor(o: AdminOpinion, p: UserProfile, status: string, response: string, now: string): (u: ResponseUpdate)
    ensures u.seqKey == o.seqNo && u.status == status && u.procDesc == response && u.updatedAt == now
    ensures u.procId == p.user.employeeId && u.procName == p.user.name
  {
    ResponseUpdate(o.seqNo, status, p.user.employeeId, p.user.name, response, now)
  }

  /** What the screen's copy of the opinion becomes after a successful write: the four written fields change
    * and nothing else (the timestamp is written to the store only). */
  function ApplyResponse(o: AdminOpinion, u: ResponseUpdate): (r: AdminOpinion)
    ensures r.status == u.status && r.procDesc == u.procDesc && r.procId == Some(u.procId) && r.procName == u.procName
    ensures r.(status := o.status, procDesc := o.procDesc, procId := o.procId, procName := o.procName) == o
  {
    o.(status := u.status, procId := Some(u.procId), procName := u.procName, procDesc := u.procDesc)
  }

  /** Answering twice with the same update is answering once. */
  lemma ApplyResponseIdempotent(o: AdminOpinion, u: ResponseUpdate)
    ensures ApplyResponse(ApplyResponse(o, u), u) == ApplyResponse(o, u)
  {
  }

  /** Answering never changes whether an opinion is blinded, nor how it is exported. */
  lemma ResponseKeepsBlinding(o: AdminOpinion, u: ResponseUpdate)
    ensures IsBlindedOpinion(ApplyResponse(o, u)) == IsBlindedOpinion(o)
    ensures MayDownload(ApplyResponse(o, u)) == MayDownload(o)
  {
  }

  /** The dialog and the export apply the same threshold: an opinion is left out of the export exactly when
    * the dialog shows it blinded. */
  lemma ExportAndDialogAgree(o: AdminOpinion)
    ensures MayDownload(o) <==> !IsBlindedOpinion(o)
  {
  }

  /** A user who is not an administrator sees the result card when the opinion is answered (`답변완료`)
    * and has an answer. */
  predicate ShowsResultCard(isAdmin: bool, o: AdminOpinion)
  {
    !isAdmin && o.status == "답변완료" && o.procDesc != ""
  }

  /** A response with the final status makes the result card appear for users. */
  lemma AnsweredShowsResultCard(o: AdminOpinion, p: UserProfile, response: string, now: string)
    requires !IsBlank(response)
    ensures ShowsResultCard(false, ApplyResponse(o, UpdateFor(o, p, "답변완료", response, now)))
  {
  }

  /** The dialog's state. */
  class ResponseModal {
    var opinion: AdminOpinion
    var processingStatus: string
    var responseContent: string
    var isSubmitting: bool

    constructor(o: AdminOpinion)
      ensures opinion == o && processingStatus == "" && responseContent == "" && !isSubmitting
    {
      opinion := o;
      processingStatus := "";
      responseContent := "";
      isSubmitting := false;
    }

    /** Opening the dialog copies the opinion's status and answer into the form. */
    method Open()
      modifies this
      ensures opinion == old(opinion) && isSubmitting == old(isSubmitting)
      ensures processingStatus == opinion.status && responseContent == opinion.procDesc
    {
      processingStatus := opinion.status;
      responseContent := opinion.procDesc;
    }

    /** `handleSubmit`. `profile` is the signed-in user's profile, `now` the current time, `writeOk` whether
      * the store accepted the update. Returns the update sent, if the checks let one through. */
    method HandleSubmit(profile: Option<UserProfile>, now: string, writeOk: bool) returns (sent: Option<ResponseUpdate>)
      modifies this
      ensures processingStatus == old(processingStatus) && responseContent == old(responseContent)
      ensures ValidateResponse(profile, processingStatus, responseContent).Err? ==>
        sent == None && opinion == old(opinion) && isSubmitting == old(isSubmitting)
      ensures ValidateResponse(profile, processingStatus, responseContent).Ok? ==> !isSubmitting
      ensures ValidateResponse(profile, processingStatus, responseContent).Ok? ==>
        sent == Some(UpdateFor(old(opinion), ValidateResponse(profile, processingStatus, responseContent).value,
                               processingStatus, responseContent, now))
      ensures sent.Some? && writeOk ==> opinion == ApplyResponse(old(opinion), sent.value)
      ensures !writeOk ==> opinion == old(opinion)
    {
      sent := None;
      var checked := ValidateResponse(profile, processingStatus, responseContent);
      if checked.Err? {
        return;
      }
      isSubmitting := true;
      var u := UpdateFor(opinion, checked.value, processingStatus, responseContent, now);
      sent := Some(u);
      if writeOk {
        opinion := ApplyResponse(opinion, u);
      }
      isSubmitting := false;
    }
  }

  /** `getStatusColor` of the dialog: the three statuses it offers, every other one gray. */
  function StatusColor(status: string): (t: Tone)
    ensures t == Gray <==> status !in ResponseStatuses
  {
    match status
    case "접수" => Blue
    case "처리중" => Yellow
    case "답변완료" => Green
    case _ => Gray
  }

  /** The three statuses the dialog offers get three different colours. */
  lemma ResponseStatusColorsDistinct(s1: string, s2: string)
    requires s1 in ResponseStatuses && s2 in ResponseStatuses && s1 != s2
    ensures StatusColor(s1) != StatusColor(s2)
  {
  }

  /** A category-colour rule: the keywords that select it and its colour. */
  datatype CategoryRule = CategoryRule(keywords: seq<string>, tone: Tone)

  /** The rules of `getCategoryColor`, tried in this order; none of them is gray. */
  const CategoryRules: seq<CategoryRule> := [
    CategoryRule(["근무환경"], Orange),
    CategoryRule(["복리후생"], Amber),
    CategoryRule(["업무 프로세스", "업무프로세스"], Yellow),
    CategoryRule(["교육"], Red),
    CategoryRule(["소통"], Pink)]

  /** The category contains one of the keywords. */
  predicate ContainsAny(category: string, keywords: seq<string>)
  {
    keywords != [] && (Contains(category, keywords[0]) || ContainsAny(category, keywords[1..]))
  }

  /** The colour of the first rule that matches, or gray; the reference reading of an ordered rule list. */
  function FirstRuleTone(category: string, rules: seq<CategoryRule>): (t: Tone)
    ensures (forall i :: 0 <= i < |rules| ==> rules[i].tone != Gray) ==>
      (t == Gray <==> forall i :: 0 <= i < |rules| ==> !ContainsAny(category, rules[i].keywords))
    ensures t != Gray ==> exists i :: 0 <= i < |rules| && ContainsAny(category, rules[i].keywords) && rules[i].tone == t
  {
    if rules == [] then Gray
    else if ContainsAny(category, rules[0].keywords) then rules[0].tone
    else
      var t := FirstRuleTone(category, rules[1..]);
      assert forall i :: 1 <= i < |rules| ==> rules[i] == rules[1..][i - 1];
      t
  }

  /** `getCategoryColor`: a chain of `includes` tests. */
  function CategoryColor(category: string): (t: Tone)
    ensures t == FirstRuleTone(category, CategoryRules)
  {
    var rules := CategoryRules;
    assert rules[0].keywords[1..] == rules[1].keywords[1..] == rules[2].keywords[2..] == rules[3].keywords[1..] == rules[4].keywords[1..] == [];
    assert ContainsAny(category, rules[0].keywords) == Contains(category, "근무환경");
    assert ContainsAny(category, rules[1].keywords) == Contains(category, "복리후생");
    assert ContainsAny(category, rules[3].keywords) == Contains(category, "교육");
    assert ContainsAny(category, rules[4].keywords) == Contains(category, "소통");
    assert ContainsAny(category, rules[2].keywords[1..]) == Contains(category, "업무프로세스");
    assert FirstRuleTone(category, rules) == if Contains(category, "근무환경") then Orange else FirstRuleTone(category, rules[1..]);
    assert FirstRuleTone(category, rules[1..]) == if Contains(category, "복리후생") then Amber else FirstRuleTone(category, rules[2..]);
    assert ContainsAny(category, rules[2].keywords) == (Contains(category, "업무 프로세스") || Contains(category, "업무프로세스"));
    assert FirstRuleTone(category, rules[2..]) == if ContainsAny(category, rules[2].keywords) then Yellow else FirstRuleTone(category, rules[3..]);
    assert FirstRuleTone(category, rules[3..]) == if Contains(category, "교육") then Red else FirstRuleTone(category, rules[4..]);
    assert FirstRuleTone(category, rules[4..]) == if Contains(category, "소통") then Pink else FirstRuleTone(category, rules[5..]);
    if Contains(category, "근무환경") then Orange
    else if Contains(category, "복리후생") then Amber
    else if Contains(category, "업무 프로세스") || Contains(category, "업무프로세스") then Yellow
    else if Contains(category, "교육") then Red
    else if Contains(category, "소통") then Pink
    else Gray
  }

  /** A category is gray exactly when none of the keywords occurs in it. */
  lemma CategoryGrayIffNoKeyword(category: string)
    ensures CategoryColor(category) == Gray <==> forall i :: 0 <= i < |CategoryRules| ==> !ContainsAny(category, CategoryRules[i].keywords)
  {
  }
}
