/**
 * The student-profile form: its validation schema (with the comma-list transform of the
 * skills field), how a stored profile is loaded back into the form, and the request a
 * submission sends.
 */
module StudentProfileForm {
  import opened Wrappers
  import opened Text
  import opened Schema

  /** The form fields as the user leaves them; an empty number input is `None`. */
  datatype FormInput = FormInput(
    age: Option<int>, educationLevel: string, course: string, institutionName: string,
    financialNeed: Option<int>, skills: string, bio: string)

  /** What the schema yields: the skills field becomes a list. */
  datatype FormValues = FormValues(
    age: Option<int>, educationLevel: string, course: string, institutionName: string,
    financialNeed: int, skills: seq<string>, bio: string)

  /** `z.number().min(16).max(100).optional()`: both bounds inclusive. */
  predicate AgeAccepted(age: Option<int>) {
    age.None? || 16 <= age.value <= 100
  }

  /** `z.string().min(10).max(500)`. */
  predicate BioAccepted(bio: string) {
    10 <= |bio| <= 500
  }

  /** `studentProfileSchema.safeParse`: the values when every rule holds, else nothing. */
  function Validate(f: FormInput): (r: Option<FormValues>)
    ensures r.Some? <==>
      && AgeAccepted(f.age)
      && f.financialNeed.Some? && f.financialNeed.value >= 100
      && |f.educationLevel| >= 1 && |f.course| >= 1 && |f.institutionName| >= 1
      && BioAccepted(f.bio)
    ensures r.Some? ==>
      && r.value.skills == ParseCommaList(f.skills)
      && |r.value.skills| == Count(f.skills, ',') + 1
      && r.value.financialNeed >= 100
  {
    if AgeAccepted(f.age) && f.financialNeed.Some? && f.financialNeed.value >= 100 &&
       |f.educationLevel| >= 1 && |f.course| >= 1 && |f.institutionName| >= 1 && BioAccepted(f.bio)
    then Some(FormValues(f.age, f.educationLevel, f.course, f.institutionName, f.financialNeed.value,
                         ParseCommaList(f.skills), f.bio))
    else None
  }

  /** `form.reset(...)` from a stored profile: missing text becomes `""`, the skills are joined with ", ". */
  function Reset(p: StudentProfile): (r: FormInput)
    ensures r.age == p.data.age && r.financialNeed == p.data.financialNeed
    ensures p.data.educationLevel.Some? ==> r.educationLevel == p.data.educationLevel.value
    ensures p.data.course.Some? ==> r.course == p.data.course.value
    ensures p.data.institutionName.Some? ==> r.institutionName == p.data.institutionName.value
    ensures p.data.bio.Some? ==> r.bio == p.data.bio.value
    ensures p.data.educationLevel.None? ==> r.educationLevel == ""
    ensures p.data.course.None? ==> r.course == ""
    ensures p.data.institutionName.None? ==> r.institutionName == ""
    ensures p.data.bio.None? ==> r.bio == ""
    ensures p.data.skills.None? || p.data.skills == Some([]) ==> r.skills == ""
  {
    var d := p.data;
    FormInput(d.age, d.educationLevel.GetOr(""), d.course.GetOr(""), d.institutionName.GetOr(""),
              d.financialNeed, JoinCommaList(d.skills.GetOr([])), d.bio.GetOr(""))
  }

  /** A skill the comma-list field can carry unchanged. */
  predicate CleanEntry(s: string) {
    IsTrimmed(s) && ',' !in s
  }

  /**
   * Loading a profile into the form and submitting it unchanged gives back its skills when
   * they are a non-empty list of clean entries; no list, or an empty one, comes back as `[""]`.
   */
  lemma SkillsRoundTrip(p: StudentProfile)
    ensures var skills := p.data.skills;
      skills.Some? && |skills.value| > 0 && (forall k :: 0 <= k < |skills.value| ==> CleanEntry(skills.value[k])) ==>
        ParseCommaList(Reset(p).skills) == skills.value
    ensures p.data.skills.None? || p.data.skills == Some([]) ==> ParseCommaList(Reset(p).skills) == [""]
  {
    var skills := p.data.skills;
    if skills.Some? && |skills.value| > 0 && (forall k :: 0 <= k < |skills.value| ==> CleanEntry(skills.value[k])) {
      CommaListRoundTrip(skills.value);
    }
    if skills.None? || skills == Some([]) {
      EmptyListRoundTrip();
    }
  }

  /** The stored profile already satisfies every rule of the form. */
  predicate StoredFieldsAccepted(p: StudentProfile) {
    var d := p.data;
    && AgeAccepted(d.age)
    && d.financialNeed.Some? && d.financialNeed.value >= 100
    && d.educationLevel.Some? && |d.educationLevel.value| >= 1
    && d.course.Some? && |d.course.value| >= 1
    && d.institutionName.Some? && |d.institutionName.value| >= 1
    && d.bio.Some? && BioAccepted(d.bio.value)
  }

  /** A profile that satisfies the rules reloads into a form that validates to the same fields. */
  lemma ResetRevalidates(p: StudentProfile)
    requires StoredFieldsAccepted(p)
    ensures Validate(Reset(p)).Some?
    ensures var v := Validate(Reset(p)).value;
      && v.age == p.data.age && v.financialNeed == p.data.financialNeed.value
      && Some(v.educationLevel) == p.data.educationLevel && Some(v.course) == p.data.course
      && Some(v.institutionName) == p.data.institutionName && Some(v.bio) == p.data.bio
  {
  }

  // ------------------------------------------------------------------ submission

  /** The request a submission sends: its HTTP method, URL and JSON body. */
  datatype Request = Post(endpoint: string, body: StudentProfileBody) | Put(endpoint: string, body: StudentProfileBody)

  /** The validated values as a JSON body; an `undefined` age is dropped from it. */
  function ValuesBody(v: FormValues): StudentProfileBody {
    StudentProfileBody(None, None, v.age, Some(v.educationLevel), Some(v.course), Some(v.institutionName),
                       Some(v.financialNeed), Some(v.skills), Some(v.bio), None)
  }

  const CreateEndpoint := "/api/students/profile"

  /** POST to create when there is no profile yet (adding `userId`), else PUT the values to the user's URL. */
  function Submit(existing: Option<StudentProfile>, userId: nat, v: FormValues): (r: Request)
    ensures existing.None? ==> r.Post? && r.endpoint == CreateEndpoint
    ensures existing.Some? ==>
      && r.Put?
      && |r.endpoint| > |CreateEndpoint| + 1
      && r.endpoint[..|CreateEndpoint| + 1] == CreateEndpoint + "/"
      && (forall k :: |CreateEndpoint| + 1 <= k < |r.endpoint| ==> '0' <= r.endpoint[k] <= '9')
      && DecimalValue(r.endpoint[|CreateEndpoint| + 1..]) == userId
  {
    if existing.Some? then
      var endpoint := CreateEndpoint + "/" + DecimalString(userId);
      assert endpoint[|CreateEndpoint| + 1..] == DecimalString(userId);
      DecimalRoundTrip(userId);
      Put(endpoint, ValuesBody(v))
    else Post(CreateEndpoint, ValuesBody(v).(userId := Some(userId)))
  }

  /** How the PUT handler passes a body on as a partial update: each key present in it. */
  function BodyAsPatch(b: StudentProfileBody): StudentProfilePatch {
    StudentProfilePatch(
      if b.userId.Some? then Present(b.userId.value) else Absent,
      if b.age.Some? then Present(b.age) else Absent,
      if b.educationLevel.Some? then Present(b.educationLevel) else Absent,
      if b.course.Some? then Present(b.course) else Absent,
      if b.institutionName.Some? then Present(b.institutionName) else Absent,
      if b.financialNeed.Some? then Present(b.financialNeed) else Absent,
      if b.skills.Some? then Present(b.skills) else Absent,
      if b.bio.Some? then Present(b.bio) else Absent,
      if b.documents.Some? then Present(b.documents) else Absent)
  }

  /** A first submission is a body the server's insert schema accepts, owned by the user, with the form's values. */
  lemma CreateRequestIsAccepted(userId: nat, v: FormValues)
    ensures ParseInsertStudentProfile(Submit(None, userId, v).body) ==
      Some(InsertStudentProfile(userId, v.age, Some(v.educationLevel), Some(v.course), Some(v.institutionName),
                                Some(v.financialNeed), Some(v.skills), Some(v.bio), None))
  {
  }

  /**
   * A later submission overwrites every form field of the stored profile and keeps its
   * id, owner and documents; a cleared age is not sent, so the stored age stays.
   */
  lemma UpdateRequestMerges(p: StudentProfile, userId: nat, v: FormValues)
    ensures var r := MergeStudentProfile(p, BodyAsPatch(Submit(Some(p), userId, v).body));
      && r.id == p.id && r.data.userId == p.data.userId && r.data.documents == p.data.documents
      && r.data.age == (if v.age.Some? then v.age else p.data.age)
      && r.data.educationLevel == Some(v.educationLevel) && r.data.course == Some(v.course)
      && r.data.institutionName == Some(v.institutionName) && r.data.financialNeed == Some(v.financialNeed)
      && r.data.skills == Some(v.skills) && r.data.bio == Some(v.bio)
  {
  }
}
