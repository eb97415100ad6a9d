/**
 * The entity shapes of the shared schema: what a stored record holds, which fields an
 * insert may carry (the server adds the rest), how a raw request body is read into an
 * insert shape, and how a partial update is shallow-merged into a record.
 *
 * A stored record is written `{ ...insert, id, forced fields }`, so every record type
 * below is its insert shape plus the fields the store sets itself. Columns declared
 * `notNull` are plain values; nullable columns are `Option`s.
 */
module Schema {
  import opened Wrappers

  /** Stand-in for `new Date()`: an abstract clock value supplied by the caller. */
  type Timestamp = nat

  /** The value of a `jsonb` column, kept opaque as its serialised text. */
  type Json = string

  // ------------------------------------------------------------------ users

  /** The user insert shape: every column but `id` and `profileCompleted`. */
  datatype InsertUser = InsertUser(
    username: string, password: string, email: string, role: string, displayName: string)

  /** A stored user. */
  datatype User = User(id: int, data: InsertUser, profileCompleted: bool)

  /** `profileCompleted` is declared with default false. */
  const ProfileCompletedDefault := false

  // ------------------------------------------------------------------ profiles

  /** The student-profile insert shape: every column but `id`. */
  datatype InsertStudentProfile = InsertStudentProfile(
    userId: int, age: Option<int>, educationLevel: Option<string>, course: Option<string>,
    institutionName: Option<string>, financialNeed: Option<int>, skills: Option<seq<string>>,
    bio: Option<string>, documents: Option<Json>)

  datatype StudentProfile = StudentProfile(id: int, data: InsertStudentProfile)

  /** The sponsor-profile insert shape: every column but `id` (`type` is `sponsorType` here). */
  datatype InsertSponsorProfile = InsertSponsorProfile(
    userId: int, sponsorType: Option<string>, organization: Option<string>,
    website: Option<string>, focusAreas: Option<seq<string>>, bio: Option<string>)

  datatype SponsorProfile = SponsorProfile(id: int, data: InsertSponsorProfile)

  // ------------------------------------------------------------------ applications, sponsorships, jobs

  /** The funding-application insert shape: no `id`, `status` or `createdAt`. */
  datatype InsertFundingApplication = InsertFundingApplication(
    studentId: int, amount: int, purpose: string, documents: Option<Json>)

  datatype FundingApplication = FundingApplication(
    id: int, data: InsertFundingApplication, status: string, createdAt: Timestamp)

  /** Declared default of an application's `status`. */
  const ApplicationStatusDefault := "pending"

  /** The sponsorship insert shape: no `id`, `status`, `paymentId` or `createdAt`; `applicationId` is nullable. */
  datatype InsertSponsorship = InsertSponsorship(
    sponsorId: int, studentId: int, applicationId: Option<int>, amount: int,
    mentorshipOffered: Option<bool>)

  datatype Sponsorship = Sponsorship(
    id: int, data: InsertSponsorship, status: string, paymentId: string, createdAt: Timestamp)

  /** Declared default of a sponsorship's `status`. */
  const SponsorshipStatusDefault := "active"

  /** The micro-job insert shape: no `id`, `status` or `createdAt`. */
  datatype InsertMicroJob = InsertMicroJob(
    title: string, description: string, postedBy: int, skillsRequired: Option<seq<string>>,
    compensation: int)

  datatype MicroJob = MicroJob(id: int, data: InsertMicroJob, status: string, createdAt: Timestamp)

  /** Declared default of a micro-job's `status`. */
  const MicroJobStatusDefault := "open"

  // ------------------------------------------------------------------ request bodies

  /**
   * A raw request body for each insert schema: every key a client may send, including
   * the ones the schema omits. A missing key and a `null` are both `None`.
   */
  datatype UserBody = UserBody(
    id: Option<int>, username: Option<string>, password: Option<string>, email: Option<string>,
    role: Option<string>, displayName: Option<string>, profileCompleted: Option<bool>)

  datatype StudentProfileBody = StudentProfileBody(
    id: Option<int>, userId: Option<int>, age: Option<int>, educationLevel: Option<string>,
    course: Option<string>, institutionName: Option<string>, financialNeed: Option<int>,
    skills: Option<seq<string>>, bio: Option<string>, documents: Option<Json>)

  datatype SponsorProfileBody = SponsorProfileBody(
    id: Option<int>, userId: Option<int>, sponsorType: Option<string>,
    organization: Option<string>, website: Option<string>, focusAreas: Option<seq<string>>,
    bio: Option<string>)

  datatype FundingApplicationBody = FundingApplicationBody(
    id: Option<int>, studentId: Option<int>, amount: Option<int>, purpose: Option<string>,
    status: Option<string>, createdAt: Option<Timestamp>, documents: Option<Json>)

  datatype SponsorshipBody = SponsorshipBody(
    id: Option<int>, sponsorId: Option<int>, studentId: Option<int>, applicationId: Option<int>,
    amount: Option<int>, status: Option<string>, paymentId: Option<string>,
    createdAt: Option<Timestamp>, mentorshipOffered: Option<bool>)

  datatype MicroJobBody = MicroJobBody(
    id: Option<int>, title: Option<string>, description: Option<string>, postedBy: Option<int>,
    skillsRequired: Option<seq<string>>, compensation: Option<int>, status: Option<string>,
    createdAt: Option<Timestamp>)

  /** `insertUserSchema.parse`: all five columns are required; omitted keys are stripped. */
  function ParseInsertUser(b: UserBody): (r: Option<InsertUser>)
    ensures r.Some? <==> b.username.Some? && b.password.Some? && b.email.Some? &&
                         b.role.Some? && b.displayName.Some?
    ensures r.Some? ==> r.value.username == b.username.value && r.value.password == b.password.value &&
                        r.value.email == b.email.value && r.value.role == b.role.value &&
                        r.value.displayName == b.displayName.value
  {
    if b.username.Some? && b.password.Some? && b.email.Some? && b.role.Some? && b.displayName.Some?
    then Some(InsertUser(b.username.value, b.password.value, b.email.value, b.role.value, b.displayName.value))
    else None
  }

  /** `insertStudentProfileSchema.parse`: only `userId` is required. */
  function ParseInsertStudentProfile(b: StudentProfileBody): (r: Option<InsertStudentProfile>)
    ensures r.Some? <==> b.userId.Some?
    ensures r.Some? ==> r.value == InsertStudentProfile(b.userId.value, b.age, b.educationLevel,
                                     b.course, b.institutionName, b.financialNeed, b.skills, b.bio, b.documents)
  {
    match b.userId
    case None => None
    case Some(u) => Some(InsertStudentProfile(u, b.age, b.educationLevel, b.course,
                                              b.institutionName, b.financialNeed, b.skills, b.bio, b.documents))
  }

  /** `insertSponsorProfileSchema.parse`: only `userId` is required. */
  function ParseInsertSponsorProfile(b: SponsorProfileBody): (r: Option<InsertSponsorProfile>)
    ensures r.Some? <==> b.userId.Some?
    ensures r.Some? ==> r.value == InsertSponsorProfile(b.userId.value, b.sponsorType,
                                     b.organization, b.website, b.focusAreas, b.bio)
  {
    match b.userId
    case None => None
    case Some(u) => Some(InsertSponsorProfile(u, b.sponsorType, b.organization, b.website, b.focusAreas, b.bio))
  }

  /** `insertFundingApplicationSchema.parse`: `studentId`, `amount` and `purpose` are required. */
  function ParseInsertFundingApplication(b: FundingApplicationBody): (r: Option<InsertFundingApplication>)
    ensures r.Some? <==> b.studentId.Some? && b.amount.Some? && b.purpose.Some?
    ensures r.Some? ==> r.value == InsertFundingApplication(b.studentId.value, b.amount.value,
                                                            b.purpose.value, b.documents)
  {
    if b.studentId.Some? && b.amount.Some? && b.purpose.Some?
    then Some(InsertFundingApplication(b.studentId.value, b.amount.value, b.purpose.value, b.documents))
    else None
  }

  /** `insertSponsorshipSchema.parse`: `sponsorId`, `studentId` and `amount` are required. */
  function ParseInsertSponsorship(b: SponsorshipBody): (r: Option<InsertSponsorship>)
    ensures r.Some? <==> b.sponsorId.Some? && b.studentId.Some? && b.amount.Some?
    ensures r.Some? ==> r.value == InsertSponsorship(b.sponsorId.value, b.studentId.value,
                                                     b.applicationId, b.amount.value, b.mentorshipOffered)
  {
    if b.sponsorId.Some? && b.studentId.Some? && b.amount.Some?
    then Some(InsertSponsorship(b.sponsorId.value, b.studentId.value, b.applicationId,
                                b.amount.value, b.mentorshipOffered))
    else None
  }

  /** `insertMicroJobSchema.parse`: `title`, `description`, `postedBy` and `compensation` are required. */
  function ParseInsertMicroJob(b: MicroJobBody): (r: Option<InsertMicroJob>)
    ensures r.Some? <==> b.title.Some? && b.description.Some? && b.postedBy.Some? && b.compensation.Some?
    ensures r.Some? ==> r.value == InsertMicroJob(b.title.value, b.description.value, b.postedBy.value,
                                                  b.skillsRequired, b.compensation.value)
  {
    if b.title.Some? && b.description.Some? && b.postedBy.Some? && b.compensation.Some?
    then Some(InsertMicroJob(b.title.value, b.description.value, b.postedBy.value,
                             b.skillsRequired, b.compensation.value))
    else None
  }

  /** Whatever `id` or `profileCompleted` a registration body carries, the parsed insert is the same. */
  lemma UserBodyOmitsServerFields(b: UserBody, id: Option<int>, completed: Option<bool>)
    ensures ParseInsertUser(b.(id := id, profileCompleted := completed)) == ParseInsertUser(b)
  {
  }

  /** Whatever `id` a profile body carries, the parsed insert is the same. */
  lemma ProfileBodiesOmitId(s: StudentProfileBody, p: SponsorProfileBody, id: Option<int>)
    ensures ParseInsertStudentProfile(s.(id := id)) == ParseInsertStudentProfile(s)
    ensures ParseInsertSponsorProfile(p.(id := id)) == ParseInsertSponsorProfile(p)
  {
  }

  /** Whatever `id`, `status` or `createdAt` an application body carries, the parsed insert is the same. */
  lemma ApplicationBodyOmitsServerFields(b: FundingApplicationBody, id: Option<int>,
                                         status: Option<string>, createdAt: Option<Timestamp>)
    ensures ParseInsertFundingApplication(b.(id := id, status := status, createdAt := createdAt))
         == ParseInsertFundingApplication(b)
  {
  }

  /** Whatever `id`, `status`, `paymentId` or `createdAt` a sponsorship body carries, the parsed insert is the same. */
  lemma SponsorshipBodyOmitsServerFields(b: SponsorshipBody, id: Option<int>, status: Option<string>,
                                         paymentId: Option<string>, createdAt: Option<Timestamp>)
    ensures ParseInsertSponsorship(b.(id := id, status := status, paymentId := paymentId, createdAt := createdAt))
         == ParseInsertSponsorship(b)
  {
  }

  /** Whatever `id`, `status` or `createdAt` a micro-job body carries, the parsed insert is the same. */
  lemma MicroJobBodyOmitsServerFields(b: MicroJobBody, id: Option<int>, status: Option<string>,
                                      createdAt: Option<Timestamp>)
    ensures ParseInsertMicroJob(b.(id := id, status := status, createdAt := createdAt)) == ParseInsertMicroJob(b)
  {
  }

  // ------------------------------------------------------------------ partial updates

  /** `Partial<User>` as the store accepts it (without `id`). */
  datatype UserPatch = UserPatch(
    username: Field<string>, password: Field<string>, email: Field<string>, role: Field<string>,
    displayName: Field<string>, profileCompleted: Field<bool>)

  /** `Partial<InsertStudentProfile>`; a nullable column may also be set to null. */
  datatype StudentProfilePatch = StudentProfilePatch(
    userId: Field<int>, age: Field<Option<int>>, educationLevel: Field<Option<string>>,
    course: Field<Option<string>>, institutionName: Field<Option<string>>,
    financialNeed: Field<Option<int>>, skills: Field<Option<seq<string>>>,
    bio: Field<Option<string>>, documents: Field<Option<Json>>)

  /** `Partial<InsertSponsorProfile>`. */
  datatype SponsorProfilePatch = SponsorProfilePatch(
    userId: Field<int>, sponsorType: Field<Option<string>>, organization: Field<Option<string>>,
    website: Field<Option<string>>, focusAreas: Field<Option<seq<string>>>, bio: Field<Option<string>>)

  /** The patch `{ profileCompleted: true }` the profile handlers send. */
  const CompleteProfile := UserPatch(Absent, Absent, Absent, Absent, Absent, Present(true))

  /** `{ ...user, ...data }`. */
  function MergeUser(u: User, d: UserPatch): (r: User)
    ensures r.id == u.id
  {
    User(u.id,
         InsertUser(Override(u.data.username, d.username), Override(u.data.password, d.password),
                    Override(u.data.email, d.email), Override(u.data.role, d.role),
                    Override(u.data.displayName, d.displayName)),
         Override(u.profileCompleted, d.profileCompleted))
  }

  /** `{ ...profile, ...data }` for a student profile. */
  function MergeStudentProfile(p: StudentProfile, d: StudentProfilePatch): (r: StudentProfile)
    ensures r.id == p.id
  {
    var o := p.data;
    StudentProfile(p.id, InsertStudentProfile(
      Override(o.userId, d.userId), Override(o.age, d.age), Override(o.educationLevel, d.educationLevel),
      Override(o.course, d.course), Override(o.institutionName, d.institutionName),
      Override(o.financialNeed, d.financialNeed), Override(o.skills, d.skills), Override(o.bio, d.bio),
      Override(o.documents, d.documents)))
  }

  /** `{ ...profile, ...data }` for a sponsor profile. */
  function MergeSponsorProfile(p: SponsorProfile, d: SponsorProfilePatch): (r: SponsorProfile)
    ensures r.id == p.id
  {
    var o := p.data;
    SponsorProfile(p.id, InsertSponsorProfile(
      Override(o.userId, d.userId), Override(o.sponsorType, d.sponsorType),
      Override(o.organization, d.organization), Override(o.website, d.website),
      Override(o.focusAreas, d.focusAreas), Override(o.bio, d.bio)))
  }

  /** The patch with every key of `b` laid over every key of `a`: `{ ...a, ...b }`. */
  function ThenStudentPatch(a: StudentProfilePatch, b: StudentProfilePatch): StudentProfilePatch {
    StudentProfilePatch(
      Later(a.userId, b.userId), Later(a.age, b.age), Later(a.educationLevel, b.educationLevel),
      Later(a.course, b.course), Later(a.institutionName, b.institutionName),
      Later(a.financialNeed, b.financialNeed), Later(a.skills, b.skills), Later(a.bio, b.bio),
      Later(a.documents, b.documents))
  }

  /** One key of `{ ...a, ...b }`. */
  function Later<T>(a: Field<T>, b: Field<T>): Field<T> {
    if b.Present? then b else a
  }

  /**
   * Shallow merge of a student profile: a key absent from the patch keeps the stored
   * value, a present key replaces it wholesale (a new `skills` list replaces the old one).
   */
  lemma StudentMergeIsShallow(p: StudentProfile, d: StudentProfilePatch)
    ensures var r := MergeStudentProfile(p, d).data;
      && r.userId == (if d.userId.Present? then d.userId.value else p.data.userId)
      && r.age == (if d.age.Present? then d.age.value else p.data.age)
      && r.educationLevel == (if d.educationLevel.Present? then d.educationLevel.value else p.data.educationLevel)
      && r.course == (if d.course.Present? then d.course.value else p.data.course)
      && r.institutionName == (if d.institutionName.Present? then d.institutionName.value else p.data.institutionName)
      && r.financialNeed == (if d.financialNeed.Present? then d.financialNeed.value else p.data.financialNeed)
      && r.skills == (if d.skills.Present? then d.skills.value else p.data.skills)
      && r.bio == (if d.bio.Present? then d.bio.value else p.data.bio)
      && r.documents == (if d.documents.Present? then d.documents.value else p.data.documents)
  {
  }

  /** Applying the same patch twice is applying it once. */
  lemma StudentMergeIdempotent(p: StudentProfile, d: StudentProfilePatch)
    ensures MergeStudentProfile(MergeStudentProfile(p, d), d) == MergeStudentProfile(p, d)
  {
  }

  /** Two successive updates act as one update with the later keys winning. */
  lemma StudentMergeCompose(p: StudentProfile, a: StudentProfilePatch, b: StudentProfilePatch)
    ensures MergeStudentProfile(MergeStudentProfile(p, a), b) == MergeStudentProfile(p, ThenStudentPatch(a, b))
  {
  }

  /** A patch carrying only `bio` leaves every other field as it was. */
  lemma BioOnlyPatch(p: StudentProfile, bio: Option<string>)
    ensures var d := StudentProfilePatch(Absent, Absent, Absent, Absent, Absent, Absent, Absent, Present(bio), Absent);
      MergeStudentProfile(p, d) == StudentProfile(p.id, p.data.(bio := bio))
  {
  }

  /** Shallow merge of a sponsor profile, key by key. */
  lemma SponsorMergeIsShallow(p: SponsorProfile, d: SponsorProfilePatch)
    ensures var r := MergeSponsorProfile(p, d).data;
      && r.userId == (if d.userId.Present? then d.userId.value else p.data.userId)
      && r.sponsorType == (if d.sponsorType.Present? then d.sponsorType.value else p.data.sponsorType)
      && r.organization == (if d.organization.Present? then d.organization.value else p.data.organization)
      && r.website == (if d.website.Present? then d.website.value else p.data.website)
      && r.focusAreas == (if d.focusAreas.Present? then d.focusAreas.value else p.data.focusAreas)
      && r.bio == (if d.bio.Present? then d.bio.value else p.data.bio)
  {
  }

  /** The profile-completion patch changes only `profileCompleted`. */
  lemma CompleteProfileOnlySetsFlag(u: User)
    ensures MergeUser(u, CompleteProfile) == u.(profileCompleted := true)
  {
  }

  // ------------------------------------------------------------------ the PUT body's `id`

  /**
   * The profile PUT handlers pass the raw request body on as the update, so an `id` key
   * in it is spread over the stored record's `id` as well. `id` is that key, if sent.
   */
  function MergeStudentProfileAsSent(p: StudentProfile, id: Option<int>, d: StudentProfilePatch): (r: StudentProfile)
    ensures r.data == MergeStudentProfile(p, d).data
    ensures id.None? ==> r == MergeStudentProfile(p, d)
  {
    var merged := MergeStudentProfile(p, d);
    if id.Some? then merged.(id := id.value) else merged
  }

  /** The same for sponsor profiles. */
  function MergeSponsorProfileAsSent(p: SponsorProfile, id: Option<int>, d: SponsorProfilePatch): (r: SponsorProfile)
    ensures r.data == MergeSponsorProfile(p, d).data
    ensures id.None? ==> r == MergeSponsorProfile(p, d)
  {
    var merged := MergeSponsorProfile(p, d);
    if id.Some? then merged.(id := id.value) else merged
  }

  /**
   * A body `{ "id": 7 }` sent to update the profile stored under key 1 leaves a record under
   * key 1 that claims id 7, so the next update of it is written under key 7 instead.
   */
  lemma PutBodyRewritesId()
    ensures var p := StudentProfile(1, InsertStudentProfile(1, None, None, None, None, None, None, None, None));
      var nothing := StudentProfilePatch(Absent, Absent, Absent, Absent, Absent, Absent, Absent, Absent, Absent);
      MergeStudentProfileAsSent(p, Some(7), nothing).id == 7 && MergeStudentProfile(p, nothing).id == 1
    ensures var p := SponsorProfile(1, InsertSponsorProfile(1, None, None, None, None, None));
      var nothing := SponsorProfilePatch(Absent, Absent, Absent, Absent, Absent, Absent);
      MergeSponsorProfileAsSent(p, Some(7), nothing).id == 7 && MergeSponsorProfile(p, nothing).id == 1
  {
  }
}
