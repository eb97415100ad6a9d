/**
 * The request handlers' business rules over the store. Each handler is a method whose
 * reply is the status code with either the JSON payload or the reason for refusal;
 * `parseInt` of path parameters has already happened (ids arrive as integers), and a
 * body the insert schema rejects is the `400` the `catch` block sends.
 */
module Routes {
  import opened Wrappers
  import opened Seqs
  import opened Text
  import opened Schema
  import opened Storage
  import opened Ranking

  /** Why a request was refused: a schema validation error, or a fixed message. */
  datatype Reason = Invalid | Message(text: string)

  /** A response: a success code with its payload, or an error code with its reason. */
  datatype Reply<T> = Ok(status: int, value: T) | Fail(status: int, reason: Reason)

  /** A user as the auth routes return it: every field except `password`. */
  datatype PublicUser = PublicUser(
    id: int, username: string, email: string, role: string, displayName: string, profileCompleted: bool)

  /** `const { password, ...userWithoutPassword } = user`. */
  function WithoutPassword(u: User): (r: PublicUser)
    ensures r.id == u.id && r.username == u.data.username && r.email == u.data.email
    ensures r.role == u.data.role && r.displayName == u.data.displayName && r.profileCompleted == u.profileCompleted
  {
    PublicUser(u.id, u.data.username, u.data.email, u.data.role, u.data.displayName, u.profileCompleted)
  }

  /** No two users share a username, and no two share an email. */
  ghost predicate UniqueLogins(users: seq<User>) {
    forall i, j :: 0 <= i < |users| && 0 <= j < |users| && i != j ==>
      users[i].data.username != users[j].data.username && users[i].data.email != users[j].data.email
  }

  // ------------------------------------------------------------------ auth

  /**
   * `POST /api/auth/register`: the username check runs first, then the email check; a
   * refused request changes nothing; success stores the user and returns it without
   * its password. Registration keeps usernames and emails unique.
   */
  method Register(store: MemStorage, body: UserBody) returns (reply: Reply<PublicUser>)
    requires store.Valid()
    modifies store
    ensures store.Valid()
    ensures ParseInsertUser(body).None? ==> reply == Fail(400, Invalid) && store.State() == old(store.State())
    ensures ParseInsertUser(body).Some? ==>
      var data := ParseInsertUser(body).value;
      if old(store.GetUserByUsername(data.username)).Some? then
        reply == Fail(400, Message("Username already exists")) && store.State() == old(store.State())
      else if old(store.GetUserByEmail(data.email)).Some? then
        reply == Fail(400, Message("Email already in use")) && store.State() == old(store.State())
      else
        var user := User(old(store.currentUserId), data, false);
        && reply == Ok(201, WithoutPassword(user))
        && store.State() == old(store.State()).(users := old(store.users) + [user],
                                                currentUserId := old(store.currentUserId) + 1)
    ensures UniqueLogins(old(store.users)) ==> UniqueLogins(store.users)
  {
    var parsed := ParseInsertUser(body);
    if parsed.None? {
      return Fail(400, Invalid);
    }
    var data := parsed.value;
    var existingUser := store.GetUserByUsername(data.username);
    if existingUser.Some? {
      return Fail(400, Message("Username already exists"));
    }
    var existingEmail := store.GetUserByEmail(data.email);
    if existingEmail.Some? {
      return Fail(400, Message("Email already in use"));
    }
    var user := store.CreateUser(data);
    reply := Ok(201, WithoutPassword(user));
  }

  /** The user a login name selects: by username, and by email only if no username matched and it has an `@`. */
  function LoginLookup(store: MemStorage, name: string): (r: Option<User>)
    reads store
    ensures r.Some? ==> r.value in store.users
    // some username matches: the first user with that username
    ensures (exists k :: 0 <= k < |store.users| && store.users[k].data.username == name) ==>
              r.Some? && exists k :: 0 <= k < |store.users| && store.users[k] == r.value &&
                                     r.value.data.username == name &&
                                     forall j :: 0 <= j < k ==> store.users[j].data.username != name
    // no username matches and the name has an `@`: the first user with that email, if any
    ensures (forall k :: 0 <= k < |store.users| ==> store.users[k].data.username != name) && Contains(name, "@") ==>
              (r.Some? <==> exists k :: 0 <= k < |store.users| && store.users[k].data.email == name) &&
              (r.Some? ==> exists k :: 0 <= k < |store.users| && store.users[k] == r.value &&
                                       r.value.data.email == name &&
                                       forall j :: 0 <= j < k ==> store.users[j].data.email != name)
    // no username matches and no `@`: nobody
    ensures (forall k :: 0 <= k < |store.users| ==> store.users[k].data.username != name) && !Contains(name, "@") ==>
              r.None?
  {
    var byName := store.GetUserByUsername(name);
    if byName.None? && Contains(name, "@") then store.GetUserByEmail(name) else byName
  }

  /**
   * `POST /api/auth/login`: both fields must be truthy; an unknown name or a wrong password
   * is `401`; success returns the user without its password. Nothing is written.
   */
  method Login(store: MemStorage, username: Option<string>, password: Option<string>) returns (reply: Reply<PublicUser>)
    requires store.Valid()
    ensures !TruthyString(username) || !TruthyString(password) ==>
              reply == Fail(400, Message("Username and password are required"))
    ensures TruthyString(username) && TruthyString(password) ==>
      var found := LoginLookup(store, username.value);
      if found.None? || found.value.data.password != password.value then
        reply == Fail(401, Message("Invalid credentials"))
      else
        reply == Ok(200, WithoutPassword(found.value))
    ensures reply.Ok? ==> exists k :: 0 <= k < |store.users| && store.users[k].data.password == password.value &&
                                      reply.value == WithoutPassword(store.users[k])
  {
    if !TruthyString(username) || !TruthyString(password) {
      return Fail(400, Message("Username and password are required"));
    }
    var name := username.value;
    var user := store.GetUserByUsername(name);
    if user.None? && Contains(name, "@") {
      user := store.GetUserByEmail(name);
    }
    if user.None? {
      return Fail(401, Message("Invalid credentials"));
    }
    if password.value != user.value.data.password {
      return Fail(401, Message("Invalid credentials"));
    }
    reply := Ok(200, WithoutPassword(user.value));
  }

  // ------------------------------------------------------------------ student profiles

  /**
   * `POST /api/students/profile`: an unknown owner is `404`, a non-student `403`, neither
   * writes anything; otherwise the profile is stored (a second one for the same user too)
   * and then the owner's `profileCompleted` becomes true.
   */
  method CreateStudentProfile(store: MemStorage, body: StudentProfileBody) returns (reply: Reply<StudentProfile>)
    requires store.Valid()
    modifies store
    ensures store.Valid()
    ensures ParseInsertStudentProfile(body).None? ==> reply == Fail(400, Invalid) && store.State() == old(store.State())
    ensures ParseInsertStudentProfile(body).Some? ==>
      var data := ParseInsertStudentProfile(body).value;
      var owner := old(store.GetUser(data.userId));
      if owner.None? then
        reply == Fail(404, Message("User not found")) && store.State() == old(store.State())
      else if owner.value.data.role != "student" then
        reply == Fail(403, Message("Only students can create student profiles")) && store.State() == old(store.State())
      else
        var profile := StudentProfile(old(store.currentStudentProfileId), data);
        && reply == Ok(201, profile)
        && store.State() == old(store.State()).(
             studentProfiles := old(store.studentProfiles) + [profile],
             currentStudentProfileId := old(store.currentStudentProfileId) + 1,
             users := old(store.users)[data.userId - 1 := owner.value.(profileCompleted := true)])
  {
    var parsed := ParseInsertStudentProfile(body);
    if parsed.None? {
      return Fail(400, Invalid);
    }
    var data := parsed.value;
    var user := store.GetUser(data.userId);
    if user.None? {
      return Fail(404, Message("User not found"));
    }
    if user.value.data.role != "student" {
      return Fail(403, Message("Only students can create student profiles"));
    }
    var profile := store.CreateStudentProfile(data);
    CompleteProfileOnlySetsFlag(user.value);
    var _ := store.UpdateUser(user.value.id, CompleteProfile);
    reply := Ok(201, profile);
  }

  /** `GET /api/students/profile/:userId`: the user's first student profile, or `404`. */
  method GetStudentProfile(store: MemStorage, userId: int) returns (reply: Reply<StudentProfile>)
    requires store.Valid()
    ensures store.GetStudentProfile(userId).None? ==> reply == Fail(404, Message("Student profile not found"))
    ensures store.GetStudentProfile(userId).Some? ==> reply == Ok(200, store.GetStudentProfile(userId).value)
    ensures reply.Ok? ==> reply.value in store.studentProfiles && reply.value.data.userId == userId
  {
    var profile := store.GetStudentProfile(userId);
    if profile.None? {
      return Fail(404, Message("Student profile not found"));
    }
    reply := Ok(200, profile.value);
  }

  /** `PUT /api/students/profile/:userId`: shallow-merge the body into the user's first profile, or `404`. */
  method UpdateStudentProfile(store: MemStorage, userId: int, patch: StudentProfilePatch)
    returns (reply: Reply<StudentProfile>)
    requires store.Valid()
    modifies store
    ensures store.Valid()
    ensures old(store.GetStudentProfile(userId)).None? ==>
              reply == Fail(404, Message("Student profile not found")) && store.State() == old(store.State())
    ensures old(store.GetStudentProfile(userId)).Some? ==>
      var p := old(store.GetStudentProfile(userId)).value;
      && reply == Ok(200, MergeStudentProfile(p, patch))
      && store.State() == old(store.State()).(studentProfiles := old(store.studentProfiles)[p.id - 1 := reply.value])
  {
    var updated := store.UpdateStudentProfile(userId, patch);
    if updated.None? {
      return Fail(404, Message("Student profile not found"));
    }
    reply := Ok(200, updated.value);
  }

  // ------------------------------------------------------------------ sponsor profiles

  /** `POST /api/sponsors/profile`: as for students, with the role `"sponsor"`. */
  method CreateSponsorProfile(store: MemStorage, body: SponsorProfileBody) returns (reply: Reply<SponsorProfile>)
    requires store.Valid()
    modifies store
    ensures store.Valid()
    ensures ParseInsertSponsorProfile(body).None? ==> reply == Fail(400, Invalid) && store.State() == old(store.State())
    ensures ParseInsertSponsorProfile(body).Some? ==>
      var data := ParseInsertSponsorProfile(body).value;
      var owner := old(store.GetUser(data.userId));
      if owner.None? then
        reply == Fail(404, Message("User not found")) && store.State() == old(store.State())
      else if owner.value.data.role != "sponsor" then
        reply == Fail(403, Message("Only sponsors can create sponsor profiles")) && store.State() == old(store.State())
      else
        var profile := SponsorProfile(old(store.currentSponsorProfileId), data);
        && reply == Ok(201, profile)
        && store.State() == old(store.State()).(
             sponsorProfiles := old(store.sponsorProfiles) + [profile],
             currentSponsorProfileId := old(store.currentSponsorProfileId) + 1,
             users := old(store.users)[data.userId - 1 := owner.value.(profileCompleted := true)])
  {
    var parsed := ParseInsertSponsorProfile(body);
    if parsed.None? {
      return Fail(400, Invalid);
    }
    var data := parsed.value;
    var user := store.GetUser(data.userId);
    if user.None? {
      return Fail(404, Message("User not found"));
    }
    if user.value.data.role != "sponsor" {
      return Fail(403, Message("Only sponsors can create sponsor profiles"));
    }
    var profile := store.CreateSponsorProfile(data);
    CompleteProfileOnlySetsFlag(user.value);
    var _ := store.UpdateUser(user.value.id, CompleteProfile);
    reply := Ok(201, profile);
  }

  /** `GET /api/sponsors/profile/:userId`: the user's first sponsor profile, or `404`. */
  method GetSponsorProfile(store: MemStorage, userId: int) returns (reply: Reply<SponsorProfile>)
    requires store.Valid()
    ensures store.GetSponsorProfile(userId).None? ==> reply == Fail(404, Message("Sponsor profile not found"))
    ensures store.GetSponsorProfile(userId).Some? ==> reply == Ok(200, store.GetSponsorProfile(userId).value)
    ensures reply.Ok? ==> reply.value in store.sponsorProfiles && reply.value.data.userId == userId
  {
    var profile := store.GetSponsorProfile(userId);
    if profile.None? {
      return Fail(404, Message("Sponsor profile not found"));
    }
    reply := Ok(200, profile.value);
  }

  /** `PUT /api/sponsors/profile/:userId`: shallow-merge the body into the user's first profile, or `404`. */
  method UpdateSponsorProfile(store: MemStorage, userId: int, patch: SponsorProfilePatch)
    returns (reply: Reply<SponsorProfile>)
    requires store.Valid()
    modifies store
    ensures store.Valid()
    ensures old(store.GetSponsorProfile(userId)).None? ==>
              reply == Fail(404, Message("Sponsor profile not found")) && store.State() == old(store.State())
    ensures old(store.GetSponsorProfile(userId)).Some? ==>
      var p := old(store.GetSponsorProfile(userId)).value;
      && reply == Ok(200, MergeSponsorProfile(p, patch))
      && store.State() == old(store.State()).(sponsorProfiles := old(store.sponsorProfiles)[p.id - 1 := reply.value])
  {
    var updated := store.UpdateSponsorProfile(userId, patch);
    if updated.None? {
      return Fail(404, Message("Sponsor profile not found"));
    }
    reply := Ok(200, updated.value);
  }

  // ------------------------------------------------------------------ funding applications

  /** `POST /api/funding-applications`: store the parsed application as pending. */
  method CreateFundingApplication(store: MemStorage, body: FundingApplicationBody, now: Timestamp)
    returns (reply: Reply<FundingApplication>)
    requires store.Valid()
    modifies store
    ensures store.Valid()
    ensures ParseInsertFundingApplication(body).None? ==> reply == Fail(400, Invalid) && store.State() == old(store.State())
    ensures ParseInsertFundingApplication(body).Some? ==>
      var a := FundingApplication(old(store.currentFundingApplicationId), ParseInsertFundingApplication(body).value,
                                  "pending", now);
      && reply == Ok(201, a)
      && store.State() == old(store.State()).(fundingApplications := old(store.fundingApplications) + [a],
                                              currentFundingApplicationId := old(store.currentFundingApplicationId) + 1)
  {
    var parsed := ParseInsertFundingApplication(body);
    if parsed.None? {
      return Fail(400, Invalid);
    }
    var application := store.CreateFundingApplication(parsed.value, now);
    reply := Ok(201, application);
  }

  /** The statuses an application may be set to. */
  const ApplicationStatuses: seq<string> := ["pending", "approved", "rejected"]

  /** The statuses a micro-job may be set to. */
  const MicroJobStatuses: seq<string> := ["open", "assigned", "completed"]

  /** `!status || !allowed.includes(status)`, the test that refuses a status. */
  predicate Disallowed(status: Option<string>, allowed: seq<string>) {
    !TruthyString(status) || status.value !in allowed
  }

  /**
   * `PUT /api/funding-applications/:id/status`: a status outside the whitelist is `400`, an
   * unknown id `404`, neither writes; any allowed status replaces any current one.
   */
  method UpdateFundingApplicationStatus(store: MemStorage, id: int, status: Option<string>)
    returns (reply: Reply<FundingApplication>)
    requires store.Valid()
    modifies store
    ensures store.Valid()
    ensures Disallowed(status, ApplicationStatuses) ==>
              reply == Fail(400, Message("Invalid status")) && store.State() == old(store.State())
    ensures !Disallowed(status, ApplicationStatuses) && old(store.GetFundingApplication(id)).None? ==>
              reply == Fail(404, Message("Funding application not found")) && store.State() == old(store.State())
    ensures !Disallowed(status, ApplicationStatuses) && old(store.GetFundingApplication(id)).Some? ==>
      && reply == Ok(200, old(store.GetFundingApplication(id)).value.(status := status.value))
      && store.State() == old(store.State()).(fundingApplications := old(store.fundingApplications)[id - 1 := reply.value])
    ensures reply.Ok? ==> reply.value.status in ApplicationStatuses
  {
    if Disallowed(status, ApplicationStatuses) {
      return Fail(400, Message("Invalid status"));
    }
    var updated := store.UpdateFundingApplicationStatus(id, status.value);
    if updated.None? {
      return Fail(404, Message("Funding application not found"));
    }
    reply := Ok(200, updated.value);
  }

  // ------------------------------------------------------------------ sponsorships

  /**
   * `POST /api/sponsorships`: store the sponsorship, then, when its `applicationId` is
   * truthy, set that application (if it exists) to `"approved"`; the reply is the
   * sponsorship as created, and no other application changes.
   */
  method CreateSponsorship(store: MemStorage, body: SponsorshipBody, now: Timestamp)
    returns (reply: Reply<Sponsorship>)
    requires store.Valid()
    modifies store
    ensures store.Valid()
    ensures ParseInsertSponsorship(body).None? ==> reply == Fail(400, Invalid) && store.State() == old(store.State())
    ensures ParseInsertSponsorship(body).Some? ==>
      var data := ParseInsertSponsorship(body).value;
      var s := Sponsorship(old(store.currentSponsorshipId), data, "active", "", now);
      var apps := old(store.fundingApplications);
      && reply == Ok(201, s)
      && store.State() == old(store.State()).(
           sponsorships := old(store.sponsorships) + [s],
           currentSponsorshipId := old(store.currentSponsorshipId) + 1,
           fundingApplications :=
             if TruthyInt(data.applicationId) && At(apps, data.applicationId.value).Some?
             then apps[data.applicationId.value - 1 := apps[data.applicationId.value - 1].(status := "approved")]
             else apps)
    ensures ParseInsertSponsorship(body).Some? ==>
      var appId := ParseInsertSponsorship(body).value.applicationId;
      && (TruthyInt(appId) && 1 <= appId.value <= |old(store.fundingApplications)| ==>
            store.fundingApplications[appId.value - 1].status == "approved")
      && (forall k :: 0 <= k < |store.fundingApplications| && !(TruthyInt(appId) && k == appId.value - 1) ==>
            store.fundingApplications[k] == old(store.fundingApplications)[k])
  {
    var parsed := ParseInsertSponsorship(body);
    if parsed.None? {
      return Fail(400, Invalid);
    }
    var sponsorship := store.CreateSponsorship(parsed.value, now);
    if TruthyInt(sponsorship.data.applicationId) {
      var _ := store.UpdateFundingApplicationStatus(sponsorship.data.applicationId.value, "approved");
    }
    reply := Ok(201, sponsorship);
  }

  // ------------------------------------------------------------------ micro-jobs

  /** `POST /api/micro-jobs`: store the parsed job as open. */
  method CreateMicroJob(store: MemStorage, body: MicroJobBody, now: Timestamp) returns (reply: Reply<MicroJob>)
    requires store.Valid()
    modifies store
    ensures store.Valid()
    ensures ParseInsertMicroJob(body).None? ==> reply == Fail(400, Invalid) && store.State() == old(store.State())
    ensures ParseInsertMicroJob(body).Some? ==>
      var j := MicroJob(old(store.currentMicroJobId), ParseInsertMicroJob(body).value, "open", now);
      && reply == Ok(201, j)
      && store.State() == old(store.State()).(microJobs := old(store.microJobs) + [j],
                                              currentMicroJobId := old(store.currentMicroJobId) + 1)
  {
    var parsed := ParseInsertMicroJob(body);
    if parsed.None? {
      return Fail(400, Invalid);
    }
    var job := store.CreateMicroJob(parsed.value, now);
    reply := Ok(201, job);
  }

  /** `PUT /api/micro-jobs/:id/status`: whitelist, then `404` for an unknown id; no transition guard. */
  method UpdateMicroJobStatus(store: MemStorage, id: int, status: Option<string>) returns (reply: Reply<MicroJob>)
    requires store.Valid()
    modifies store
    ensures store.Valid()
    ensures Disallowed(status, MicroJobStatuses) ==>
              reply == Fail(400, Message("Invalid status")) && store.State() == old(store.State())
    ensures !Disallowed(status, MicroJobStatuses) && old(store.GetMicroJob(id)).None? ==>
              reply == Fail(404, Message("Micro-job not found")) && store.State() == old(store.State())
    ensures !Disallowed(status, MicroJobStatuses) && old(store.GetMicroJob(id)).Some? ==>
      && reply == Ok(200, old(store.GetMicroJob(id)).value.(status := status.value))
      && store.State() == old(store.State()).(microJobs := old(store.microJobs)[id - 1 := reply.value])
    ensures reply.Ok? ==> reply.value.status in MicroJobStatuses
  {
    if Disallowed(status, MicroJobStatuses) {
      return Fail(400, Message("Invalid status"));
    }
    var updated := store.UpdateMicroJobStatus(id, status.value);
    if updated.None? {
      return Fail(404, Message("Micro-job not found"));
    }
    reply := Ok(200, updated.value);
  }

  // ------------------------------------------------------------------ matching

  /** `GET /api/ai/match-students`: the joined students, sorted in place by need, then projected. */
  method MatchStudents(store: MemStorage) returns (reply: Reply<seq<MatchResult>>)
    requires store.Valid()
    ensures reply == Ok(200, MatchResults(SortBy(StudentsForMatching(store.studentProfiles, store.users), CompareStudents)))
  {
    var students := store.GetAllStudentsForMatching();
    var a := new StudentWithUser[|students|](i requires 0 <= i < |students| => students[i]);
    assert a[..] == students;
    SortInPlace(a, CompareStudents);
    reply := Ok(200, MatchResults(a[..]));
  }

  /**
   * `GET /api/ai/sponsor-recommendations/:sponsorId`: `404` for an unknown user, an empty
   * success for a user without a sponsor profile, else the candidates ranked and projected.
   */
  method SponsorRecommendations(store: MemStorage, userId: int) returns (reply: Reply<seq<Recommendation>>)
    requires store.Valid()
    ensures store.GetUser(userId).None? ==> reply == Fail(404, Message("User not found"))
    ensures store.GetUser(userId).Some? && store.GetSponsorProfile(userId).None? ==> reply == Ok(200, [])
    ensures store.GetUser(userId).Some? && store.GetSponsorProfile(userId).Some? ==>
      reply == Ok(200, Recommendations(SortBy(
        Candidates(store.studentProfiles, store.users, store.fundingApplications), CompareCandidates)))
  {
    var user := store.GetUser(userId);
    if user.None? {
      return Fail(404, Message("User not found"));
    }
    var sponsorProfile := store.GetSponsorProfile(userId);
    if sponsorProfile.None? {
      return Ok(200, []);
    }
    var students := store.GetMatchingStudentsForSponsor(userId);
    var a := new StudentCandidate[|students|](i requires 0 <= i < |students| => students[i]);
    assert a[..] == students;
    SortInPlace(a, CompareCandidates);
    reply := Ok(200, Recommendations(a[..]));
  }
}
