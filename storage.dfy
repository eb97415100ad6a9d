/**
 * The in-memory record store. Each of the six tables is a JavaScript `Map` from id to
 * record; a `Map` iterates in insertion order and `set` on a present key keeps its
 * place, and no record is ever deleted, so a table is modelled as the sequence of its
 * records in creation order, the record with key `k` at position `k - 1`.
 */
module Storage {
  import opened Wrappers
  import opened Seqs
  import opened Schema

  /** A student profile joined with its owner: `StudentProfile & { user: User }`. */
  datatype StudentWithUser = StudentWithUser(profile: StudentProfile, user: User)

  /** The same join with the student's first pending application, if any. */
  datatype StudentCandidate = StudentCandidate(
    profile: StudentProfile, user: User, application: Option<FundingApplication>)

  /** All fields of the store at once, to say what an operation leaves alone. */
  datatype Tables = Tables(
    users: seq<User>, studentProfiles: seq<StudentProfile>, sponsorProfiles: seq<SponsorProfile>,
    fundingApplications: seq<FundingApplication>, sponsorships: seq<Sponsorship>,
    microJobs: seq<MicroJob>,
    currentUserId: int, currentStudentProfileId: int, currentSponsorProfileId: int,
    currentFundingApplicationId: int, currentSponsorshipId: int, currentMicroJobId: int)

  /** `map.get(id)` on a table whose key-`k` record sits at position `k - 1`. */
  function At<T>(table: seq<T>, id: int): Option<T> {
    if 1 <= id <= |table| then Some(table[id - 1]) else None
  }

  // ------------------------------------------------------------------ the matching joins

  /** The profile's `userId` resolves to a stored user. */
  function HasUser(users: seq<User>): StudentProfile -> bool {
    (p: StudentProfile) => At(users, p.data.userId).Some?
  }

  /** The application belongs to the given student id. */
  function ForStudent(studentId: int): FundingApplication -> bool {
    (a: FundingApplication) => a.data.studentId == studentId
  }

  /** The application's status is `"pending"`. */
  function IsPendingApplication(): FundingApplication -> bool {
    (a: FundingApplication) => a.status == "pending"
  }

  /**
   * What `getAllStudentsForMatching` builds: one entry per profile whose owner resolves,
   * in store order, with that owner attached; unresolved profiles are skipped.
   */
  function StudentsForMatching(profiles: seq<StudentProfile>, users: seq<User>): (r: seq<StudentWithUser>)
    ensures var kept := Filter(profiles, HasUser(users));
      |r| == |kept| &&
      forall i :: 0 <= i < |r| ==> r[i].profile == kept[i] && At(users, kept[i].data.userId) == Some(r[i].user)
    decreases |profiles|
  {
    if profiles == [] then []
    else
      var init, p := profiles[..|profiles| - 1], profiles[|profiles| - 1];
      assert profiles == init + [p];
      FilterConcat(init, [p], HasUser(users));
      var rest := StudentsForMatching(init, users);
      match At(users, p.data.userId)
      case Some(u) => rest + [StudentWithUser(p, u)]
      case None => rest
  }

  /**
   * What `getMatchingStudentsForSponsor` builds once the sponsor has a profile: the same
   * entries, each with the first application in store order that is pending and whose
   * `studentId` equals the profile's `userId` (not the profile's `id`).
   */
  function Candidates(profiles: seq<StudentProfile>, users: seq<User>,
                      applications: seq<FundingApplication>): (r: seq<StudentCandidate>)
    ensures var kept := Filter(profiles, HasUser(users));
      |r| == |kept| &&
      forall i :: 0 <= i < |r| ==>
        && r[i].profile == kept[i]
        && At(users, kept[i].data.userId) == Some(r[i].user)
        && r[i].application == Find(applications, Both(ForStudent(kept[i].data.userId), IsPendingApplication()))
    decreases |profiles|
  {
    if profiles == [] then []
    else
      var init, p := profiles[..|profiles| - 1], profiles[|profiles| - 1];
      assert profiles == init + [p];
      FilterConcat(init, [p], HasUser(users));
      var rest := Candidates(init, users, applications);
      match At(users, p.data.userId)
      case Some(u) =>
        var mine := Filter(applications, ForStudent(p.data.userId));
        FindFilter(applications, ForStudent(p.data.userId), IsPendingApplication());
        rest + [StudentCandidate(p, u, Find(mine, IsPendingApplication()))]
      case None => rest
  }

  /** Extending the profiles by one appends at most one entry to the candidates. */
  lemma CandidatesSnoc(profiles: seq<StudentProfile>, p: StudentProfile, users: seq<User>,
                       applications: seq<FundingApplication>)
    ensures Candidates(profiles + [p], users, applications) ==
      match At(users, p.data.userId)
      case Some(u) =>
        Candidates(profiles, users, applications) +
        [StudentCandidate(p, u, Find(Filter(applications, ForStudent(p.data.userId)), IsPendingApplication()))]
      case None => Candidates(profiles, users, applications)
  {
    assert (profiles + [p])[..|profiles + [p]| - 1] == profiles;
  }

  /** The sponsor profile belongs to the given user. */
  function SponsorOwnedBy(userId: int): SponsorProfile -> bool {
    (p: SponsorProfile) => p.data.userId == userId
  }

  /** `getMatchingStudentsForSponsor(userId)`: nothing at all for a user without a sponsor profile. */
  function MatchingStudents(t: Tables, userId: int): (r: seq<StudentCandidate>)
    ensures Find(t.sponsorProfiles, SponsorOwnedBy(userId)).None? ==> r == []
  {
    if Find(t.sponsorProfiles, SponsorOwnedBy(userId)).None? then []
    else Candidates(t.studentProfiles, t.users, t.fundingApplications)
  }

  // ------------------------------------------------------------------ the store

  class MemStorage {
    var users: seq<User>
    var studentProfiles: seq<StudentProfile>
    var sponsorProfiles: seq<SponsorProfile>
    var fundingApplications: seq<FundingApplication>
    var sponsorships: seq<Sponsorship>
    var microJobs: seq<MicroJob>
    var currentUserId: int
    var currentStudentProfileId: int
    var currentSponsorProfileId: int
    var currentFundingApplicationId: int
    var currentSponsorshipId: int
    var currentMicroJobId: int

    /**
     * Every counter is the next unused id, and the record at position `k` of a table
     * has id `k + 1`: ids are 1, 2, 3, ... in creation order and never repeat.
     */
    ghost predicate Valid()
      reads this
    {
      && currentUserId == |users| + 1
      && currentStudentProfileId == |studentProfiles| + 1
      && currentSponsorProfileId == |sponsorProfiles| + 1
      && currentFundingApplicationId == |fundingApplications| + 1
      && currentSponsorshipId == |sponsorships| + 1
      && currentMicroJobId == |microJobs| + 1
      && (forall k :: 0 <= k < |users| ==> users[k].id == k + 1)
      && (forall k :: 0 <= k < |studentProfiles| ==> studentProfiles[k].id == k + 1)
      && (forall k :: 0 <= k < |sponsorProfiles| ==> sponsorProfiles[k].id == k + 1)
      && (forall k :: 0 <= k < |fundingApplications| ==> fundingApplications[k].id == k + 1)
      && (forall k :: 0 <= k < |sponsorships| ==> sponsorships[k].id == k + 1)
      && (forall k :: 0 <= k < |microJobs| ==> microJobs[k].id == k + 1)
    }

    /** The whole store as one value. */
    function State(): Tables
      reads this
    {
      Tables(users, studentProfiles, sponsorProfiles, fundingApplications, sponsorships, microJobs,
             currentUserId, currentStudentProfileId, currentSponsorProfileId,
             currentFundingApplicationId, currentSponsorshipId, currentMicroJobId)
    }

    /** An empty store whose counters all start at 1. */
    constructor ()
      ensures Valid()
      ensures users == [] && studentProfiles == [] && sponsorProfiles == [] && fundingApplications == []
      ensures sponsorships == [] && microJobs == []
      ensures currentUserId == 1 && currentStudentProfileId == 1 && currentSponsorProfileId == 1
      ensures currentFundingApplicationId == 1 && currentSponsorshipId == 1 && currentMicroJobId == 1
    {
      users, studentProfiles, sponsorProfiles := [], [], [];
      fundingApplications, sponsorships, microJobs := [], [], [];
      currentUserId, currentStudentProfileId, currentSponsorProfileId := 1, 1, 1;
      currentFundingApplicationId, currentSponsorshipId, currentMicroJobId := 1, 1, 1;
    }

    // ---------------------------------------------------------------- users

    /** `getAllUsers`: every user, in creation order. */
    function GetAllUsers(): (r: seq<User>)
      reads this
      requires Valid()
      ensures r == users
      ensures |r| == currentUserId - 1 && forall k :: 0 <= k < |r| ==> r[k].id == k + 1
    {
      users
    }

    /** `getUser(id)`: the user with that id, if there is one. */
    function GetUser(id: int): (r: Option<User>)
      reads this
      requires Valid()
      ensures r.Some? <==> exists k :: 0 <= k < |users| && users[k].id == id
      ensures r.Some? ==> r.value in users && r.value.id == id
    {
      At(users, id)
    }

    /** `getUserByUsername`: the first user in creation order with exactly that username. */
    function GetUserByUsername(username: string): (r: Option<User>)
      reads this
      ensures r.None? <==> forall k :: 0 <= k < |users| ==> users[k].data.username != username
      ensures r.Some? ==> exists k :: 0 <= k < |users| && users[k] == r.value && r.value.data.username == username &&
                                      forall j :: 0 <= j < k ==> users[j].data.username != username
    {
      Find(users, (u: User) => u.data.username == username)
    }

    /** `getUserByEmail`: the first user in creation order with exactly that email. */
    function GetUserByEmail(email: string): (r: Option<User>)
      reads this
      ensures r.None? <==> forall k :: 0 <= k < |users| ==> users[k].data.email != email
      ensures r.Some? ==> exists k :: 0 <= k < |users| && users[k] == r.value && r.value.data.email == email &&
                                      forall j :: 0 <= j < k ==> users[j].data.email != email
    {
      Find(users, (u: User) => u.data.email == email)
    }

    /** `createUser`: the next user id, the supplied fields, and `profileCompleted` false. */
    method CreateUser(insertUser: InsertUser) returns (user: User)
      requires Valid()
      modifies this
      ensures Valid()
      ensures user == User(old(currentUserId), insertUser, false)
      ensures forall k :: 0 <= k < |old(users)| ==> old(users)[k].id < user.id
      ensures State() == old(State()).(users := old(users) + [user], currentUserId := old(currentUserId) + 1)
    {
      var id := currentUserId;
      currentUserId := currentUserId + 1;
      user := User(id, insertUser, false);
      users := users + [user];
    }

    /** `updateUser`: shallow-merge into the user with that id, in its place; nothing for a missing id. */
    method UpdateUser(id: int, data: UserPatch) returns (r: Option<User>)
      requires Valid()
      modifies this
      ensures Valid()
      ensures old(GetUser(id)).None? ==> r.None? && State() == old(State())
      ensures old(GetUser(id)).Some? ==>
        && r == Some(MergeUser(old(GetUser(id)).value, data))
        && State() == old(State()).(users := old(users)[id - 1 := r.value])
    {
      var user := GetUser(id);
      if user.None? {
        return None;
      }
      var updated := MergeUser(user.value, data);
      users := users[id - 1 := updated];
      r := Some(updated);
    }

    // ---------------------------------------------------------------- student profiles

    /** `getStudentProfile(userId)`: the first student profile in creation order owned by that user. */
    function GetStudentProfile(userId: int): (r: Option<StudentProfile>)
      reads this
      ensures r.None? <==> forall k :: 0 <= k < |studentProfiles| ==> studentProfiles[k].data.userId != userId
      ensures r.Some? ==> exists k :: 0 <= k < |studentProfiles| && studentProfiles[k] == r.value &&
                                      r.value.data.userId == userId &&
                                      forall j :: 0 <= j < k ==> studentProfiles[j].data.userId != userId
    {
      Find(studentProfiles, (p: StudentProfile) => p.data.userId == userId)
    }

    /** `createStudentProfile`: the next profile id and the supplied fields; duplicates are not refused. */
    method CreateStudentProfile(profile: InsertStudentProfile) returns (p: StudentProfile)
      requires Valid()
      modifies this
      ensures Valid()
      ensures p == StudentProfile(old(currentStudentProfileId), profile)
      ensures State() == old(State()).(studentProfiles := old(studentProfiles) + [p],
                                      currentStudentProfileId := old(currentStudentProfileId) + 1)
    {
      var id := currentStudentProfileId;
      currentStudentProfileId := currentStudentProfileId + 1;
      p := StudentProfile(id, profile);
      studentProfiles := studentProfiles + [p];
    }

    /** `updateStudentProfile(userId, data)`: shallow-merge into the user's first profile, in its place. */
    method UpdateStudentProfile(userId: int, data: StudentProfilePatch) returns (r: Option<StudentProfile>)
      requires Valid()
      modifies this
      ensures Valid()
      ensures old(GetStudentProfile(userId)).None? ==> r.None? && State() == old(State())
      ensures old(GetStudentProfile(userId)).Some? ==>
        var p := old(GetStudentProfile(userId)).value;
        && 1 <= p.id <= |old(studentProfiles)|
        && r == Some(MergeStudentProfile(p, data))
        && State() == old(State()).(studentProfiles := old(studentProfiles)[p.id - 1 := r.value])
    {
      var profile := GetStudentProfile(userId);
      if profile.None? {
        return None;
      }
      var p := profile.value;
      var updated := MergeStudentProfile(p, data);
      studentProfiles := studentProfiles[p.id - 1 := updated];
      r := Some(updated);
    }

    // ---------------------------------------------------------------- sponsor profiles

    /** `getSponsorProfile(userId)`: the first sponsor profile in creation order owned by that user. */
    function GetSponsorProfile(userId: int): (r: Option<SponsorProfile>)
      reads this
      ensures r.None? <==> forall k :: 0 <= k < |sponsorProfiles| ==> sponsorProfiles[k].data.userId != userId
      ensures r.Some? ==> exists k :: 0 <= k < |sponsorProfiles| && sponsorProfiles[k] == r.value &&
                                      r.value.data.userId == userId &&
                                      forall j :: 0 <= j < k ==> sponsorProfiles[j].data.userId != userId
    {
      Find(sponsorProfiles, SponsorOwnedBy(userId))
    }

    /** `createSponsorProfile`: the next profile id and the supplied fields; duplicates are not refused. */
    method CreateSponsorProfile(profile: InsertSponsorProfile) returns (p: SponsorProfile)
      requires Valid()
      modifies this
      ensures Valid()
      ensures p == SponsorProfile(old(currentSponsorProfileId), profile)
      ensures State() == old(State()).(sponsorProfiles := old(sponsorProfiles) + [p],
                                      currentSponsorProfileId := old(currentSponsorProfileId) + 1)
    {
      var id := currentSponsorProfileId;
      currentSponsorProfileId := currentSponsorProfileId + 1;
      p := SponsorProfile(id, profile);
      sponsorProfiles := sponsorProfiles + [p];
    }

    /** `updateSponsorProfile(userId, data)`: shallow-merge into the user's first profile, in its place. */
    method UpdateSponsorProfile(userId: int, data: SponsorProfilePatch) returns (r: Option<SponsorProfile>)
      requires Valid()
      modifies this
      ensures Valid()
      ensures old(GetSponsorProfile(userId)).None? ==> r.None? && State() == old(State())
      ensures old(GetSponsorProfile(userId)).Some? ==>
        var p := old(GetSponsorProfile(userId)).value;
        && 1 <= p.id <= |old(sponsorProfiles)|
        && r == Some(MergeSponsorProfile(p, data))
        && State() == old(State()).(sponsorProfiles := old(sponsorProfiles)[p.id - 1 := r.value])
    {
      var profile := GetSponsorProfile(userId);
      if profile.None? {
        return None;
      }
      var p := profile.value;
      var updated := MergeSponsorProfile(p, data);
      sponsorProfiles := sponsorProfiles[p.id - 1 := updated];
      r := Some(updated);
    }

    // ---------------------------------------------------------------- funding applications

    /** `getFundingApplication(id)`. */
    function GetFundingApplication(id: int): (r: Option<FundingApplication>)
      reads this
      requires Valid()
      ensures r.Some? <==> exists k :: 0 <= k < |fundingApplications| && fundingApplications[k].id == id
      ensures r.Some? ==> r.value in fundingApplications && r.value.id == id
    {
      At(fundingApplications, id)
    }

    /** `getStudentApplications(studentId)`: exactly that student's applications, in creation order. */
    function GetStudentApplications(studentId: int): (r: seq<FundingApplication>)
      reads this
      ensures forall k :: 0 <= k < |r| ==> r[k].data.studentId == studentId
      ensures forall k :: 0 <= k < |fundingApplications| && fundingApplications[k].data.studentId == studentId
                ==> fundingApplications[k] in r
      ensures IsSubsequence(r, fundingApplications)
    {
      Filter(fundingApplications, ForStudent(studentId))
    }

    /** `createFundingApplication`: the next id, the supplied fields, status `"pending"`, created now. */
    method CreateFundingApplication(application: InsertFundingApplication, now: Timestamp)
      returns (a: FundingApplication)
      requires Valid()
      modifies this
      ensures Valid()
      ensures a == FundingApplication(old(currentFundingApplicationId), application, "pending", now)
      ensures State() == old(State()).(fundingApplications := old(fundingApplications) + [a],
                                      currentFundingApplicationId := old(currentFundingApplicationId) + 1)
    {
      var id := currentFundingApplicationId;
      currentFundingApplicationId := currentFundingApplicationId + 1;
      a := FundingApplication(id, application, "pending", now);
      fundingApplications := fundingApplications + [a];
    }

    /** `updateFundingApplicationStatus`: only that application's `status` changes; any value is taken. */
    method UpdateFundingApplicationStatus(id: int, status: string) returns (r: Option<FundingApplication>)
      requires Valid()
      modifies this
      ensures Valid()
      ensures old(GetFundingApplication(id)).None? ==> r.None? && State() == old(State())
      ensures old(GetFundingApplication(id)).Some? ==>
        && r == Some(old(GetFundingApplication(id)).value.(status := status))
        && State() == old(State()).(fundingApplications := old(fundingApplications)[id - 1 := r.value])
    {
      var application := GetFundingApplication(id);
      if application.None? {
        return None;
      }
      var updated := application.value.(status := status);
      fundingApplications := fundingApplications[id - 1 := updated];
      r := Some(updated);
    }

    /** `getAllPendingApplications`: exactly the pending applications, in creation order. */
    function GetAllPendingApplications(): (r: seq<FundingApplication>)
      reads this
      ensures forall k :: 0 <= k < |r| ==> r[k].status == "pending"
      ensures forall k :: 0 <= k < |fundingApplications| && fundingApplications[k].status == "pending"
                ==> fundingApplications[k] in r
      ensures IsSubsequence(r, fundingApplications)
    {
      Filter(fundingApplications, IsPendingApplication())
    }

    // ---------------------------------------------------------------- sponsorships

    /** `createSponsorship`: the next id, the supplied fields, status `"active"`, no payment yet, created now. */
    method CreateSponsorship(sponsorship: InsertSponsorship, now: Timestamp) returns (s: Sponsorship)
      requires Valid()
      modifies this
      ensures Valid()
      ensures s == Sponsorship(old(currentSponsorshipId), sponsorship, "active", "", now)
      ensures State() == old(State()).(sponsorships := old(sponsorships) + [s],
                                      currentSponsorshipId := old(currentSponsorshipId) + 1)
    {
      var id := currentSponsorshipId;
      currentSponsorshipId := currentSponsorshipId + 1;
      s := Sponsorship(id, sponsorship, "active", "", now);
      sponsorships := sponsorships + [s];
    }

    /** `getSponsorships(sponsorId)`: exactly that sponsor's sponsorships, in creation order. */
    function GetSponsorships(sponsorId: int): (r: seq<Sponsorship>)
      reads this
      ensures forall k :: 0 <= k < |r| ==> r[k].data.sponsorId == sponsorId
      ensures forall k :: 0 <= k < |sponsorships| && sponsorships[k].data.sponsorId == sponsorId
                ==> sponsorships[k] in r
      ensures IsSubsequence(r, sponsorships)
    {
      Filter(sponsorships, (s: Sponsorship) => s.data.sponsorId == sponsorId)
    }

    /** `getStudentSponsorships(studentId)`: exactly that student's sponsorships, in creation order. */
    function GetStudentSponsorships(studentId: int): (r: seq<Sponsorship>)
      reads this
      ensures forall k :: 0 <= k < |r| ==> r[k].data.studentId == studentId
      ensures forall k :: 0 <= k < |sponsorships| && sponsorships[k].data.studentId == studentId
                ==> sponsorships[k] in r
      ensures IsSubsequence(r, sponsorships)
    {
      Filter(sponsorships, (s: Sponsorship) => s.data.studentId == studentId)
    }

    /** `updateSponsorshipPaymentId`: only that sponsorship's `paymentId` changes. */
    method UpdateSponsorshipPaymentId(id: int, paymentId: string) returns (r: Option<Sponsorship>)
      requires Valid()
      modifies this
      ensures Valid()
      ensures At(old(sponsorships), id).None? ==> r.None? && State() == old(State())
      ensures At(old(sponsorships), id).Some? ==>
        && r == Some(old(sponsorships)[id - 1].(paymentId := paymentId))
        && State() == old(State()).(sponsorships := old(sponsorships)[id - 1 := r.value])
    {
      var sponsorship := At(sponsorships, id);
      if sponsorship.None? {
        return None;
      }
      var updated := sponsorship.value.(paymentId := paymentId);
      sponsorships := sponsorships[id - 1 := updated];
      r := Some(updated);
    }

    // ---------------------------------------------------------------- micro-jobs

    /** `createMicroJob`: the next id, the supplied fields, status `"open"`, created now. */
    method CreateMicroJob(job: InsertMicroJob, now: Timestamp) returns (j: MicroJob)
      requires Valid()
      modifies this
      ensures Valid()
      ensures j == MicroJob(old(currentMicroJobId), job, "open", now)
      ensures State() == old(State()).(microJobs := old(microJobs) + [j],
                                      currentMicroJobId := old(currentMicroJobId) + 1)
    {
      var id := currentMicroJobId;
      currentMicroJobId := currentMicroJobId + 1;
      j := MicroJob(id, job, "open", now);
      microJobs := microJobs + [j];
    }

    /** `getAllMicroJobs`: every job, in creation order. */
    function GetAllMicroJobs(): (r: seq<MicroJob>)
      reads this
      requires Valid()
      ensures r == microJobs
      ensures |r| == currentMicroJobId - 1 && forall k :: 0 <= k < |r| ==> r[k].id == k + 1
    {
      microJobs
    }

    /** `getMicroJob(id)`. */
    function GetMicroJob(id: int): (r: Option<MicroJob>)
      reads this
      requires Valid()
      ensures r.Some? <==> exists k :: 0 <= k < |microJobs| && microJobs[k].id == id
      ensures r.Some? ==> r.value in microJobs && r.value.id == id
    {
      At(microJobs, id)
    }

    /** `updateMicroJobStatus`: only that job's `status` changes; any value is taken. */
    method UpdateMicroJobStatus(id: int, status: string) returns (r: Option<MicroJob>)
      requires Valid()
      modifies this
      ensures Valid()
      ensures old(GetMicroJob(id)).None? ==> r.None? && State() == old(State())
      ensures old(GetMicroJob(id)).Some? ==>
        && r == Some(old(GetMicroJob(id)).value.(status := status))
        && State() == old(State()).(microJobs := old(microJobs)[id - 1 := r.value])
    {
      var job := GetMicroJob(id);
      if job.None? {
        return None;
      }
      var updated := job.value.(status := status);
      microJobs := microJobs[id - 1 := updated];
      r := Some(updated);
    }

    // ---------------------------------------------------------------- matching helpers

    /** `getAllStudentsForMatching`: the loop over the profiles, pushing those whose owner exists. */
    method GetAllStudentsForMatching() returns (students: seq<StudentWithUser>)
      requires Valid()
      ensures students == StudentsForMatching(studentProfiles, users)
    {
      students := [];
      for k := 0 to |studentProfiles|
        invariant students == StudentsForMatching(studentProfiles[..k], users)
      {
        var profile := studentProfiles[k];
        assert studentProfiles[..k + 1][..k] == studentProfiles[..k];
        var user := GetUser(profile.data.userId);
        if user.Some? {
          students := students + [StudentWithUser(profile, user.value)];
        }
      }
      assert studentProfiles[..|studentProfiles|] == studentProfiles;
    }

    /** `getMatchingStudentsForSponsor(userId)`: `[]` without a sponsor profile, else the candidate loop. */
    method GetMatchingStudentsForSponsor(userId: int) returns (students: seq<StudentCandidate>)
      requires Valid()
      ensures students == MatchingStudents(State(), userId)
    {
      var sponsorProfile := GetSponsorProfile(userId);
      if sponsorProfile.None? {
        return [];
      }
      students := [];
      for k := 0 to |studentProfiles|
        invariant students == Candidates(studentProfiles[..k], users, fundingApplications)
      {
        var profile := studentProfiles[k];
        assert studentProfiles[..k + 1] == studentProfiles[..k] + [profile];
        CandidatesSnoc(studentProfiles[..k], profile, users, fundingApplications);
        var user := GetUser(profile.data.userId);
        if user.Some? {
          var applications := GetStudentApplications(profile.data.userId);
          var pendingApplication := Find(applications, IsPendingApplication());
          students := students + [StudentCandidate(profile, user.value, pendingApplication)];
        }
      }
      assert studentProfiles[..|studentProfiles|] == studentProfiles;
    }
  }
}
