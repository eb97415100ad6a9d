# EduBridge Connect — a verified model of the record store, request rules and page helpers

EduBridge Connect matches students who need funding with sponsors. Students publish a
profile, apply for funding and take micro-jobs. Sponsors publish a profile, browse a
ranked list of students and create sponsorships.

This project models the following parts of the application in Dafny and proves
properties of the model:

- the server's in-memory record store (`MemStorage`);
- the business rules of its request handlers, including the two "AI matching" rankings;
- the shared entity schema;
- the small pure computations of five client pages.

Modules, one per file:

- `Wrappers` (wrappers.dfy) has `Option` and `Field`. A `Field` is a key that is absent from, or present in, a
  partial update. It also has the JavaScript truthiness tests used by the source.
- `Seqs` (seqs.dfy) has `Array.prototype.find` and `filter` over sequences, with their contracts.
- `Text` (text.dfy) models the string operations:
  - `split` and `join`;
  - `trim` over the ECMAScript white-space set;
  - `includes`;
  - ASCII case mapping and decimal rendering;
  - the forms' comma-list transform and its round trip.
- `Schema` (schema.dfy) covers:
  - the records and their insert shapes;
  - reading a raw request body into an insert shape, where the omitted keys are stripped;
  - partial updates and their shallow merge.
- `Storage` (storage.dfy) is the class `MemStorage`. Its six tables are sequences in creation order, and it keeps
  six id counters.
  - The ghost predicate `Valid` holds each counter at the table length plus one. It also ties each record's id
    to its position.
  - The two matching joins are loops, proved equal to the functions `StudentsForMatching` and `Candidates`.
- `Ranking` (ranking.dfy) holds:
  - the two comparators;
  - a stable insertion sort, both as a function (`SortBy`) and as an in-place array method (`SortInPlace`);
  - the proofs that the sort permutes its input, ranks it and keeps ties in order;
  - the projections to the JSON the rankings return.
- `Routes` (routes.dfy) has one method per handler over a `MemStorage`. Each returns a `Reply`: a status code
  with either the payload or the refusal reason.
- The client pages:
  - `Dashboards` (dashboards.dfy) has the filters, totals, funding progress and `getInitials`;
  - `MicroJobsPage` (micro_jobs.dfy) has the search and the status tabs;
  - `StudentProfileForm` (student_profile.dfy) and `SponsorProfileForm` (sponsor_profile.dfy) have the
    validation rules, the loading of a stored profile into the form, and the POST-or-PUT
    submission.

Where a code comment and the code disagree, the model follows the code:

- `getMatchingStudentsForSponsor` says "latest pending application", but `find` returns the first pending
  application in creation order.
- The age rule's message says "less than 100", but `max(100)` accepts 100.
- The schema declares `fundingApplications.studentId` as a reference to a student profile's id. The matching
  join compares it with the profile's `userId`, and the model does the same.

## Model

| member | source | states |
|---|---|---|
| Seqs.Find | EduBridgeConnect/server/storage.ts:91-95 | `Array.prototype.find`: none exactly when no element satisfies the test; otherwise the first element in order that does |
| Seqs.Filter | EduBridgeConnect/server/storage.ts:170-174 | `Array.prototype.filter`: a subsequence of the input holding only elements that pass, and every element that passes; how often each is kept is stated by `FilterCounts` |
| Seqs.FilterCounts | EduBridgeConnect/server/storage.ts:170-174 | `filter` keeps each passing element exactly as often as it occurs in the input, and no failing element |
| Storage.MemStorage.constructor | EduBridgeConnect/server/storage.ts:67-80 | all six tables start empty and all six counters start at 1 |
| Storage.MemStorage.GetAllUsers | EduBridgeConnect/server/storage.ts:83-85 | exactly the users table: every user, in creation order, the k-th with id k+1 |
| Storage.MemStorage.GetUser | EduBridgeConnect/server/storage.ts:87-89 | a user comes back exactly when one has that id, and it is that user |
| Storage.MemStorage.GetUserByUsername | EduBridgeConnect/server/storage.ts:91-95 | none exactly when no username is equal; otherwise the first user in creation order whose username is exactly the key |
| Storage.MemStorage.GetUserByEmail | EduBridgeConnect/server/storage.ts:97-101 | the same first-match rule for the email |
| Storage.MemStorage.CreateUser | EduBridgeConnect/server/storage.ts:103-108 | the stored user takes the counter as id, the input fields and `profileCompleted` false; its id exceeds every earlier id; the counter goes up by one; nothing else changes |
| Storage.MemStorage.UpdateUser | EduBridgeConnect/server/storage.ts:110-117 | a missing id gives none and no change; otherwise the shallow merge replaces the user in place, and nothing else changes |
| Storage.MemStorage.GetStudentProfile | EduBridgeConnect/server/storage.ts:120-124 | the first student profile in creation order owned by the user, or none when no profile is |
| Storage.MemStorage.CreateStudentProfile | EduBridgeConnect/server/storage.ts:126-131 | appended with the next id and the input fields; no check for an existing profile |
| Storage.MemStorage.UpdateStudentProfile | EduBridgeConnect/server/storage.ts:133-140 | no profile gives none and no change; otherwise the first profile is merged in its own place, and its id keeps its position |
| Storage.MemStorage.GetSponsorProfile | EduBridgeConnect/server/storage.ts:143-147 | the first sponsor profile owned by the user, or none |
| Storage.MemStorage.CreateSponsorProfile | EduBridgeConnect/server/storage.ts:149-154 | appended with the next id and the input fields |
| Storage.MemStorage.UpdateSponsorProfile | EduBridgeConnect/server/storage.ts:156-163 | none and no change, or the first profile merged in place |
| Storage.MemStorage.GetFundingApplication | EduBridgeConnect/server/storage.ts:166-168 | the application with that id, when one exists |
| Storage.MemStorage.GetStudentApplications | EduBridgeConnect/server/storage.ts:170-174 | exactly the applications with that `studentId`, as a subsequence in creation order |
| Storage.MemStorage.CreateFundingApplication | EduBridgeConnect/server/storage.ts:176-186 | next id, input fields, status "pending", the supplied clock value; counter up by one |
| Storage.MemStorage.UpdateFundingApplicationStatus | EduBridgeConnect/server/storage.ts:188-195 | only that record's `status` changes, to any given value; a missing id changes nothing |
| Storage.MemStorage.GetAllPendingApplications | EduBridgeConnect/server/storage.ts:197-201 | only applications whose status is "pending", every such one, in creation order |
| Storage.MemStorage.CreateSponsorship | EduBridgeConnect/server/storage.ts:204-215 | next id, input fields, status "active", `paymentId` "" |
| Storage.MemStorage.GetSponsorships | EduBridgeConnect/server/storage.ts:217-221 | exactly the sponsor's sponsorships, in creation order |
| Storage.MemStorage.GetStudentSponsorships | EduBridgeConnect/server/storage.ts:223-227 | exactly the student's sponsorships, in creation order |
| Storage.MemStorage.UpdateSponsorshipPaymentId | EduBridgeConnect/server/storage.ts:229-236 | only that record's `paymentId` changes |
| Storage.MemStorage.CreateMicroJob | EduBridgeConnect/server/storage.ts:239-249 | next id, input fields, status "open" |
| Storage.MemStorage.GetAllMicroJobs | EduBridgeConnect/server/storage.ts:251-253 | exactly the jobs table: every job in creation order, the k-th with id k+1 |
| Storage.MemStorage.GetMicroJob | EduBridgeConnect/server/storage.ts:255-257 | the job with that id, when one exists |
| Storage.MemStorage.UpdateMicroJobStatus | EduBridgeConnect/server/storage.ts:259-266 | only that job's `status` changes |
| Storage.MemStorage.GetAllStudentsForMatching | EduBridgeConnect/server/storage.ts:269-283 | the loop builds exactly `StudentsForMatching` of the tables |
| Storage.StudentsForMatching | EduBridgeConnect/server/storage.ts:269-283 | one entry per profile whose owner resolves, in store order, carrying that owner; unresolved profiles are dropped |
| Storage.MemStorage.GetMatchingStudentsForSponsor | EduBridgeConnect/server/storage.ts:285-312 | the loop builds exactly `MatchingStudents` of the store |
| Storage.MatchingStudents | EduBridgeConnect/server/storage.ts:287-292 | a user without a sponsor profile gets the empty list |
| Storage.Candidates | EduBridgeConnect/server/storage.ts:296-309 | one entry per resolving profile in store order, with the first application in creation order that is pending and whose `studentId` is the profile's `userId` |
| Storage.CandidatesSnoc | EduBridgeConnect/server/storage.ts:296-309 | one more profile adds at most one entry, at the end |
| Schema.ParseInsertUser | EduBridgeConnect/shared/schema.ts:78-81 | accepted exactly when the five required columns are there; the fields are carried over |
| Schema.ParseInsertStudentProfile | EduBridgeConnect/shared/schema.ts:83-85 | accepted exactly when `userId` is there; every other column is carried over as given |
| Schema.ParseInsertSponsorProfile | EduBridgeConnect/shared/schema.ts:87-89 | accepted exactly when `userId` is there |
| Schema.ParseInsertFundingApplication | EduBridgeConnect/shared/schema.ts:91-95 | accepted exactly when `studentId`, `amount` and `purpose` are there |
| Schema.ParseInsertSponsorship | EduBridgeConnect/shared/schema.ts:97-102 | accepted exactly when `sponsorId`, `studentId` and `amount` are there; `applicationId` may be null |
| Schema.ParseInsertMicroJob | EduBridgeConnect/shared/schema.ts:104-108 | accepted exactly when `title`, `description`, `postedBy` and `compensation` are there |
| Schema.UserBodyOmitsServerFields | EduBridgeConnect/shared/schema.ts:78-81 | a client-sent `id` or `profileCompleted` has no effect on the parsed insert |
| Schema.ProfileBodiesOmitId | EduBridgeConnect/shared/schema.ts:83-89 | a client-sent `id` has no effect on either profile insert |
| Schema.ApplicationBodyOmitsServerFields | EduBridgeConnect/shared/schema.ts:91-95 | a client-sent `id`, `status` or `createdAt` has no effect |
| Schema.SponsorshipBodyOmitsServerFields | EduBridgeConnect/shared/schema.ts:97-102 | a client-sent `id`, `status`, `paymentId` or `createdAt` has no effect |
| Schema.MicroJobBodyOmitsServerFields | EduBridgeConnect/shared/schema.ts:104-108 | a client-sent `id`, `status` or `createdAt` has no effect |
| Schema.MergeUser | EduBridgeConnect/server/storage.ts:114 | the merged user keeps its id |
| Schema.MergeStudentProfile | EduBridgeConnect/server/storage.ts:137 | the merged profile keeps its id |
| Schema.MergeSponsorProfile | EduBridgeConnect/server/storage.ts:160 | the merged profile keeps its id |
| Schema.StudentMergeIsShallow | EduBridgeConnect/server/storage.ts:137 | key by key: an absent key keeps the stored value, and a present key replaces it wholesale |
| Schema.StudentMergeIdempotent | EduBridgeConnect/server/storage.ts:137 | merging the same update twice is merging it once |
| Schema.StudentMergeCompose | EduBridgeConnect/server/storage.ts:137 | two successive merges equal one merge of the combined update, where the later keys win |
| Schema.BioOnlyPatch | EduBridgeConnect/server/storage.ts:137 | an update carrying only `bio` changes only `bio` |
| Schema.SponsorMergeIsShallow | EduBridgeConnect/server/storage.ts:160 | the same key-by-key rule for sponsor profiles |
| Schema.CompleteProfileOnlySetsFlag | EduBridgeConnect/server/routes.ts:166 | the `{ profileCompleted: true }` update changes that flag and nothing else |
| Schema.MergeStudentProfileAsSent | EduBridgeConnect/server/routes.ts:203 | the PUT handler merges the raw body, which can include an `id` key |
| Schema.MergeSponsorProfileAsSent | EduBridgeConnect/server/routes.ts:271 | the same for the sponsor PUT |
| Schema.PutBodyRewritesId | EduBridgeConnect/server/routes.ts:203 | a body `{ "id": 7 }` makes the record stored under key 1 claim id 7 |
| Ranking.SortBy | EduBridgeConnect/server/routes.ts:454 | the array sort as a stable insertion sort, of the input's length; its properties are `SortPermutes`, `SortRanked` and `SortStable` |
| Ranking.SortPermutes | EduBridgeConnect/server/routes.ts:454 | the sort only rearranges: same multiset |
| Ranking.SortRanked | EduBridgeConnect/server/routes.ts:454 | under a strict weak order, no element follows one that goes after it |
| Ranking.SortStable | EduBridgeConnect/server/routes.ts:454 | elements tied with one another keep their input order |
| Ranking.InsertPermutes | EduBridgeConnect/server/routes.ts:454 | one insertion adds exactly the inserted element |
| Ranking.InsertRanked | EduBridgeConnect/server/routes.ts:454 | inserting into a ranked list keeps it ranked |
| Ranking.InsertStable | EduBridgeConnect/server/routes.ts:454 | an insertion never passes over an element tied with it |
| Ranking.SortInPlace | EduBridgeConnect/server/routes.ts:454 | the in-place array sort leaves exactly `SortBy` of the old contents |
| Ranking.InsertInto | EduBridgeConnect/server/routes.ts:454 | shifting one element into the sorted prefix is `Insert` |
| Ranking.NeedCompare | EduBridgeConnect/server/routes.ts:455-457 | negative exactly when the first need is truthy and the second is falsy or smaller; 0 exactly for equal truthy needs; 1 whenever the first need is falsy |
| Ranking.CompareStudents | EduBridgeConnect/server/routes.ts:454-458 | the first student goes first exactly when its need is truthy and the other's is falsy or smaller; a tie exactly for the same truthy need |
| Ranking.CompareCandidates | EduBridgeConnect/server/routes.ts:504-513 | the first candidate goes first exactly when it alone has an application, or both agree on having one and its need goes first; never a tie when only one has an application |
| Ranking.ComparatorsAreRankingOrders | EduBridgeConnect/server/routes.ts:504-513 | both comparators' "goes first" relations are strict weak orders |
| Ranking.StudentTies | EduBridgeConnect/server/routes.ts:454-458 | two students tie exactly when neither has a need or both have the same need |
| Ranking.CandidateTies | EduBridgeConnect/server/routes.ts:504-513 | candidates tie exactly when they agree on having an application and tie on need |
| Ranking.StudentRanking | EduBridgeConnect/server/routes.ts:454-458 | a permutation in which everyone with a truthy need comes before everyone without, larger needs first |
| Ranking.StudentTiesKeepOrder | EduBridgeConnect/server/routes.ts:454-458 | students with the same truthy need keep store order |
| Ranking.CandidateRanking | EduBridgeConnect/server/routes.ts:504-513 | a permutation in which candidates with an application come first, then the need order inside each group |
| Ranking.CandidateTiesKeepOrder | EduBridgeConnect/server/routes.ts:504-513 | tied candidates with a truthy need keep store order |
| Ranking.MatchScore | EduBridgeConnect/server/routes.ts:467 | 0.5 for a falsy need; otherwise the score times 1000 is the need |
| Ranking.ToMatchResult | EduBridgeConnect/server/routes.ts:461-468 | the user's id and display name, the profile, and the score of the profile's need; no password |
| Ranking.ToRecommendation | EduBridgeConnect/server/routes.ts:516-525 | the same fields, plus the candidate's application and a flag that is true exactly when there is one |
| Ranking.MatchScoresDescend | EduBridgeConnect/server/routes.ts:461-469 | one output per student; a student without a need scores 0.5; down the list the score of a student with a need never rises |
| Ranking.RecommendationFlags | EduBridgeConnect/server/routes.ts:516-526 | `hasPendingApplication` is exactly whether an application is attached, and that application is carried over |
| Routes.WithoutPassword | EduBridgeConnect/server/routes.ts:93 | every user field except the password |
| Routes.Register | EduBridgeConnect/server/routes.ts:74-98 | four outcomes: invalid body 400; taken username 400, checked before the email; taken email 400; each refusal leaves the store unchanged. Success returns 201 with the new user minus the password, appended, and usernames and emails stay unique |
| Routes.LoginLookup | EduBridgeConnect/server/routes.ts:111-117 | a stored user or none. When some username matches, the first user with that username. When none does and the name contains "@", a user comes back exactly when some email matches, and it is the first such user. When none does and there is no "@", none |
| Routes.Login | EduBridgeConnect/server/routes.ts:100-144 | a missing or empty field gives 400; no such user or a different password gives 401; otherwise 200 with a stored user whose password matched, minus the password |
| Routes.CreateStudentProfile | EduBridgeConnect/server/routes.ts:147-172 | 404 for an unknown user, 403 for a non-student, both without change; otherwise the profile is appended (duplicates too) and the owner's flag is set true |
| Routes.GetStudentProfile | EduBridgeConnect/server/routes.ts:174-192 | 200 with the user's first profile, or 404 "Student profile not found" |
| Routes.UpdateStudentProfile | EduBridgeConnect/server/routes.ts:194-212 | 200 with the merged profile stored in place, or 404 without change. The body is a typed update without an `id` key: the corrected route of the second Findings row |
| Routes.CreateSponsorProfile | EduBridgeConnect/server/routes.ts:215-240 | as for students, for the role "sponsor" |
| Routes.GetSponsorProfile | EduBridgeConnect/server/routes.ts:242-260 | 200 with the first sponsor profile, or 404 |
| Routes.UpdateSponsorProfile | EduBridgeConnect/server/routes.ts:262-280 | 200 with the merged profile, or 404 without change. The body is a typed update without an `id` key, as for students |
| Routes.CreateFundingApplication | EduBridgeConnect/server/routes.ts:283-294 | 400 for an invalid body; otherwise 201 with the stored pending application |
| Routes.UpdateFundingApplicationStatus | EduBridgeConnect/server/routes.ts:322-345 | a status outside pending/approved/rejected gives 400, an unknown id 404, both without change; any allowed status replaces any current one |
| Routes.CreateSponsorship | EduBridgeConnect/server/routes.ts:348-364 | the sponsorship is appended. With a truthy `applicationId` naming a stored application, that application becomes "approved". No other application changes |
| Routes.CreateMicroJob | EduBridgeConnect/server/routes.ts:399-410 | 201 with the stored open job |
| Routes.UpdateMicroJobStatus | EduBridgeConnect/server/routes.ts:422-445 | the same whitelist rule with open/assigned/completed; 404 "Micro-job not found" |
| Routes.MatchStudents | EduBridgeConnect/server/routes.ts:448-475 | 200 with the projection of the joined students sorted by the need comparator |
| Routes.SponsorRecommendations | EduBridgeConnect/server/routes.ts:477-532 | 404 for an unknown user; 200 with [] without a sponsor profile; otherwise the ranked, projected candidates |
| Text.Split | EduBridgeConnect/client/src/pages/SponsorDashboard.tsx:155 | one more part than separators, no part contains the separator, and joining the parts with the separator gives the input back |
| Text.Join | EduBridgeConnect/client/src/pages/SponsorDashboard.tsx:157 | the parts with the separator between each two; its partner is `Split`, whose parts join back to the input |
| Text.TrimStart | EduBridgeConnect/client/src/pages/StudentProfile.tsx:45 | a suffix of the input not starting with white space, and all it drops is white space |
| Text.TrimEnd | EduBridgeConnect/client/src/pages/StudentProfile.tsx:45 | a prefix of the input not ending with white space, and all it drops is white space |
| Text.Trim | EduBridgeConnect/client/src/pages/StudentProfile.tsx:45 | no white space at either end, and the input is the result with only white space before it (exactly what `TrimStart` drops) and only white space after it |
| Text.TrimTrimmed | EduBridgeConnect/client/src/pages/StudentProfile.tsx:45 | a string with no white space at either end is left as it is |
| Text.TrimPadded | EduBridgeConnect/client/src/pages/StudentProfile.tsx:45 | white space in front of a trimmed string is removed |
| Text.TrimStartPadded | EduBridgeConnect/client/src/pages/StudentProfile.tsx:45 | `trimStart` drops exactly the white space in front of a string that does not start with white space |
| Text.ParseCommaList | EduBridgeConnect/client/src/pages/StudentProfile.tsx:45 | commas + 1 entries, each trimmed and comma-free |
| Text.EmptyParsesToOneBlank | EduBridgeConnect/client/src/pages/StudentProfile.tsx:45 | "" parses to [""] |
| Text.CommaListRoundTrip | EduBridgeConnect/client/src/pages/StudentProfile.tsx:105 | parsing the ", "-join of a non-empty list of clean entries gives the list back |
| Text.Contains | EduBridgeConnect/client/src/pages/MicroJobs.tsx:73-77 | true exactly when the needle occurs at some position |
| Text.ToLower | EduBridgeConnect/client/src/pages/MicroJobs.tsx:73-77 | the same length, each character mapped to lower case (ASCII) |
| Text.ToUpper | EduBridgeConnect/client/src/pages/SponsorDashboard.tsx:158 | the same length, each character mapped to upper case (ASCII) |
| Dashboards.ApplicationsWithStatus | EduBridgeConnect/client/src/pages/StudentDashboard.tsx:109-110 | [] when not fetched; otherwise the applications with that status, in order; with `Seqs.FilterCounts` each is kept as often as it was fetched |
| Dashboards.PendingApplications | EduBridgeConnect/client/src/pages/StudentDashboard.tsx:109 | [] when not fetched; otherwise a subsequence of the fetched applications, all pending, holding every pending one (multiplicity as in `Seqs.FilterCounts`) |
| Dashboards.ApprovedApplications | EduBridgeConnect/client/src/pages/StudentDashboard.tsx:110 | [] when not fetched; otherwise a subsequence of the fetched applications, all approved, holding every approved one (multiplicity as in `Seqs.FilterCounts`) |
| Dashboards.ActiveSponsorships | EduBridgeConnect/client/src/pages/SponsorDashboard.tsx:149 | [] when not fetched; otherwise the active sponsorships, in order (also StudentDashboard.tsx line 111); with `Seqs.FilterCounts` each is kept as often as it was fetched |
| Dashboards.PendingApprovedDisjoint | EduBridgeConnect/client/src/pages/StudentDashboard.tsx:109-110 | the pending and approved lists share no application |
| Dashboards.TotalAmount | EduBridgeConnect/client/src/pages/StudentDashboard.tsx:113 | the left fold of the amounts; its laws are `TotalAmountAppend` and `TotalAmountNonNegative` |
| Dashboards.TotalReceived | EduBridgeConnect/client/src/pages/SponsorDashboard.tsx:150 | the fold over the active sponsorships; its law is `TotalReceivedCountsActiveOnly` |
| Dashboards.TotalAmountAppend | EduBridgeConnect/client/src/pages/StudentDashboard.tsx:113 | the reduce over a concatenation is the sum of the two totals |
| Dashboards.TotalAmountNonNegative | EduBridgeConnect/client/src/pages/SponsorDashboard.tsx:150 | no negative amounts, no negative total |
| Dashboards.TotalReceivedCountsActiveOnly | EduBridgeConnect/client/src/pages/StudentDashboard.tsx:113 | 0 with nothing fetched; one more sponsorship adds its amount if active, nothing otherwise |
| Dashboards.StudentsSponsored | EduBridgeConnect/client/src/pages/SponsorDashboard.tsx:198 | 0 before the data arrives, and never more than the number fetched |
| Dashboards.StudentsSponsoredCountsActiveOnly | EduBridgeConnect/client/src/pages/SponsorDashboard.tsx:198 | 0 for no sponsorships; one more sponsorship raises the figure by one when it is active and leaves it unchanged otherwise, so the figure counts the active ones |
| Dashboards.TotalFundsNeeded | EduBridgeConnect/client/src/pages/StudentDashboard.tsx:114 | non-zero exactly when the profile's need is truthy, and then that need |
| Dashboards.FundingProgress | EduBridgeConnect/client/src/pages/StudentDashboard.tsx:115-117 | 0 without a positive need; never above 100; not negative for non-negative receipts; 100 once the need is met |
| Dashboards.StudentFundingProgress | EduBridgeConnect/client/src/pages/StudentDashboard.tsx:113-117 | 0 whenever the need is falsy; never above 100 |
| Dashboards.FirstsOfSplit | EduBridgeConnect/client/src/pages/SponsorDashboard.tsx:155-157 | the first characters of the space-separated parts are exactly the word starts; empty parts add nothing |
| Dashboards.Initials | EduBridgeConnect/client/src/pages/SponsorDashboard.tsx:153-160 | at most two characters |
| Dashboards.InitialsAreWordStarts | EduBridgeConnect/client/src/pages/SponsorDashboard.tsx:153-160 | the initials are the upper-cased first two word starts |
| Dashboards.InitialsExample | EduBridgeConnect/client/src/pages/SponsorDashboard.tsx:153-160 | "a  b c" gives "AB" |
| MicroJobsPage.AnySkillMatches | EduBridgeConnect/client/src/pages/MicroJobs.tsx:77 | true exactly when some skill, lower-cased, contains the query |
| MicroJobsPage.SearchHitAsWritten | EduBridgeConnect/client/src/pages/MicroJobs.tsx:73-78 | the page throws exactly when the job has no skills list and neither title nor description matches |
| MicroJobsPage.SearchThrowsWithoutSkills | EduBridgeConnect/client/src/pages/MicroJobs.tsx:77 | a concrete job and query that make the page throw |
| MicroJobsPage.SearchHit | EduBridgeConnect/client/src/pages/MicroJobs.tsx:73-78 | a hit exactly when the title, the description or some skill contains the query, ignoring case; agrees with the page wherever it does not throw |
| MicroJobsPage.FilteredJobs | EduBridgeConnect/client/src/pages/MicroJobs.tsx:70-79 | undefined exactly when the jobs are; otherwise the kept jobs as a subsequence, and a job is kept exactly when it matches (as often as it occurs, by `Seqs.FilterCounts`). It uses the corrected `SearchHit` of the first Findings row |
| MicroJobsPage.EmptyQueryKeepsAll | EduBridgeConnect/client/src/pages/MicroJobs.tsx:71 | the empty query keeps every job |
| MicroJobsPage.JobsWithStatus | EduBridgeConnect/client/src/pages/MicroJobs.tsx:81-83 | [] when undefined; otherwise the filtered jobs with that status, in order; with `Seqs.FilterCounts` each is kept as often as it occurs |
| MicroJobsPage.OpenJobs | EduBridgeConnect/client/src/pages/MicroJobs.tsx:81 | [] when undefined; otherwise a subsequence of the filtered jobs, all open, holding every open one |
| MicroJobsPage.MyJobs | EduBridgeConnect/client/src/pages/MicroJobs.tsx:82 | [] when undefined; otherwise a subsequence of the filtered jobs, all assigned (whoever they are assigned to), holding every assigned one |
| MicroJobsPage.CompletedJobs | EduBridgeConnect/client/src/pages/MicroJobs.tsx:83 | [] when undefined; otherwise a subsequence of the filtered jobs, all completed, holding every completed one |
| MicroJobsPage.TabsPartition | EduBridgeConnect/client/src/pages/MicroJobs.tsx:81-83 | the three tabs are pairwise disjoint, and a job with another status is in none |
| StudentProfileForm.Validate | EduBridgeConnect/client/src/pages/StudentProfile.tsx:39-47 | valid exactly under these rules: age absent or 16..100; need at least 100; the three texts non-empty; bio 10..500. The skills become the parsed comma list |
| StudentProfileForm.Reset | EduBridgeConnect/client/src/pages/StudentProfile.tsx:99-107 | age and need are loaded as stored; each text field shows its stored value, or "" when there is none; no skills, or none at all, show as "". A stored null age and a missing one are both `None` (see Left out) |
| StudentProfileForm.SkillsRoundTrip | EduBridgeConnect/client/src/pages/StudentProfile.tsx:105 | load and resubmit returns a clean non-empty skills list; none or [] comes back as [""] |
| StudentProfileForm.ResetRevalidates | EduBridgeConnect/client/src/pages/StudentProfile.tsx:99-107 | a stored profile within the rules reloads into a valid form with the same fields; for a `None` age this is the case of a record without an age (see Left out) |
| StudentProfileForm.Submit | EduBridgeConnect/client/src/pages/StudentProfile.tsx:114-125 | POST to the create URL without a profile; otherwise PUT to the create URL plus "/" plus the user id's digits |
| StudentProfileForm.CreateRequestIsAccepted | EduBridgeConnect/client/src/pages/StudentProfile.tsx:121-123 | the POST body passes the server's insert schema, owned by the user, carrying the form values |
| StudentProfileForm.UpdateRequestMerges | EduBridgeConnect/client/src/pages/StudentProfile.tsx:121-123 | the PUT overwrites every form field on the server and keeps id, owner and documents; a cleared age is not sent |
| SponsorProfileForm.Validate | EduBridgeConnect/client/src/pages/SponsorProfile.tsx:43-49 | valid exactly when the type is non-empty, the website is a URL or "", and the bio is 10..500; focus areas become the parsed list |
| SponsorProfileForm.Reset | EduBridgeConnect/client/src/pages/SponsorProfile.tsx:112-125 | each text field shows its stored value, or "" when there is none; the organization is always set; a missing or empty focus-area list shows as "" |
| SponsorProfileForm.FocusAreasRoundTrip | EduBridgeConnect/client/src/pages/SponsorProfile.tsx:115-117 | a clean non-empty list survives load and resubmit; a missing list is shown as "" and comes back as [""] |
| SponsorProfileForm.Submit | EduBridgeConnect/client/src/pages/SponsorProfile.tsx:132-143 | POST without a profile; otherwise PUT to the user's URL |
| SponsorProfileForm.CreateRequestIsAccepted | EduBridgeConnect/client/src/pages/SponsorProfile.tsx:139-141 | the POST body passes the server's insert schema with the form values |
| SponsorProfileForm.UpdateRequestMerges | EduBridgeConnect/client/src/pages/SponsorProfile.tsx:139-141 | the PUT overwrites every form field and keeps id and owner |

## Left out

- The Stripe payment-intent route, the debug routes and all logging: an external service and development plumbing. `updateSponsorshipPaymentId` is modelled in the store only.
- Express, JSON serialisation and `parseInt`/`isNaN`. Ids arrive as integers, so the "Invalid … ID" replies are not modelled.
- A body the insert schema rejects is `Fail(400, Invalid)`. zod's error text is not modelled, and a value of the wrong JSON type is treated like a missing one.
- `null` and a missing key are one `None` in the bodies of inserts. In the profile updates an absent key is `Absent`, and a `null` value is `Present(None)`, which stores null.
- The unlisted GET routes return the store's list queries unchanged. These are the application and sponsorship lists, and the micro-job list.
- The last-write-wins race between profile creation and `updateUser`: concurrency, so the handlers run sequentially.
- `createdAt` is a clock value the caller passes in.
- Column defaults the store never applies, for example `documents` and `mentorshipOffered`. A `jsonb` value is kept as opaque text.
- URL and email validation come from the validation library. The sponsor form takes the URL test as a parameter.
- Floating point. `matchScore` and the progress percentage are exact reals, and `Math.round` is floor of x + 0.5. Rounding in float division is not modelled.
- String semantics:
  - case mapping is ASCII only, so JavaScript's full Unicode mapping, and the lengthening of characters such as "ß", is not modelled;
  - lengths count characters, not UTF-16 code units.
- The page's `user?.id` is assumed to be present: the pages return nothing without a user.
- Ranking.StudentTiesKeepOrder: its contract covers students with a truthy need only. For two students who both lack one, the comparator returns 1 both ways, so the JavaScript engine's sort may order them either way. The model fixes that order: `SortBy` is an insertion sort that keeps such a pair in store order, and `Routes.MatchStudents` and `Routes.SponsorRecommendations` return that order. The same holds for Ranking.CandidateTiesKeepOrder.
- UpdateStudentProfile: `Routes.UpdateStudentProfile` takes a typed update with no `id` key and no unknown keys. It models the corrected route of the second Findings row. The route as written passes the raw body, and its spread keeps a sent `id` or any unknown key in the stored record. `Schema.MergeStudentProfileAsSent` models the `id` part of that; unknown keys are not modelled.
- UpdateSponsorProfile: the same for `Routes.UpdateSponsorProfile`; the as-sent merge is `Schema.MergeSponsorProfileAsSent`.
- FilteredJobs: `MicroJobsPage.FilteredJobs` filters with the corrected `SearchHit` of the first Findings row, so the page's throw on a job without a skills list is not part of it. The throw is modelled by `MicroJobsPage.SearchHitAsWritten` and shown by `MicroJobsPage.SearchThrowsWithoutSkills`.
- StudentProfileForm.Reset: a stored profile's age is `None` both when the record has no age and when it holds `null`. The insert schema accepts a `null` age and the store keeps it, the form loads it as `null`, and the form's optional age rule rejects `null`, so in the page such a profile does not resubmit. The model loads both as an empty age, which validates.
- StudentProfileForm.ResetRevalidates: for a `None` age it holds of a record without an age only; a record holding a `null` age fails to revalidate in the page, as the line above says.
- StudentsSponsored: its own contract gives only the bound and the empty case. That the figure counts the active sponsorships is stated by `Dashboards.StudentsSponsoredCountsActiveOnly`.
- Schema.MergeUser: the patch has no `id` key. The only caller sends `{ profileCompleted: true }`.
- JavaScript numbers are unbounded integers here, so sums above 2^53 are not modelled.
- React rendering, routing, toasts and query hooks.

## Findings

| source | as written | input that shows it | evidently intended | confidence | as-written member | corrected member |
|---|---|---|---|---|---|---|
| EduBridgeConnect/client/src/pages/MicroJobs.tsx:77 | `job.skillsRequired.some(...)` runs even when the job has no skills list. The column is nullable and a micro-job body may omit it, so reading `.some` of `undefined` throws | a job with title "Logo", description "Flyer" and no `skillsRequired`, searched for "python" | a job without a skills list matches on title or description only | not executed | MicroJobsPage.SearchHitAsWritten, MicroJobsPage.SearchThrowsWithoutSkills | MicroJobsPage.SearchHit |
| EduBridgeConnect/server/routes.ts:203 | the profile PUT handlers pass the raw body to the update. An `id` key in it overwrites the stored record's `id`, while the record stays under its old key | `PUT /api/students/profile/1` with body `{"id": 7}`, for a profile stored under key 1 | an update keeps the record's id; the store's update takes only the profile's own fields | not executed | Schema.MergeStudentProfileAsSent, Schema.MergeSponsorProfileAsSent, Schema.PutBodyRewritesId | Schema.MergeStudentProfile, Schema.MergeSponsorProfile |
