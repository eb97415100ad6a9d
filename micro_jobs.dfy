/**
 * The micro-jobs page: the case-insensitive search over title, description and skills,
 * and the three status tabs built from the search result.
 */
module MicroJobsPage {
  import opened Wrappers
  import opened Seqs
  import opened Text
  import opened Schema

  /** Some skill contains the (already lower-cased) query, ignoring case. */
  function AnySkillMatches(skills: seq<string>, query: string): (r: bool)
    ensures r <==> exists k :: 0 <= k < |skills| && Contains(ToLower(skills[k]), query)
    decreases |skills|
  {
    if skills == [] then false
    else if Contains(ToLower(skills[0]), query) then true
    else
      var r := AnySkillMatches(skills[1..], query);
      assert forall k :: 1 <= k < |skills| ==> skills[k] == skills[1..][k - 1];
      r
  }

  /**
   * The search test as the page writes it. A stored job whose `skillsRequired` was never
   * given has none, and `undefined.some(...)` throws: `None` stands for that error, reached
   * only when neither the title nor the description matched.
   */
  function SearchHitAsWritten(job: MicroJob, query: string): (r: Option<bool>)
    ensures r.None? <==> job.data.skillsRequired.None? &&
                         !Contains(ToLower(job.data.title), ToLower(query)) &&
                         !Contains(ToLower(job.data.description), ToLower(query))
  {
    var q := ToLower(query);
    if Contains(ToLower(job.data.title), q) || Contains(ToLower(job.data.description), q) then Some(true)
    else match job.data.skillsRequired
      case None => None
      case Some(skills) => Some(AnySkillMatches(skills, q))
  }

  /** A job without any skills, whose title and description do not match "python", makes the page throw. */
  lemma SearchThrowsWithoutSkills()
    ensures SearchHitAsWritten(MicroJob(1, InsertMicroJob("Logo", "Flyer", 2, None, 50), "open", 0), "python").None?
  {
    TooLongNeverOccurs(ToLower("Logo"), ToLower("python"));
    TooLongNeverOccurs(ToLower("Flyer"), ToLower("python"));
  }

  lemma TooLongNeverOccurs(hay: string, needle: string)
    requires |needle| > |hay|
    ensures !Contains(hay, needle)
  {
  }

  /**
   * The search test as intended: a job without a skills list has no skills. It agrees
   * with the page wherever the page does not throw.
   */
  function SearchHit(job: MicroJob, query: string): (r: bool)
    ensures SearchHitAsWritten(job, query).Some? ==> r == SearchHitAsWritten(job, query).value
    ensures r <==> Contains(ToLower(job.data.title), ToLower(query)) ||
                   Contains(ToLower(job.data.description), ToLower(query)) ||
                   exists k :: 0 <= k < |job.data.skillsRequired.GetOr([])| &&
                               Contains(ToLower(job.data.skillsRequired.GetOr([])[k]), ToLower(query))
  {
    var q := ToLower(query);
    Contains(ToLower(job.data.title), q) || Contains(ToLower(job.data.description), q) ||
    AnySkillMatches(job.data.skillsRequired.GetOr([]), q)
  }

  /** `filter`'s callback: an empty query keeps every job. */
  function Keeps(query: string): MicroJob -> bool {
    (job: MicroJob) => query == "" || SearchHit(job, query)
  }

  /** `filteredJobs`: `undefined` until the jobs are fetched. */
  function FilteredJobs(jobs: Option<seq<MicroJob>>, query: string): (r: Option<seq<MicroJob>>)
    ensures r.None? <==> jobs.None?
    ensures r.Some? ==>
      && IsSubsequence(r.value, jobs.value)
      && (forall k :: 0 <= k < |r.value| ==> query == "" || SearchHit(r.value[k], query))
      && (forall k :: 0 <= k < |jobs.value| && (query == "" || SearchHit(jobs.value[k], query)) ==>
            jobs.value[k] in r.value)
  {
    if jobs.None? then None else Some(Filter(jobs.value, Keeps(query)))
  }

  /** An empty query filters nothing out. */
  lemma {:induction false} EmptyQueryKeepsAll(jobs: seq<MicroJob>)
    ensures FilteredJobs(Some(jobs), "") == Some(jobs)
    decreases |jobs|
  {
    if jobs != [] {
      EmptyQueryKeepsAll(jobs[1..]);
      assert Keeps("")(jobs[0]);
      assert Filter(jobs, Keeps("")) == [jobs[0]] + Filter(jobs[1..], Keeps(""));
      assert jobs == [jobs[0]] + jobs[1..];
    }
  }

  function StatusIs(status: string): MicroJob -> bool {
    (job: MicroJob) => job.status == status
  }

  /** `filteredJobs?.filter(job => job.status === status) || []`. */
  function JobsWithStatus(filtered: Option<seq<MicroJob>>, status: string): (r: seq<MicroJob>)
    ensures filtered.None? ==> r == []
    ensures filtered.Some? ==>
      && IsSubsequence(r, filtered.value)
      && (forall k :: 0 <= k < |r| ==> r[k].status == status)
      && (forall k :: 0 <= k < |filtered.value| && filtered.value[k].status == status ==> filtered.value[k] in r)
  {
    if filtered.None? then [] else Filter(filtered.value, StatusIs(status))
  }

  /** The "Open" tab. */
  function OpenJobs(filtered: Option<seq<MicroJob>>): (r: seq<MicroJob>)
    ensures filtered.None? ==> r == []
    ensures filtered.Some? ==> IsSubsequence(r, filtered.value)
    ensures forall k :: 0 <= k < |r| ==> r[k].status == "open"
    ensures filtered.Some? ==>
      forall k :: 0 <= k < |filtered.value| && filtered.value[k].status == "open" ==> filtered.value[k] in r
  {
    JobsWithStatus(filtered, "open")
  }

  /** The "My Jobs" tab: every assigned job, not only the viewer's. */
  function MyJobs(filtered: Option<seq<MicroJob>>): (r: seq<MicroJob>)
    ensures filtered.None? ==> r == []
    ensures filtered.Some? ==> IsSubsequence(r, filtered.value)
    ensures forall k :: 0 <= k < |r| ==> r[k].status == "assigned"
    ensures filtered.Some? ==>
      forall k :: 0 <= k < |filtered.value| && filtered.value[k].status == "assigned" ==> filtered.value[k] in r
  {
    JobsWithStatus(filtered, "assigned")
  }

  /** The "Completed" tab. */
  function CompletedJobs(filtered: Option<seq<MicroJob>>): (r: seq<MicroJob>)
    ensures filtered.None? ==> r == []
    ensures filtered.Some? ==> IsSubsequence(r, filtered.value)
    ensures forall k :: 0 <= k < |r| ==> r[k].status == "completed"
    ensures filtered.Some? ==>
      forall k :: 0 <= k < |filtered.value| && filtered.value[k].status == "completed" ==> filtered.value[k] in r
  {
    JobsWithStatus(filtered, "completed")
  }

  /**
   * The three tabs are pairwise disjoint, and a job whose status is none of `open`,
   * `assigned` and `completed` appears in no tab.
   */
  lemma TabsPartition(filtered: Option<seq<MicroJob>>, job: MicroJob)
    ensures job in OpenJobs(filtered) ==> job !in MyJobs(filtered) && job !in CompletedJobs(filtered)
    ensures job in MyJobs(filtered) ==> job !in CompletedJobs(filtered)
    ensures job.status !in {"open", "assigned", "completed"} ==>
              job !in OpenJobs(filtered) && job !in MyJobs(filtered) && job !in CompletedJobs(filtered)
  {
  }
}
