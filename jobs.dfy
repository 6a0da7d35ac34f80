/** The pure parts of the job handlers: the document createJob builds,
    the body updateJob spreads over a job, the `$pull` of unsaveJob, and
    the filters of the list endpoints. */
module Jobs {
  import opened Common
  import opened Models

  // ---- createJob ----

  /** The request body of createJob. A field that has a `|| default` in
      the handler is an Option; `status` is taken from the body too. */
  datatype JobInput = JobInput(
    title: string,
    company: string,
    description: string,
    responsibilities: string,
    requirements: Option<seq<string>>,
    location: string,
    jobType: JobType,
    salary: Option<int>,
    isUrgent: Option<bool>,
    deadline: int,
    level: Level,
    category: string,
    skills: Option<seq<string>>,
    status: Option<JobStatus>)

  /** The required String paths of the Job schema (title, company,
      description, responsibilities, location, category) are non-empty:
      otherwise `job.save()` fails validation. */
  predicate InputValid(input: JobInput) {
    Required(input.title) && Required(input.company) && Required(input.description)
    && Required(input.responsibilities) && Required(input.location) && Required(input.category)
  }

  function OrElse<T>(o: Option<T>, d: T): T {
    if o.Some? then o.value else d
  }

  /** The job createJob saves: the caller is the creator, the status is
      the body's or draft, and the schema defaults give an unpaid job with
      no applicants. */
  function NewJob(input: JobInput, creator: Id, now: int): (j: Job)
    ensures j.creator == creator
    ensures j.status == OrElse(input.status, Draft)
    ensures j.paymentStatus == Unpaid && j.paymentId == None && j.applicantsCount == 0
    ensures j.title == input.title && j.deadline == input.deadline
    ensures j.createdAt == now && j.updatedAt == now
  {
    Job(input.title, input.company, input.description, input.responsibilities,
        OrElse(input.requirements, []), input.location, input.jobType, input.salary,
        OrElse(input.isUrgent, false), input.deadline, input.level, input.category,
        OrElse(input.skills, []), creator, OrElse(input.status, Draft), 0, Unpaid, None, now, now)
  }

  /** A job created with `status: "published"` in the body is published
      although nothing has been paid: createJob bypasses the payment gate
      of publishJob. */
  lemma CreatePublishedUnpaid(input: JobInput, creator: Id, now: int)
    requires input.status == Some(Published)
    ensures NewJob(input, creator, now).status == Published
    ensures NewJob(input, creator, now).paymentStatus == Unpaid
  {
  }

  // ---- updateJob ----

  /** The request body of updateJob: every job field may be present,
      `status`, `paymentStatus`, `applicantsCount` and `creator`
      included. */
  datatype JobPatch = JobPatch(
    title: Option<string>,
    company: Option<string>,
    description: Option<string>,
    responsibilities: Option<string>,
    requirements: Option<seq<string>>,
    location: Option<string>,
    jobType: Option<JobType>,
    salary: Option<int>,
    isUrgent: Option<bool>,
    deadline: Option<int>,
    level: Option<Level>,
    category: Option<string>,
    skills: Option<seq<string>>,
    creator: Option<Id>,
    status: Option<JobStatus>,
    applicantsCount: Option<int>,
    paymentStatus: Option<PaymentStatus>,
    paymentId: Option<Id>)

  const EmptyPatch: JobPatch :=
    JobPatch(None, None, None, None, None, None, None, None, None, None,
             None, None, None, None, None, None, None, None)

  /** `{ ...req.body, updatedAt: Date.now() }` written over the job: each
      field present in the body replaces the stored one, every other field
      is kept, and only `createdAt` is out of the body's reach. No
      validator runs, so an empty title is stored as it is. */
  function ApplyPatch(j: Job, p: JobPatch, now: int): (r: Job)
    ensures r.title == OrElse(p.title, j.title) && r.company == OrElse(p.company, j.company)
    ensures r.description == OrElse(p.description, j.description)
    ensures r.responsibilities == OrElse(p.responsibilities, j.responsibilities)
    ensures r.requirements == OrElse(p.requirements, j.requirements)
    ensures r.location == OrElse(p.location, j.location) && r.jobType == OrElse(p.jobType, j.jobType)
    ensures r.salary == (if p.salary.Some? then p.salary else j.salary)
    ensures r.isUrgent == OrElse(p.isUrgent, j.isUrgent) && r.deadline == OrElse(p.deadline, j.deadline)
    ensures r.level == OrElse(p.level, j.level) && r.category == OrElse(p.category, j.category)
    ensures r.skills == OrElse(p.skills, j.skills)
    ensures r.status == OrElse(p.status, j.status)
    ensures r.paymentStatus == OrElse(p.paymentStatus, j.paymentStatus)
    ensures r.paymentId == (if p.paymentId.Some? then p.paymentId else j.paymentId)
    ensures r.applicantsCount == OrElse(p.applicantsCount, j.applicantsCount)
    ensures r.creator == OrElse(p.creator, j.creator)
    ensures r.createdAt == j.createdAt && r.updatedAt == now
  {
    j.(title := OrElse(p.title, j.title),
       company := OrElse(p.company, j.company),
       description := OrElse(p.description, j.description),
       responsibilities := OrElse(p.responsibilities, j.responsibilities),
       requirements := OrElse(p.requirements, j.requirements),
       location := OrElse(p.location, j.location),
       jobType := OrElse(p.jobType, j.jobType),
       salary := if p.salary.Some? then p.salary else j.salary,
       isUrgent := OrElse(p.isUrgent, j.isUrgent),
       deadline := OrElse(p.deadline, j.deadline),
       level := OrElse(p.level, j.level),
       category := OrElse(p.category, j.category),
       skills := OrElse(p.skills, j.skills),
       creator := OrElse(p.creator, j.creator),
       status := OrElse(p.status, j.status),
       applicantsCount := OrElse(p.applicantsCount, j.applicantsCount),
       paymentStatus := OrElse(p.paymentStatus, j.paymentStatus),
       paymentId := if p.paymentId.Some? then p.paymentId else j.paymentId,
       updatedAt := now)
  }

  /** Writing the same body twice is writing it once (up to the time). */
  lemma ApplyPatchTwice(j: Job, p: JobPatch, now: int, later: int)
    ensures ApplyPatch(ApplyPatch(j, p, now), p, later) == ApplyPatch(j, p, later)
  {
  }

  /** An empty body changes nothing but the update time. */
  lemma EmptyPatchTouchesOnlyUpdatedAt(j: Job, now: int)
    ensures ApplyPatch(j, EmptyPatch, now) == j.(updatedAt := now)
  {
  }

  /** The owner can publish an unpaid job through updateJob, with a body
      that sets `status`, or reset a paid job to unpaid. */
  lemma PatchBypassesPaymentGate(j: Job, now: int)
    ensures var r := ApplyPatch(j, EmptyPatch.(status := Some(Published), paymentStatus := Some(Unpaid)), now);
            r.status == Published && r.paymentStatus == Unpaid
  {
  }

  // ---- saveJob / unsaveJob ----

  predicate NoDuplicates<T(==)>(s: seq<T>) {
    forall i, j :: 0 <= i < j < |s| ==> s[i] != s[j]
  }

  /** Appending an id that is not yet present keeps a list duplicate-free. */
  lemma AppendFreshKeepsNoDuplicates<T>(s: seq<T>, x: T)
    requires NoDuplicates(s) && x !in s
    ensures NoDuplicates(s + [x])
  {
  }

  /** MongoDB's `$pull`: every occurrence of `x` removed, the rest kept in
      order. */
  function RemoveAll<T(==)>(s: seq<T>, x: T): (r: seq<T>)
    ensures x !in r
    ensures multiset(r) == multiset(s)[x := 0]
    ensures |r| <= |s|
  {
    if s == [] then []
    else
      assert s == [s[0]] + s[1..];
      assert multiset(s) == multiset([s[0]]) + multiset(s[1..]);
      if s[0] == x then RemoveAll(s[1..], x)
      else [s[0]] + RemoveAll(s[1..], x)
  }

  /** Pulling an id that is absent changes nothing. */
  lemma {:induction false} RemoveAbsent<T>(s: seq<T>, x: T)
    requires x !in s
    ensures RemoveAll(s, x) == s
  {
    if s != [] {
      NotInTail(s, x);
      RemoveAbsent(s[1..], x);
      assert s == [s[0]] + s[1..];
    }
  }

  lemma NotInTail<T>(s: seq<T>, x: T)
    requires s != [] && x !in s
    ensures x !in s[1..]
  {
    forall k | 0 <= k < |s| - 1 ensures s[1..][k] != x {
      assert s[1..][k] == s[k + 1];
    }
  }

  /** unsaveJob is idempotent. */
  lemma RemoveAllIdempotent<T>(s: seq<T>, x: T)
    ensures RemoveAll(RemoveAll(s, x), x) == RemoveAll(s, x)
  {
    RemoveAbsent(RemoveAll(s, x), x);
  }

  /** saveJob followed by unsaveJob gives back the saved list. */
  lemma {:induction false} SaveThenUnsave<T>(s: seq<T>, x: T)
    requires x !in s
    ensures RemoveAll(s + [x], x) == s
  {
    if s == [] {
      assert [] + [x] == [x];
      assert RemoveAll([x], x) == RemoveAll([x][1..], x);
      assert [x][1..] == [];
    } else {
      assert (s + [x])[0] == s[0] && (s + [x])[1..] == s[1..] + [x];
      NotInTail(s, x);
      SaveThenUnsave(s[1..], x);
      assert s == [s[0]] + s[1..];
    }
  }

  /** The populated `savedJobs` of getUserSavedJobs: ids of jobs that no
      longer exist drop out, the others keep their order. */
  function ExistingJobs(ids: seq<Id>, jobs: map<Id, Job>): (r: seq<Id>)
    ensures |r| <= |ids|
    ensures forall x :: x in r <==> x in ids && x in jobs
  {
    if ids == [] then []
    else if ids[0] in jobs then [ids[0]] + ExistingJobs(ids[1..], jobs)
    else ExistingJobs(ids[1..], jobs)
  }

  /** One id is kept exactly when its job exists. */
  lemma ExistingJobsOne(x: Id, jobs: map<Id, Job>)
    ensures ExistingJobs([x], jobs) == if x in jobs then [x] else []
  {
    assert [x][1..] == [];
  }

  /** The filter works id by id: on a concatenation it is the filter of
      each part, in order. With the one-id case this fixes the result
      completely, order and repetitions included. */
  lemma {:induction false} ExistingJobsAppend(a: seq<Id>, b: seq<Id>, jobs: map<Id, Job>)
    ensures ExistingJobs(a + b, jobs) == ExistingJobs(a, jobs) + ExistingJobs(b, jobs)
  {
    if a == [] {
      assert [] + b == b;
    } else {
      assert (a + b)[0] == a[0] && (a + b)[1..] == a[1..] + b;
      ExistingJobsAppend(a[1..], b, jobs);
    }
  }

  lemma {:induction false} ExistingJobsAllPresent(ids: seq<Id>, jobs: map<Id, Job>)
    requires forall k :: 0 <= k < |ids| ==> ids[k] in jobs
    ensures ExistingJobs(ids, jobs) == ids
  {
    if ids != [] {
      ExistingJobsAllPresent(ids[1..], jobs);
      assert ids == [ids[0]] + ids[1..];
    }
  }

  // ---- list filters ----

  /** The optional filters of getAllJobs (`location` is left out). */
  datatype JobFilter = JobFilter(jobType: Option<JobType>, level: Option<Level>, urgentOnly: bool)

  predicate MatchesFilter(j: Job, f: JobFilter) {
    j.status == Published
    && (f.jobType.Some? ==> j.jobType == f.jobType.value)
    && (f.level.Some? ==> j.level == f.level.value)
    && (f.urgentOnly ==> j.isUrgent)
  }

  /** The jobs getAllJobs selects. */
  function PublicListing(jobs: map<Id, Job>, f: JobFilter): (r: set<Id>)
    ensures forall id :: id in r <==> id in jobs && MatchesFilter(jobs[id], f)
    ensures forall id :: id in r ==> jobs[id].status == Published
  {
    set id | id in jobs && MatchesFilter(jobs[id], f)
  }

  /** Only published jobs are listed, whatever the filter: a draft, closed
      or deleted job is never in the public listing. */
  lemma ListingOnlyPublished(jobs: map<Id, Job>, f: JobFilter, id: Id)
    requires id !in jobs || jobs[id].status != Published
    ensures id !in PublicListing(jobs, f)
  {
  }

  /** The jobs searchJobs selects: published ones the full-text search
      matches (the search itself is a parameter). */
  function SearchListing(jobs: map<Id, Job>, textMatches: Job -> bool): (r: set<Id>)
    ensures forall id :: id in r <==> id in jobs && jobs[id].status == Published && textMatches(jobs[id])
  {
    set id | id in jobs && jobs[id].status == Published && textMatches(jobs[id])
  }

  /** The caller's jobs in one status (getUserDrafts, getUserPublishedJobs). */
  function CreatorListing(jobs: map<Id, Job>, creator: Id, status: JobStatus): (r: set<Id>)
    ensures forall id :: id in r <==> id in jobs && jobs[id].creator == creator && jobs[id].status == status
  {
    set id | id in jobs && jobs[id].creator == creator && jobs[id].status == status
  }

  /** The drafts and the published jobs of a creator never overlap. */
  lemma DraftsAndPublishedDisjoint(jobs: map<Id, Job>, creator: Id)
    ensures CreatorListing(jobs, creator, Draft) !! CreatorListing(jobs, creator, Published)
  {
  }
}
