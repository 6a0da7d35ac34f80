/** The database and the controllers that work on it. The collections are
    maps from document id to document (the notifications a sequence in
    insertion order), and every controller operation is one method that runs
    its rule chain (load, existence, ownership, precondition) and then
    writes. A rejection leaves the store as it was. Ids come from a counter,
    so every document the store creates has a new id. */
module Marketplace {
  import opened Common
  import opened Models
  import opened Identity
  import opened Pagination
  import opened Ledger
  import opened Jobs
  import opened Accounts
  import opened Applications
  import opened Notices
  import opened Tables

  class Store {
    var jobs: map<Id, Job>
    var applications: map<Id, Application>
    var users: map<Id, User>
    /** Wallets keyed by their owner: one wallet per user. */
    var wallets: map<Id, Wallet>
    var payments: map<Id, Payment>
    var notifications: seq<Notification>
    var nextId: nat

    /** The store's fields as one value. */
    ghost function Snapshot(): (d: Db)
      reads this
      ensures d.jobs == jobs && d.applications == applications && d.users == users && d.wallets == wallets
      ensures d.payments == payments && d.notifications == notifications && d.nextId == nextId
    {
      Db(jobs, applications, users, wallets, payments, notifications, nextId)
    }

    /** What every operation keeps: fresh ids, one application per
        (job, applicant), unique user fields, a wallet per user holding its
        address, and balance = sum of entries in every wallet. */
    ghost predicate Valid()
      reads this
    {
      Good(Db(jobs, applications, users, wallets, payments, notifications, nextId))
    }

    constructor()
      ensures Valid()
      ensures jobs == map[] && applications == map[] && users == map[] && wallets == map[]
      ensures payments == map[] && notifications == [] && nextId == 0
    {
      jobs, applications, users, wallets, payments := map[], map[], map[], map[], map[];
      notifications, nextId := [], 0;
      GoodEmpty();
    }

    // ---- controllers/auth.controller.js ----

    /** register: 400 when an existing user has the email, the username or
        the wallet address; then 500, with nothing written, when a required
        field is empty (`user.save()` fails validation); otherwise a new
        user and a new wallet for it, with that address, a zero balance and
        no transactions. */
    method Register(username: string, email: string, password: string, walletAddress: string, role: Role, now: int)
      returns (r: Response<Id>)
      requires Valid()
      modifies this
      ensures Valid()
      ensures Clashes(old(users), username, email, walletAddress) ==> r == Failure(BadRequest400) && unchanged(this)
      ensures !Clashes(old(users), username, email, walletAddress) && !UserFieldsValid(username, email, password, walletAddress) ==>
        r == Failure(ServerError500) && unchanged(this)
      ensures !Clashes(old(users), username, email, walletAddress) && UserFieldsValid(username, email, password, walletAddress) ==>
        var id := old(nextId);
        r == Success(Created201, id) && id !in old(users) && id !in old(wallets)
        && users == old(users)[id := NewUser(username, email, password, walletAddress, role, now)]
        && wallets == old(wallets)[id := NewWallet(id, walletAddress)]
        && jobs == old(jobs) && applications == old(applications) && payments == old(payments)
        && notifications == old(notifications) && nextId == old(nextId) + 1
    {
      if Clashes(users, username, email, walletAddress) {
        return Failure(BadRequest400);
      }
      if !UserFieldsValid(username, email, password, walletAddress) {
        return Failure(ServerError500);
      }
      var id := nextId;
      var u := NewUser(username, email, password, walletAddress, role, now);
      GoodRegister(Snapshot(), u);
      users := users[id := u];
      wallets := wallets[id := NewWallet(id, walletAddress)];
      nextId := nextId + 1;
      r := Success(Created201, id);
    }

    /** login: 404 when no user has the email, 401 when the password check
        fails, otherwise that user. The bcrypt comparison is the parameter
        `passwordMatches`. */
    method Login(email: string, password: string, passwordMatches: (string, string) -> bool) returns (r: Response<Id>)
      requires Valid()
      ensures r == Failure(NotFound404) <==> forall u :: u in users ==> users[u].email != email
      ensures forall u :: u in users && users[u].email == email ==>
        r == (if passwordMatches(password, users[u].password) then Success(Ok200, u) else Failure(Unauthorized401))
    {
      if u :| u in users && users[u].email == email {
        r := if passwordMatches(password, users[u].password) then Success(Ok200, u) else Failure(Unauthorized401);
      } else {
        r := Failure(NotFound404);
      }
    }

    // ---- controllers/jobs.controller.js ----

    /** createJob: 500, with nothing written, when a required field of the
        body is empty; otherwise a new job created by the caller, a draft
        unless the body sets a status. */
    method CreateJob(caller: Id, input: JobInput, now: int) returns (r: Response<Id>)
      requires Valid()
      modifies this
      ensures Valid()
      ensures !InputValid(input) ==> r == Failure(ServerError500) && unchanged(this)
      ensures InputValid(input) ==>
        var id := old(nextId);
        r == Success(Created201, id) && id !in old(jobs)
        && jobs == old(jobs)[id := NewJob(input, caller, now)]
        && applications == old(applications) && users == old(users) && wallets == old(wallets)
        && payments == old(payments) && notifications == old(notifications) && nextId == old(nextId) + 1
    {
      if !InputValid(input) {
        return Failure(ServerError500);
      }
      var id := nextId;
      GoodNewJob(Snapshot(), NewJob(input, caller, now));
      jobs := jobs[id := NewJob(input, caller, now)];
      nextId := nextId + 1;
      r := Success(Created201, id);
    }

    /** getJobById: any job, drafts included, or 404. */
    method GetJobById(id: Id) returns (r: Response<Job>)
      ensures id !in jobs <==> r == Failure(NotFound404)
      ensures id in jobs ==> r == Success(Ok200, jobs[id])
    {
      if id !in jobs {
        return Failure(NotFound404);
      }
      r := Success(Ok200, jobs[id]);
    }

    /** updateJob: 404, then 403 unless the caller created the job, then the
        whole body written over the job. */
    method UpdateJob(caller: Id, id: Id, patch: JobPatch, now: int) returns (r: Response<Job>)
      requires Valid()
      modifies this
      ensures Valid()
      ensures id !in old(jobs) ==> r == Failure(NotFound404) && unchanged(this)
      ensures id in old(jobs) && old(jobs)[id].creator != caller ==> r == Failure(Forbidden403) && unchanged(this)
      ensures id in old(jobs) && old(jobs)[id].creator == caller ==>
        r == Success(Ok200, ApplyPatch(old(jobs)[id], patch, now))
        && jobs == old(jobs)[id := ApplyPatch(old(jobs)[id], patch, now)]
        && applications == old(applications) && users == old(users) && wallets == old(wallets)
        && payments == old(payments) && notifications == old(notifications) && nextId == old(nextId)
    {
      if id !in jobs {
        return Failure(NotFound404);
      }
      if !IsOwner(jobs[id].creator, caller) {
        return Failure(Forbidden403);
      }
      var j := ApplyPatch(jobs[id], patch, now);
      GoodEditJob(Snapshot(), id, j);
      jobs := jobs[id := j];
      r := Success(Ok200, j);
    }

    /** deleteJob: 404, then 403 unless the caller created the job, then
        the job goes; its applications stay. */
    method DeleteJob(caller: Id, id: Id) returns (r: Response<()>)
      requires Valid()
      modifies this
      ensures Valid()
      ensures id !in old(jobs) ==> r == Failure(NotFound404) && unchanged(this)
      ensures id in old(jobs) && old(jobs)[id].creator != caller ==> r == Failure(Forbidden403) && unchanged(this)
      ensures id in old(jobs) && old(jobs)[id].creator == caller ==>
        r == Success(Ok200, ()) && jobs == old(jobs) - {id}
        && applications == old(applications) && users == old(users) && wallets == old(wallets)
        && payments == old(payments) && notifications == old(notifications) && nextId == old(nextId)
    {
      if id !in jobs {
        return Failure(NotFound404);
      }
      if !IsOwner(jobs[id].creator, caller) {
        return Failure(Forbidden403);
      }
      GoodDeleteJob(Snapshot(), id);
      jobs := jobs - {id};
      r := Success(Ok200, ());
    }

    /** publishJob: 404, then 403 unless the caller created the job, then
        400 unless it is paid for; otherwise only that job's status (and
        update time) changes, and the published job is a paid one. */
    method PublishJob(caller: Id, id: Id, now: int) returns (r: Response<Job>)
      requires Valid()
      modifies this
      ensures Valid()
      ensures id !in old(jobs) ==> r == Failure(NotFound404) && unchanged(this)
      ensures id in old(jobs) && old(jobs)[id].creator != caller ==> r == Failure(Forbidden403) && unchanged(this)
      ensures id in old(jobs) && old(jobs)[id].creator == caller && old(jobs)[id].paymentStatus != Paid ==>
        r == Failure(BadRequest400) && unchanged(this)
      ensures r.Success? ==> (r.status == Ok200 && id in old(jobs) && old(jobs)[id].creator == caller
        && jobs == old(jobs)[id := old(jobs)[id].(status := Published, updatedAt := now)]
        && r.data == jobs[id] && jobs[id].paymentStatus == Paid
        && applications == old(applications) && users == old(users) && wallets == old(wallets)
        && payments == old(payments) && notifications == old(notifications) && nextId == old(nextId))
      ensures id in old(jobs) && old(jobs)[id].creator == caller && old(jobs)[id].paymentStatus == Paid ==> r.Success?
    {
      if id !in jobs {
        return Failure(NotFound404);
      }
      if !IsOwner(jobs[id].creator, caller) {
        return Failure(Forbidden403);
      }
      if jobs[id].paymentStatus != Paid {
        return Failure(BadRequest400);
      }
      var j := jobs[id].(status := Published, updatedAt := now);
      GoodEditJob(Snapshot(), id, j);
      jobs := jobs[id := j];
      r := Success(Ok200, j);
    }

    /** saveJob: 404 for a missing job, 400 when already saved, otherwise
        the id appended once to the caller's saved jobs. */
    method SaveJob(caller: Id, id: Id) returns (r: Response<()>)
      requires Valid() && caller in users
      modifies this
      ensures Valid()
      ensures id !in old(jobs) ==> r == Failure(NotFound404) && unchanged(this)
      ensures id in old(jobs) && id in old(users)[caller].savedJobs ==> r == Failure(BadRequest400) && unchanged(this)
      ensures id in old(jobs) && id !in old(users)[caller].savedJobs ==>
        r == Success(Ok200, ())
        && users == old(users)[caller := old(users)[caller].(savedJobs := old(users)[caller].savedJobs + [id])]
        && (NoDuplicates(old(users)[caller].savedJobs) ==> NoDuplicates(users[caller].savedJobs))
        && jobs == old(jobs) && applications == old(applications) && wallets == old(wallets)
        && payments == old(payments) && notifications == old(notifications) && nextId == old(nextId)
    {
      if id !in jobs {
        return Failure(NotFound404);
      }
      var u := users[caller];
      if id in u.savedJobs {
        return Failure(BadRequest400);
      }
      if NoDuplicates(u.savedJobs) {
        AppendFreshKeepsNoDuplicates(u.savedJobs, id);
      }
      GoodEditUserFields(Snapshot(), caller, u.(savedJobs := u.savedJobs + [id]));
      users := users[caller := u.(savedJobs := u.savedJobs + [id])];
      r := Success(Ok200, ());
    }

    /** unsaveJob: every occurrence of the id leaves the caller's saved
        jobs, with no existence check; always 200. */
    method UnsaveJob(caller: Id, id: Id) returns (r: Response<()>)
      requires Valid()
      modifies this
      ensures Valid()
      ensures r == Success(Ok200, ())
      ensures caller in old(users) ==>
        users == old(users)[caller := old(users)[caller].(savedJobs := RemoveAll(old(users)[caller].savedJobs, id))]
      ensures caller !in old(users) ==> users == old(users)
      ensures jobs == old(jobs) && applications == old(applications) && wallets == old(wallets)
      ensures payments == old(payments) && notifications == old(notifications) && nextId == old(nextId)
    {
      if caller in users {
        var u := users[caller];
        GoodEditUserFields(Snapshot(), caller, u.(savedJobs := RemoveAll(u.savedJobs, id)));
        users := users[caller := u.(savedJobs := RemoveAll(u.savedJobs, id))];
      }
      r := Success(Ok200, ());
    }

    /** getAllJobs: the published jobs that pass the filters, with the
        pagination block; 500 when the skip is negative. */
    method GetAllJobs(filter: JobFilter, page: Option<int>, limit: Option<int>) returns (r: Response<Listing<set<Id>>>)
      ensures SkipRefused(page, limit) <==> r == Failure(ServerError500)
      ensures !SkipRefused(page, limit) ==> r.Success?
      ensures r.Success? ==> (r.status == Ok200 && r.data.items == PublicListing(jobs, filter)
        && r.data.pagination == Paginate(|r.data.items|, page, limit))
      ensures r.Success? ==> forall id :: id in r.data.items ==> id in jobs && jobs[id].status == Published
    {
      if SkipRefused(page, limit) {
        return Failure(ServerError500);
      }
      var items := PublicListing(jobs, filter);
      r := Success(Ok200, Listing(items, Paginate(|items|, page, limit)));
    }

    /** searchJobs: 400 without a query; otherwise the published jobs the
        text search matches (the search is the parameter `textMatches`). */
    method SearchJobs(query: Option<string>, textMatches: Job -> bool, page: Option<int>, limit: Option<int>)
      returns (r: Response<Listing<set<Id>>>)
      ensures query.None? || query.value == "" ==> r == Failure(BadRequest400)
      ensures query.Some? && query.value != "" ==> (SkipRefused(page, limit) <==> r == Failure(ServerError500))
      ensures query.Some? && query.value != "" && !SkipRefused(page, limit) ==> r.Success?
      ensures r.Success? ==> (r.status == Ok200 && r.data.items == SearchListing(jobs, textMatches)
        && r.data.pagination == Paginate(|r.data.items|, page, limit))
    {
      if query.None? || query.value == "" {
        return Failure(BadRequest400);
      }
      if SkipRefused(page, limit) {
        return Failure(ServerError500);
      }
      var items := SearchListing(jobs, textMatches);
      r := Success(Ok200, Listing(items, Paginate(|items|, page, limit)));
    }

    /** getUserDrafts (status draft) and getUserPublishedJobs (status
        published): the caller's jobs in that status. */
    method GetUserJobs(caller: Id, status: JobStatus, page: Option<int>, limit: Option<int>)
      returns (r: Response<Listing<set<Id>>>)
      ensures SkipRefused(page, limit) <==> r == Failure(ServerError500)
      ensures !SkipRefused(page, limit) ==> r.Success?
      ensures r.Success? ==> (r.status == Ok200 && r.data.items == CreatorListing(jobs, caller, status)
        && r.data.pagination == Paginate(|r.data.items|, page, limit))
      ensures r.Success? ==> forall id :: id in r.data.items ==> id in jobs && jobs[id].creator == caller
    {
      if SkipRefused(page, limit) {
        return Failure(ServerError500);
      }
      var items := CreatorListing(jobs, caller, status);
      r := Success(Ok200, Listing(items, Paginate(|items|, page, limit)));
    }

    /** getUserSavedJobs: the saved jobs that still exist, cut with
        `slice(skip, skip + limit)`; the total counts them all. */
    method GetUserSavedJobs(caller: Id, page: Option<int>, limit: Option<int>) returns (r: Response<Listing<seq<Id>>>)
      requires caller in users
      ensures r.Success? && r.status == Ok200
      ensures var saved := ExistingJobs(users[caller].savedJobs, jobs);
              var p, l := OrDefault(page, DefaultPage), OrDefault(limit, DefaultLimit);
              r.data.items == JsSlice(saved, Skip(p, l), Skip(p, l) + l)
              && r.data.pagination == Paginate(|saved|, page, limit)
      ensures forall id :: id in r.data.items ==> id in jobs && id in users[caller].savedJobs
    {
      var saved := ExistingJobs(users[caller].savedJobs, jobs);
      var p, l := OrDefault(page, DefaultPage), OrDefault(limit, DefaultLimit);
      var skip := Skip(p, l);
      var items := JsSlice(saved, skip, skip + l);
      r := Success(Ok200, Listing(items, Paginate(|saved|, page, limit)));
    }

    // ---- controllers/applications.controller.js ----

    /** applyForJob: 404 for a missing job, 400 unless it is published, 400
        when its deadline is before now, 400 when the caller has applied
        already; otherwise one pending application, the job's count up by
        one and a notice to the job's creator. */
    method ApplyForJob(caller: Id, jobId: Id, resume: string, coverLetter: Option<string>, now: int)
      returns (r: Response<Id>)
      requires Valid() && caller in users
      modifies this
      ensures Valid()
      ensures jobId !in old(jobs) ==> r == Failure(NotFound404) && unchanged(this)
      ensures jobId in old(jobs) && old(jobs)[jobId].status != Published ==> r == Failure(BadRequest400) && unchanged(this)
      ensures jobId in old(jobs) && old(jobs)[jobId].status == Published && old(jobs)[jobId].deadline < now ==>
        r == Failure(BadRequest400) && unchanged(this)
      ensures jobId in old(jobs) && HasApplied(old(applications), jobId, caller) ==> r == Failure(BadRequest400) && unchanged(this)
      ensures (jobId in old(jobs) && old(jobs)[jobId].status == Published && now <= old(jobs)[jobId].deadline
               && !HasApplied(old(applications), jobId, caller) && !Required(resume)) ==>
        r == Failure(ServerError500) && unchanged(this)
      ensures r.Success? ==> Required(resume)
      ensures r.Success? ==>
        var aid, nid := old(nextId), old(nextId) + 1;
        r == Success(Created201, aid) && aid !in old(applications)
        && jobId in old(jobs) && old(jobs)[jobId].status == Published && now <= old(jobs)[jobId].deadline
        && !HasApplied(old(applications), jobId, caller)
        && applications == old(applications)[aid := NewApplication(jobId, caller, resume, coverLetter, now)]
        && jobs == old(jobs)[jobId := Bump(old(jobs)[jobId], now)]
        && notifications == old(notifications) + [AboutApplication(nid, old(jobs)[jobId].creator, aid, ReceivedTitle)]
        && users == old(users) && wallets == old(wallets) && payments == old(payments) && nextId == old(nextId) + 2
        && (CountAccurate(old(jobs), old(applications)) ==> CountAccurate(jobs, applications))
      ensures (jobId in old(jobs) && old(jobs)[jobId].status == Published && now <= old(jobs)[jobId].deadline
               && !HasApplied(old(applications), jobId, caller) && Required(resume)) ==> r.Success?
    {
      if jobId !in jobs {
        return Failure(NotFound404);
      }
      var job := jobs[jobId];
      if job.status != Published {
        return Failure(BadRequest400);
      }
      if job.deadline < now {
        return Failure(BadRequest400);
      }
      if HasApplied(applications, jobId, caller) {
        return Failure(BadRequest400);
      }
      if !Required(resume) {
        return Failure(ServerError500);
      }
      var aid := CommitApplication(caller, jobId, resume, coverLetter, now);
      r := Success(Created201, aid);
    }

    /** The three writes of a successful applyForJob, in order. */
    method CommitApplication(caller: Id, jobId: Id, resume: string, coverLetter: Option<string>, now: int) returns (aid: Id)
      requires Valid() && jobId in jobs && !HasApplied(applications, jobId, caller)
      modifies this
      ensures Valid()
      ensures aid == old(nextId) && aid !in old(applications)
      ensures applications == old(applications)[aid := NewApplication(jobId, caller, resume, coverLetter, now)]
      ensures jobs == old(jobs)[jobId := Bump(old(jobs)[jobId], now)]
      ensures notifications == old(notifications) + [AboutApplication(aid + 1, old(jobs)[jobId].creator, aid, ReceivedTitle)]
      ensures users == old(users) && wallets == old(wallets) && payments == old(payments) && nextId == old(nextId) + 2
      ensures CountAccurate(old(jobs), old(applications)) ==> CountAccurate(jobs, applications)
    {
      aid := nextId;
      var job := jobs[jobId];
      var a := NewApplication(jobId, caller, resume, coverLetter, now);
      var d := Snapshot();
      GoodInsertApplication(d, a);
      GoodEditJob(d.(applications := d.applications[aid := a], nextId := aid + 1), jobId, Bump(job, now));
      if CountAccurate(jobs, applications) {
        ApplyKeepsCountAccurate(jobs, applications, aid, a, now);
      }
      applications := applications[aid := a];
      jobs := jobs[jobId := Bump(job, now)];
      nextId := nextId + 1;
      Notify(AboutApplication(aid + 1, job.creator, aid, ReceivedTitle));
    }

    /** getApplicationsForJob: 404, then 403 unless the caller created the
        job; otherwise the job's applications. */
    method GetApplicationsForJob(caller: Id, jobId: Id, page: Option<int>, limit: Option<int>)
      returns (r: Response<Listing<set<Id>>>)
      ensures jobId !in jobs ==> r == Failure(NotFound404)
      ensures jobId in jobs && jobs[jobId].creator != caller ==> r == Failure(Forbidden403)
      ensures jobId in jobs && jobs[jobId].creator == caller ==> (SkipRefused(page, limit) <==> r == Failure(ServerError500))
      ensures jobId in jobs && jobs[jobId].creator == caller && !SkipRefused(page, limit) ==> r.Success?
      ensures r.Success? ==> (r.status == Ok200 && jobId in jobs && jobs[jobId].creator == caller
        && r.data.items == ApplicationsFor(applications, jobId)
        && r.data.pagination == Paginate(|r.data.items|, page, limit))
    {
      if jobId !in jobs {
        return Failure(NotFound404);
      }
      if !IsOwner(jobs[jobId].creator, caller) {
        return Failure(Forbidden403);
      }
      if SkipRefused(page, limit) {
        return Failure(ServerError500);
      }
      var items := ApplicationsFor(applications, jobId);
      r := Success(Ok200, Listing(items, Paginate(|items|, page, limit)));
    }

    /** getUserApplications: the caller's own applications. */
    method GetUserApplications(caller: Id, page: Option<int>, limit: Option<int>) returns (r: Response<Listing<set<Id>>>)
      ensures SkipRefused(page, limit) <==> r == Failure(ServerError500)
      ensures !SkipRefused(page, limit) ==> r.Success?
      ensures r.Success? ==> (r.status == Ok200
        && (forall a :: a in r.data.items <==> a in applications && applications[a].applicant == caller)
        && r.data.pagination == Paginate(|r.data.items|, page, limit))
    {
      if SkipRefused(page, limit) {
        return Failure(ServerError500);
      }
      var items := set a | a in applications && applications[a].applicant == caller;
      r := Success(Ok200, Listing(items, Paginate(|items|, page, limit)));
    }

    /** getApplicationById: 404 for a missing application; the applicant
        and the job's creator may read it, anyone else gets 403. The
        populated applicant, job and creator are dereferenced, so a missing
        one is a 500 (the job is read only when the caller is not the
        applicant). */
    method GetApplicationById(caller: Id, id: Id) returns (r: Response<Application>)
      ensures id !in applications <==> r == Failure(NotFound404)
      ensures r.Success? ==> (r == Success(Ok200, applications[id])
        && (caller == applications[id].applicant
            || (applications[id].job in jobs && caller == jobs[applications[id].job].creator)))
      ensures id in applications && applications[id].applicant in users && caller == applications[id].applicant ==> r.Success?
      ensures (id in applications && applications[id].applicant in users && applications[id].job in jobs
               && jobs[applications[id].job].creator in users && caller == jobs[applications[id].job].creator) ==> r.Success?
      ensures r == Failure(Forbidden403) <==>
        id in applications && applications[id].applicant in users && caller != applications[id].applicant
        && applications[id].job in jobs && jobs[applications[id].job].creator in users
        && caller != jobs[applications[id].job].creator
    {
      if id !in applications {
        return Failure(NotFound404);
      }
      var a := applications[id];
      if a.applicant !in users {
        return Failure(ServerError500);
      }
      if IsOwner(a.applicant, caller) {
        return Success(Ok200, a);
      }
      if a.job !in jobs || jobs[a.job].creator !in users {
        return Failure(ServerError500);
      }
      if IsOwner(jobs[a.job].creator, caller) {
        return Success(Ok200, a);
      }
      r := Failure(Forbidden403);
    }

    /** updateApplicationStatus: 404 for a missing application, 500 when
        its job is gone, 403 unless the caller created the job; otherwise
        the new status, in any order of statuses, and a notice to the
        applicant. */
    method UpdateApplicationStatus(caller: Id, id: Id, status: ApplicationStatus) returns (r: Response<Application>)
      requires Valid()
      modifies this
      ensures Valid()
      ensures id !in old(applications) ==> r == Failure(NotFound404) && unchanged(this)
      ensures id in old(applications) && old(applications)[id].job !in old(jobs) ==> r == Failure(ServerError500) && unchanged(this)
      ensures (id in old(applications) && old(applications)[id].job in old(jobs)
               && old(jobs)[old(applications)[id].job].creator != caller) ==> r == Failure(Forbidden403) && unchanged(this)
      ensures (id in old(applications) && old(applications)[id].job in old(jobs)
               && old(jobs)[old(applications)[id].job].creator == caller) ==>
        var a := old(applications)[id].(status := status);
        r == Success(Ok200, a)
        && applications == old(applications)[id := a]
        && notifications == old(notifications) + [AboutApplication(old(nextId), a.applicant, id, StatusTitle)]
        && nextId == old(nextId) + 1
        && jobs == old(jobs) && users == old(users) && wallets == old(wallets) && payments == old(payments)
        && (CountAccurate(old(jobs), old(applications)) ==> CountAccurate(jobs, applications))
    {
      if id !in applications {
        return Failure(NotFound404);
      }
      var a := applications[id];
      if a.job !in jobs {
        return Failure(ServerError500);
      }
      if !IsOwner(jobs[a.job].creator, caller) {
        return Failure(Forbidden403);
      }
      StatusChangeKeepsInvariants(jobs, applications, id, status);
      GoodStatusChange(Snapshot(), id, status);
      var a' := a.(status := status);
      applications := applications[id := a'];
      Notify(AboutApplication(nextId, a.applicant, id, StatusTitle));
      r := Success(Ok200, a');
    }

    // ---- controllers/payments.controller.js ----

    /** payForJobPosting: 404, then 403 unless the caller created the job,
        then 400 when it is paid for already, then 500 with nothing written
        for an empty transaction id (the required path fails validation in
        `payment.save()`); otherwise a completed payment
        record, the job marked paid with the payment's id, the debit in the
        caller's wallet (no wallet: no change, the update is no upsert) and
        a notice to the caller. */
    method PayForJobPosting(caller: Id, jobId: Id, amount: int, transactionId: string, now: int) returns (r: Response<Id>)
      requires Valid()
      modifies this
      ensures Valid()
      ensures jobId !in old(jobs) ==> r == Failure(NotFound404) && unchanged(this)
      ensures jobId in old(jobs) && old(jobs)[jobId].creator != caller ==> r == Failure(Forbidden403) && unchanged(this)
      ensures jobId in old(jobs) && old(jobs)[jobId].creator == caller && old(jobs)[jobId].paymentStatus == Paid ==>
        r == Failure(BadRequest400) && unchanged(this)
      ensures (jobId in old(jobs) && old(jobs)[jobId].creator == caller && old(jobs)[jobId].paymentStatus != Paid
               && !Required(transactionId)) ==> r == Failure(ServerError500) && unchanged(this)
      ensures (jobId in old(jobs) && old(jobs)[jobId].creator == caller && old(jobs)[jobId].paymentStatus != Paid
               && Required(transactionId)) ==>
        var pid, nid := old(nextId), old(nextId) + 1;
        r == Success(Created201, pid) && pid !in old(payments)
        && payments == old(payments)[pid := JobPostingPayment(amount, caller, jobId, transactionId, now)]
        && jobs == old(jobs)[jobId := old(jobs)[jobId].(paymentStatus := Paid, paymentId := Some(pid), updatedAt := now)]
        && wallets == (if caller in old(wallets)
                       then old(wallets)[caller := PushPayment(old(wallets)[caller], amount, transactionId, now)]
                       else old(wallets))
        && notifications == old(notifications) + [PaymentSucceeded(nid, caller, pid)]
        && |PaymentsForJob(payments, jobId)| == |PaymentsForJob(old(payments), jobId)| + 1
        && applications == old(applications) && users == old(users) && nextId == old(nextId) + 2
    {
      if jobId !in jobs {
        return Failure(NotFound404);
      }
      var job := jobs[jobId];
      if !IsOwner(job.creator, caller) {
        return Failure(Forbidden403);
      }
      if job.paymentStatus == Paid {
        return Failure(BadRequest400);
      }
      if !Required(transactionId) {
        return Failure(ServerError500);
      }
      var pid := CommitJobPayment(caller, jobId, amount, transactionId, now);
      r := Success(Created201, pid);
    }

    /** The four writes of a successful payForJobPosting, in order. */
    method CommitJobPayment(caller: Id, jobId: Id, amount: int, transactionId: string, now: int) returns (pid: Id)
      requires Valid() && jobId in jobs
      modifies this
      ensures Valid()
      ensures pid == old(nextId) && pid !in old(payments)
      ensures payments == old(payments)[pid := JobPostingPayment(amount, caller, jobId, transactionId, now)]
      ensures jobs == old(jobs)[jobId := old(jobs)[jobId].(paymentStatus := Paid, paymentId := Some(pid), updatedAt := now)]
      ensures wallets == (if caller in old(wallets)
                          then old(wallets)[caller := PushPayment(old(wallets)[caller], amount, transactionId, now)]
                          else old(wallets))
      ensures notifications == old(notifications) + [PaymentSucceeded(pid + 1, caller, pid)]
      ensures |PaymentsForJob(payments, jobId)| == |PaymentsForJob(old(payments), jobId)| + 1
      ensures applications == old(applications) && users == old(users) && nextId == old(nextId) + 2
    {
      pid := nextId;
      var p := JobPostingPayment(amount, caller, jobId, transactionId, now);
      AddPaymentForJob(payments, pid, p);
      var d := Snapshot();
      GoodInsertPayment(d, p);
      GoodEditJob(d.(payments := d.payments[pid := p], nextId := pid + 1), jobId,
                  jobs[jobId].(paymentStatus := Paid, paymentId := Some(pid), updatedAt := now));
      payments := payments[pid := p];
      jobs := jobs[jobId := jobs[jobId].(paymentStatus := Paid, paymentId := Some(pid), updatedAt := now)];
      nextId := nextId + 1;
      DebitWallet(caller, amount, transactionId, now);
      Notify(PaymentSucceeded(pid + 1, caller, pid));
    }

    /** The wallet write of payForJobPosting: `findOneAndUpdate` without
        upsert, so nothing happens when the owner has no wallet. */
    method DebitWallet(owner: Id, amount: int, transactionId: string, now: int)
      requires Valid()
      modifies this
      ensures Valid()
      ensures wallets == (if owner in old(wallets)
                          then old(wallets)[owner := PushPayment(old(wallets)[owner], amount, transactionId, now)]
                          else old(wallets))
      ensures jobs == old(jobs) && applications == old(applications) && users == old(users)
      ensures payments == old(payments) && notifications == old(notifications) && nextId == old(nextId)
    {
      if owner in wallets {
        GoodDebit(Snapshot(), owner, amount, transactionId, now);
        wallets := wallets[owner := PushPayment(wallets[owner], amount, transactionId, now)];
      }
    }

    /** `new Notification({...}).save()` under the next id. */
    method Notify(n: Notification)
      requires Valid() && n.id == nextId
      modifies this
      ensures Valid()
      ensures notifications == old(notifications) + [n] && nextId == old(nextId) + 1
      ensures jobs == old(jobs) && applications == old(applications) && users == old(users)
      ensures wallets == old(wallets) && payments == old(payments)
    {
      GoodNotify(Snapshot(), n);
      notifications := notifications + [n];
      nextId := nextId + 1;
    }

    /** getPaymentHistory: the payments the caller made. */
    method GetPaymentHistory(caller: Id, page: Option<int>, limit: Option<int>) returns (r: Response<Listing<set<Id>>>)
      ensures SkipRefused(page, limit) <==> r == Failure(ServerError500)
      ensures !SkipRefused(page, limit) ==> r.Success?
      ensures r.Success? ==> (r.status == Ok200
        && (forall p :: p in r.data.items <==> p in payments && payments[p].payer == caller)
        && r.data.pagination == Paginate(|r.data.items|, page, limit))
    {
      if SkipRefused(page, limit) {
        return Failure(ServerError500);
      }
      var items := set p | p in payments && payments[p].payer == caller;
      r := Success(Ok200, Listing(items, Paginate(|items|, page, limit)));
    }

    /** getPaymentDetails: 404, then 403 unless the caller is the payer. */
    method GetPaymentDetails(caller: Id, id: Id) returns (r: Response<Payment>)
      ensures id !in payments <==> r == Failure(NotFound404)
      ensures id in payments && payments[id].payer != caller <==> r == Failure(Forbidden403)
      ensures id in payments && payments[id].payer == caller ==> r == Success(Ok200, payments[id])
      ensures r.Success? ==> id in payments && payments[id].payer == caller
    {
      if id !in payments {
        return Failure(NotFound404);
      }
      if !IsOwner(payments[id].payer, caller) {
        return Failure(Forbidden403);
      }
      r := Success(Ok200, payments[id]);
    }

    // ---- controllers/wallet.controller.js ----

    /** getWalletInfo: the caller's wallet, 404 exactly when there is none. */
    method GetWalletInfo(caller: Id) returns (r: Response<Wallet>)
      ensures caller !in wallets <==> r == Failure(NotFound404)
      ensures caller in wallets ==> r == Success(Ok200, wallets[caller])
    {
      if caller !in wallets {
        return Failure(NotFound404);
      }
      r := Success(Ok200, wallets[caller]);
    }

    /** getTransactions: `$slice: [skip, limit]` of the caller's entries,
        with `total` set to the length of that slice, so it never exceeds
        the limit. A negative limit is refused by the database (500),
        before the wallet is looked at. */
    method GetTransactions(caller: Id, page: Option<int>, limit: Option<int>) returns (r: Response<Listing<seq<WalletEntry>>>)
      ensures var l := OrDefault(limit, DefaultLimit);
              (l < 0 <==> r == Failure(ServerError500))
              && (l > 0 && caller !in wallets <==> r == Failure(NotFound404))
              && (l > 0 && caller in wallets ==> r.Success?)
      ensures r.Success? ==> (r.status == Ok200 && caller in wallets
        && var p, l := OrDefault(page, DefaultPage), OrDefault(limit, DefaultLimit);
           Some(r.data.items) == MongoSlice(wallets[caller].transactions, Skip(p, l), l)
           && r.data.pagination == Paginate(|r.data.items|, page, limit)
           && r.data.pagination.total == |r.data.items| <= l)
    {
      var p, l := OrDefault(page, DefaultPage), OrDefault(limit, DefaultLimit);
      var slice := MongoSlice(if caller in wallets then wallets[caller].transactions else [], Skip(p, l), l);
      if slice.None? {
        return Failure(ServerError500);
      }
      if caller !in wallets {
        return Failure(NotFound404);
      }
      r := Success(Ok200, Listing(slice.value, Paginate(|slice.value|, page, limit)));
    }

    /** connectWallet: 400 when any wallet, the caller's own included,
        already has the address; otherwise the caller's `walletAddress` is
        set and the caller's wallet takes the address, keeping its balance
        and entries (a wallet is created if there is none). */
    method ConnectWallet(caller: Id, address: string) returns (r: Response<Wallet>)
      requires Valid() && caller in users
      modifies this
      ensures Valid()
      ensures (exists o :: o in old(wallets) && old(wallets)[o].address == address) ==>
        r == Failure(BadRequest400) && unchanged(this)
      ensures (forall o :: o in old(wallets) ==> old(wallets)[o].address != address) ==>
        r.Success? && r.status == Ok200
        && users == old(users)[caller := old(users)[caller].(walletAddress := address)]
        && wallets == old(wallets)[caller := if caller in old(wallets)
                                             then old(wallets)[caller].(address := address)
                                             else NewWallet(caller, address)]
        && r.data == wallets[caller]
        && (caller in old(wallets) ==> wallets[caller].balance == old(wallets)[caller].balance
                                       && wallets[caller].transactions == old(wallets)[caller].transactions)
        && jobs == old(jobs) && applications == old(applications) && payments == old(payments)
        && notifications == old(notifications) && nextId == old(nextId)
    {
      if o :| o in wallets && wallets[o].address == address {
        return Failure(BadRequest400);
      }
      GoodConnect(Snapshot(), caller, address);
      users := users[caller := users[caller].(walletAddress := address)];
      var w := if caller in wallets then wallets[caller].(address := address) else NewWallet(caller, address);
      wallets := wallets[caller := w];
      r := Success(Ok200, w);
    }

    // ---- controllers/user.controller.js ----

    /** updateProfile: the five profile fields written, nothing else in the
        caller's record and no other user changed. */
    method UpdateProfile(caller: Id, profile: Profile) returns (r: Response<User>)
      requires Valid() && caller in users
      modifies this
      ensures Valid()
      ensures r == Success(Ok200, WriteProfile(old(users)[caller], profile))
      ensures users == old(users)[caller := WriteProfile(old(users)[caller], profile)]
      ensures jobs == old(jobs) && applications == old(applications) && wallets == old(wallets)
      ensures payments == old(payments) && notifications == old(notifications) && nextId == old(nextId)
    {
      var u := WriteProfile(users[caller], profile);
      GoodEditUserFields(Snapshot(), caller, u);
      users := users[caller := u];
      r := Success(Ok200, u);
    }

    /** addCertification: a new entry, with a new id, at the end of the
        caller's certifications. */
    method AddCertification(caller: Id, title: Option<string>, provider: Option<string>, issueDate: Option<int>,
                            certId: Option<string>, verificationLink: Option<string>)
      returns (r: Response<seq<Certification>>)
      requires Valid() && caller in users
      modifies this
      ensures Valid()
      ensures var c := Certification(old(nextId), title, provider, issueDate, certId, verificationLink);
        !HasCertification(old(users)[caller].certifications, c.id)
        && users == old(users)[caller := PushCertification(old(users)[caller], c)]
        && r == Success(Created201, users[caller].certifications)
        && nextId == old(nextId) + 1
      ensures jobs == old(jobs) && applications == old(applications) && wallets == old(wallets)
      ensures payments == old(payments) && notifications == old(notifications)
    {
      var c := Certification(nextId, title, provider, issueDate, certId, verificationLink);
      var u := PushCertification(users[caller], c);
      GoodAddCertification(Snapshot(), caller, c);
      users := users[caller := u];
      nextId := nextId + 1;
      r := Success(Created201, u.certifications);
    }

    /** removeCertification: the entries with that id leave the caller's
        certifications; an unknown id changes nothing. */
    method RemoveCertification(caller: Id, id: Id) returns (r: Response<seq<Certification>>)
      requires Valid() && caller in users
      modifies this
      ensures Valid()
      ensures var cs := WithoutCertification(old(users)[caller].certifications, id);
        users == old(users)[caller := old(users)[caller].(certifications := cs)]
        && r == Success(Ok200, cs)
      ensures !HasCertification(old(users)[caller].certifications, id) ==> users == old(users)
      ensures jobs == old(jobs) && applications == old(applications) && wallets == old(wallets)
      ensures payments == old(payments) && notifications == old(notifications) && nextId == old(nextId)
    {
      var u := users[caller];
      var cs := WithoutCertification(u.certifications, id);
      if !HasCertification(u.certifications, id) {
        RemoveUnknownCertification(u.certifications, id);
      }
      GoodPullCertification(Snapshot(), caller, id);
      users := users[caller := u.(certifications := cs)];
      r := Success(Ok200, cs);
    }

    // ---- controllers/notifications.controller.js ----

    /** getUserNotifications: the caller's notifications only. */
    method GetUserNotifications(caller: Id, page: Option<int>, limit: Option<int>)
      returns (r: Response<Listing<seq<Notification>>>)
      ensures SkipRefused(page, limit) <==> r == Failure(ServerError500)
      ensures !SkipRefused(page, limit) ==> r.Success?
      ensures r.Success? ==> (r.status == Ok200 && r.data.items == ForRecipient(notifications, caller)
        && r.data.pagination == Paginate(|r.data.items|, page, limit))
      ensures r.Success? ==> forall n :: n in r.data.items ==> n.recipient == caller
    {
      if SkipRefused(page, limit) {
        return Failure(ServerError500);
      }
      var items := ForRecipient(notifications, caller);
      r := Success(Ok200, Listing(items, Paginate(|items|, page, limit)));
    }

    /** markNotificationAsRead: 404 for an unknown id; otherwise that
        notification is read, whoever its recipient is. */
    method MarkNotificationAsRead(id: Id) returns (r: Response<Notification>)
      requires Valid()
      modifies this
      ensures Valid()
      ensures (forall k :: 0 <= k < |old(notifications)| ==> old(notifications)[k].id != id) ==>
        r == Failure(NotFound404) && unchanged(this)
      ensures r.Success? ==> (r.status == Ok200 && Some(notifications) == MarkRead(old(notifications), id)
        && r.data.id == id && r.data.isRead && r.data in notifications)
      ensures (exists k :: 0 <= k < |old(notifications)| && old(notifications)[k].id == id) ==> r.Success?
      ensures jobs == old(jobs) && applications == old(applications) && users == old(users)
      ensures wallets == old(wallets) && payments == old(payments) && nextId == old(nextId)
    {
      var i := IndexOf(notifications, id);
      if i.None? {
        return Failure(NotFound404);
      }
      var n := notifications[i.value].(isRead := true);
      GoodReadToggle(Snapshot(), notifications[i.value := n]);
      notifications := notifications[i.value := n];
      assert notifications[i.value] == n;
      r := Success(Ok200, n);
    }

    /** markAllNotificationsAsRead: the caller's notifications become read,
        everyone else's stay as they were. */
    method MarkAllNotificationsAsRead(caller: Id) returns (r: Response<()>)
      requires Valid()
      modifies this
      ensures Valid()
      ensures r == Success(Ok200, ())
      ensures notifications == MarkAllRead(old(notifications), caller)
      ensures jobs == old(jobs) && applications == old(applications) && users == old(users)
      ensures wallets == old(wallets) && payments == old(payments) && nextId == old(nextId)
    {
      GoodReadToggle(Snapshot(), MarkAllRead(notifications, caller));
      notifications := MarkAllRead(notifications, caller);
      r := Success(Ok200, ());
    }
  }
}
