/** Request sequences against one store: what a client sees when it calls
    the handlers one after another. */
module Scenarios {
  import opened Common
  import opened Models
  import opened Ledger
  import opened Applications
  import opened Marketplace
  import Jobs

  /** Paying twice in a row for one job: the first call succeeds, the
      second is refused with 400, so the job gains one payment and the
      payer's wallet is debited once. */
  method PayTwice(s: Store, caller: Id, jobId: Id, amount: int, transactionId: string, now: int, later: int)
    returns (first: Response<Id>, second: Response<Id>)
    requires s.Valid() && jobId in s.jobs && s.jobs[jobId].creator == caller
    requires s.jobs[jobId].paymentStatus != Paid && caller in s.wallets && Required(transactionId)
    modifies s
    ensures s.Valid()
    ensures first.Success? && second == Failure(BadRequest400)
    ensures |PaymentsForJob(s.payments, jobId)| == |PaymentsForJob(old(s.payments), jobId)| + 1
    ensures caller in s.wallets && s.wallets[caller] == PushPayment(old(s.wallets[caller]), amount, transactionId, now)
    ensures s.wallets[caller].balance == old(s.wallets[caller].balance) - amount
    ensures Consistent(s.wallets[caller])
  {
    first := s.PayForJobPosting(caller, jobId, amount, transactionId, now);
    second := s.PayForJobPosting(caller, jobId, amount, transactionId, later);
  }

  /** publishJob on an unpaid job is refused; after the creator pays, the
      same call publishes it. */
  method PayThenPublish(s: Store, caller: Id, jobId: Id, amount: int, transactionId: string, now: int)
    returns (before: Response<Job>, paid: Response<Id>, after: Response<Job>)
    requires s.Valid() && jobId in s.jobs && s.jobs[jobId].creator == caller
    requires s.jobs[jobId].paymentStatus != Paid && Required(transactionId)
    modifies s
    ensures s.Valid()
    ensures before == Failure(BadRequest400) && paid.Success? && after.Success?
    ensures jobId in s.jobs && s.jobs[jobId].status == Published && s.jobs[jobId].paymentStatus == Paid
  {
    before := s.PublishJob(caller, jobId, now);
    paid := s.PayForJobPosting(caller, jobId, amount, transactionId, now);
    after := s.PublishJob(caller, jobId, now);
  }

  /** Applying twice to one job: the second application is refused, so the
      job keeps one application from the caller and its count goes up once. */
  method ApplyTwice(s: Store, caller: Id, jobId: Id, resume: string, now: int)
    returns (first: Response<Id>, second: Response<Id>)
    requires s.Valid() && caller in s.users && jobId in s.jobs
    requires s.jobs[jobId].status == Published && now <= s.jobs[jobId].deadline
    requires !HasApplied(s.applications, jobId, caller) && Required(resume)
    modifies s
    ensures s.Valid()
    ensures first.Success? && second == Failure(BadRequest400)
    ensures HasApplied(s.applications, jobId, caller)
    ensures jobId in s.jobs && s.jobs[jobId].applicantsCount == old(s.jobs[jobId].applicantsCount) + 1
    ensures CountAccurate(old(s.jobs), old(s.applications)) ==> CountAccurate(s.jobs, s.applications)
  {
    first := s.ApplyForJob(caller, jobId, resume, None, now);
    assert s.applications[first.data].job == jobId && s.applications[first.data].applicant == caller;
    second := s.ApplyForJob(caller, jobId, resume, None, now);
  }

  /** A job created with `status: "published"` in the body is published
      but unpaid: the payment gate of publishJob is not on this path. */
  method CreatePublishedBypass(s: Store, caller: Id, input: Jobs.JobInput, now: int) returns (r: Response<Id>)
    requires s.Valid() && input.status == Some(Published) && Jobs.InputValid(input)
    modifies s
    ensures s.Valid()
    ensures r.Success? && r.data in s.jobs
    ensures s.jobs[r.data].status == Published && s.jobs[r.data].paymentStatus == Unpaid
  {
    r := s.CreateJob(caller, input, now);
  }

  /** The paid flag is no lasting guard: updateJob lets the creator write
      `paymentStatus: "unpaid"` back, and payForJobPosting then charges
      again, so the job ends with two more payments and the wallet is
      debited twice. */
  method RepayAfterReset(s: Store, caller: Id, jobId: Id, amount: int, first: string, second: string, now: int)
    returns (paid: Response<Id>, reset: Response<Job>, repaid: Response<Id>)
    requires s.Valid() && jobId in s.jobs && s.jobs[jobId].creator == caller
    requires s.jobs[jobId].paymentStatus != Paid && caller in s.wallets
    requires Required(first) && Required(second)
    modifies s
    ensures s.Valid()
    ensures paid.Success? && reset.Success? && repaid.Success?
    ensures |PaymentsForJob(s.payments, jobId)| == |PaymentsForJob(old(s.payments), jobId)| + 2
    ensures caller in s.wallets && s.wallets[caller].balance == old(s.wallets[caller].balance) - 2 * amount
  {
    paid := s.PayForJobPosting(caller, jobId, amount, first, now);
    reset := s.UpdateJob(caller, jobId, Jobs.EmptyPatch.(paymentStatus := Some(Unpaid)), now);
    repaid := s.PayForJobPosting(caller, jobId, amount, second, now);
  }
}
