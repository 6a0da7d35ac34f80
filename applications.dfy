/** The pure parts of the application handlers: the application
    applyForJob creates, the duplicate test it runs, and the bookkeeping it
    does on the job's `applicantsCount`. */
module Applications {
  import opened Common
  import opened Models

  /** The application applyForJob saves: the schema defaults give status
      pending and a submission date of now. */
  function NewApplication(job: Id, applicant: Id, resume: string, coverLetter: Option<string>, now: int): (a: Application)
    ensures a.job == job && a.applicant == applicant && a.resume == resume && a.coverLetter == coverLetter
    ensures a.status == Pending && a.submissionDate == now
  {
    Application(job, applicant, resume, coverLetter, Pending, now)
  }

  /** applyForJob's `findOne({job, applicant})`. */
  predicate HasApplied(apps: map<Id, Application>, job: Id, applicant: Id) {
    exists a :: a in apps && apps[a].job == job && apps[a].applicant == applicant
  }

  /** At most one application per (job, applicant). The schema has no
      unique index for the pair: only the handler's test keeps it. */
  predicate UniqueApplications(apps: map<Id, Application>) {
    forall a, b :: a in apps && b in apps && a != b ==>
      apps[a].job != apps[b].job || apps[a].applicant != apps[b].applicant
  }

  /** The applications for one job. */
  function ApplicationsFor(apps: map<Id, Application>, job: Id): set<Id> {
    set a | a in apps && apps[a].job == job
  }

  /** Every job's `applicantsCount` is the number of its applications. */
  predicate CountAccurate(jobs: map<Id, Job>, apps: map<Id, Application>) {
    forall j :: j in jobs ==> jobs[j].applicantsCount == |ApplicationsFor(apps, j)|
  }

  /** `job.applicantsCount += 1` followed by `job.save()`. */
  function Bump(j: Job, now: int): (r: Job)
    ensures r.applicantsCount == j.applicantsCount + 1 && r.updatedAt == now
    ensures r.(applicantsCount := j.applicantsCount, updatedAt := j.updatedAt) == j
  {
    j.(applicantsCount := j.applicantsCount + 1, updatedAt := now)
  }

  /** applyForJob's lookup is exactly the test uniqueness needs: inserting
      an application keeps the pairs unique if and only if its pair has
      none yet. */
  lemma InsertApplicationKeepsUnique(apps: map<Id, Application>, id: Id, a: Application)
    requires UniqueApplications(apps) && id !in apps
    ensures UniqueApplications(apps[id := a]) <==> !HasApplied(apps, a.job, a.applicant)
  {
    if HasApplied(apps, a.job, a.applicant) {
      var w :| w in apps && apps[w].job == a.job && apps[w].applicant == a.applicant;
      var m := apps[id := a];
      assert w in m && id in m && w != id && m[w] == apps[w] && m[id] == a;
      assert !(m[w].job != m[id].job || m[w].applicant != m[id].applicant);
    }
  }

  /** A new application counts once for its job and not at all for any
      other job. */
  lemma InsertCountsOnce(apps: map<Id, Application>, id: Id, a: Application)
    requires id !in apps
    ensures ApplicationsFor(apps[id := a], a.job) == ApplicationsFor(apps, a.job) + {id}
    ensures |ApplicationsFor(apps[id := a], a.job)| == |ApplicationsFor(apps, a.job)| + 1
    ensures forall j :: j != a.job ==> ApplicationsFor(apps[id := a], j) == ApplicationsFor(apps, j)
  {
    assert ApplicationsFor(apps[id := a], a.job) == ApplicationsFor(apps, a.job) + {id};
  }

  /** The insert together with the bump keeps every count accurate. */
  lemma ApplyKeepsCountAccurate(jobs: map<Id, Job>, apps: map<Id, Application>, id: Id, a: Application, now: int)
    requires CountAccurate(jobs, apps) && id !in apps && a.job in jobs
    ensures CountAccurate(jobs[a.job := Bump(jobs[a.job], now)], apps[id := a])
  {
    InsertCountsOnce(apps, id, a);
  }

  /** A status change keeps the job and the applicant of every application,
      so it keeps the pairs unique and the counts accurate. */
  lemma StatusChangeKeepsInvariants(jobs: map<Id, Job>, apps: map<Id, Application>, id: Id, s: ApplicationStatus)
    requires id in apps
    ensures UniqueApplications(apps) ==> UniqueApplications(apps[id := apps[id].(status := s)])
    ensures CountAccurate(jobs, apps) ==> CountAccurate(jobs, apps[id := apps[id].(status := s)])
  {
    forall j | j in jobs
      ensures ApplicationsFor(apps[id := apps[id].(status := s)], j) == ApplicationsFor(apps, j)
    {
    }
  }
}
