# Job marketplace server: authorization, lifecycle gates and the wallet ledger

This project models the request handlers of a job-marketplace REST server
built on Express and Mongoose. Employers post jobs, pay for them in ETH and
publish them. Job seekers save jobs and apply to them. Every handler runs the
same rule chain: load a document, check that it exists, check ownership or
role, check a precondition, then write one or more collections. Every
rejection leaves the database as it was.

The database is the class `Marketplace.Store`. It keeps jobs, applications,
users, wallets and payments as maps from document id to document, and the
notifications as a sequence in insertion order. A counter `nextId` plays the
part of the ObjectId generator. The store has one method per handler. Each
method returns a `Response` that carries the HTTP status the handler sends.
Each method's postcondition gives the whole new state in terms of the old
one, and every method keeps the invariant `Valid()`, which says:

- every id in use is below the next id;
- there is at most one application per (job, applicant);
- usernames, emails and wallet addresses are unique;
- every user has a wallet, keyed by that user and holding that user's address;
- in every wallet, the balance equals the sum of the entry amounts.

`Tables.Good` states this invariant on a value of the whole database, with
one lemma per kind of write that the handlers perform. The pure parts of
the handlers are modules of functions and lemmas:

- the schemas (`Models`);
- the ledger (`Ledger`);
- the `page`/`limit` arithmetic and the two slice operators, JavaScript
  `Array.prototype.slice` and MongoDB `$slice` (`Pagination`);
- the authentication middleware (`Middleware`);
- the ownership comparison (`Identity`);
- job documents and listings (`Jobs`);
- users (`Accounts`);
- applications (`Applications`);
- notifications (`Notices`).

`Scenarios` strings requests together: paying twice, publishing before
and after paying, applying twice, and creating a published job directly.

Inputs the model cannot compute are parameters: the clock (`now`), the JWT
verification outcome (`verify`), the bcrypt comparison (`passwordMatches`)
and the `$text` search (`textMatches`). Query strings are `Option<int>`
(the value `parseInt` gives, or none for NaN). ETH amounts are integers in
the smallest unit.

The global rule "published implies paid" does not hold in this code, and
the model does not claim it. `createJob` accepts `status` from the body
(`Jobs.CreatePublishedUnpaid`, `Scenarios.CreatePublishedBypass`).
`updateJob` writes the whole body over the job, including `status`,
`paymentStatus`, `applicantsCount` and `creator`
(`Jobs.PatchBypassesPaymentGate`). What holds is the gate of `publishJob`
itself.

The rule "each job is paid for at most once" does not hold either.
`updateJob` can write `paymentStatus` back to unpaid, and
`payForJobPosting` then charges again (`Scenarios.RepayAfterReset`). What
holds is that a payment right after another for the same job is refused
(`Scenarios.PayTwice`).

The ownership checks, as the source writes them, compare a string strictly
with an ObjectId, so they never let the owner through (see "## Findings").
The store models them as intended, comparing the two ids as text
(`Identity.IsOwner`). Every statement below about an owner's request
succeeding is about that corrected program. As written, the owner of a job,
an application or a payment gets 403 from every owner-only handler.

## Model

| member | source | states |
|---|---|---|
| Marketplace.Store.Register | controllers/auth.controller.js:10-39 | 400 with no change when an existing user has the email, the username or the wallet address; then 500 with no change when one of the four required strings is empty (`Accounts.UserFieldsValid`). Otherwise exactly one new user (with an empty profile, no saved jobs and no certifications) and one new wallet, owned by that user, with that address, balance 0 and no entries. The invariant, including a consistent ledger, holds afterwards |
| Marketplace.Store.Login | controllers/auth.controller.js:75-90 | 404 exactly when no user has the email. For the user with the email: 200 with that user when the password check passes, otherwise 401 |
| Marketplace.Store.CreateJob | controllers/jobs.controller.js:162-186 | 500 with no change when a required string of the body is empty (`Jobs.InputValid`); otherwise one new job under a new id, created by the caller, and nothing else changes |
| Marketplace.Store.GetJobById | controllers/jobs.controller.js:117-132 | 404 exactly when the job is missing, otherwise that job, drafts included |
| Marketplace.Store.UpdateJob | controllers/jobs.controller.js:199-226 | 404 before 403, with no change on either. For the creator, that one job becomes the body written over it, and nothing else changes |
| Marketplace.Store.DeleteJob | controllers/jobs.controller.js:240-261 | 404 before 403, with no change on either. For the creator, only that job leaves the jobs, and its applications stay |
| Marketplace.Store.PublishJob | controllers/jobs.controller.js:275-308 | 404, then 403, then 400 for an unpaid job, with no change on any of them. A success changes only that job's status (to published) and update time, and the job it returns is paid. A paid job of the caller's is always published |
| Marketplace.Store.SaveJob | controllers/jobs.controller.js:326-348 | 404 for a missing job, 400 if the id is already saved, with no change on either. Otherwise the id is appended once to the caller's saved jobs, which stay duplicate-free if they were |
| Marketplace.Store.UnsaveJob | controllers/jobs.controller.js:366-370 | always 200; every occurrence of the id leaves the caller's saved jobs, with no existence check, and nothing else changes |
| Marketplace.Store.GetAllJobs | controllers/jobs.controller.js:9-45 | 500 exactly when the skip is negative; any other request succeeds, with the published jobs that pass the type, level and urgency filters and the page block computed from their number |
| Marketplace.Store.SearchJobs | controllers/jobs.controller.js:62-100 | 400 without a query. Otherwise 500 exactly when the skip is negative, and any other request succeeds with the published jobs that the text search matches |
| Marketplace.Store.GetUserJobs | controllers/jobs.controller.js:384-456 | 500 exactly when the skip is negative; any other request succeeds with the drafts (or the published jobs) of the caller, and only those |
| Marketplace.Store.GetUserSavedJobs | controllers/jobs.controller.js:468-498 | `slice(skip, skip + limit)` of the saved jobs that still exist, with the total counting them all. Every job returned exists and is among the caller's saved jobs |
| Marketplace.Store.ApplyForJob | controllers/applications.controller.js:13-79 | the rejections in order: 404 missing job, 400 not published, 400 deadline before now, 400 already applied, each with no change, then 500 with no change for an empty `resume` (the required path fails validation). Applying at the deadline instant is accepted, and a request past all five checks succeeds. A success adds exactly one pending application and raises that job's count by one. It also notifies the job's creator, keeps at most one application per (job, applicant), and keeps every count accurate if the counts were accurate before |
| Marketplace.Store.CommitApplication | controllers/applications.controller.js:50-74 | the three writes of a successful apply: the application, the count raised by one, and the notice to the creator |
| Marketplace.Store.GetApplicationsForJob | controllers/applications.controller.js:93-133 | 404, then 403 unless the caller created the job; for the creator, 500 exactly when the skip is negative and success otherwise, holding exactly that job's applications |
| Marketplace.Store.GetUserApplications | controllers/applications.controller.js:148-178 | 500 exactly when the skip is negative; any other request succeeds with exactly the caller's applications |
| Marketplace.Store.GetApplicationById | controllers/applications.controller.js:193-222 | 404 exactly when the application is missing. A success means the caller is the applicant or the job's creator. The applicant always succeeds, and so does the creator. 403 exactly for a caller who is neither, once the populated documents exist |
| Marketplace.Store.UpdateApplicationStatus | controllers/applications.controller.js:240-279 | 404, then 500 when the job is gone, then 403 unless the caller created the job, each with no change. Otherwise any new status, with no transition order, and one notice to the applicant. The application pairs and the counts are kept |
| Marketplace.Store.PayForJobPosting | controllers/payments.controller.js:12-83 | 404, then 403, then 400 for a paid job, then 500 for an empty `transactionId`, each with no change. Otherwise the request succeeds: it writes a completed job-posting payment for the job and marks the job paid with that payment's id. It then appends a `payment` entry of minus the amount to the payer's wallet and lowers the balance by the amount, with no floor; a payer with no wallet sees no wallet change. Finally it notifies the payer. The job has one more payment than before |
| Marketplace.Store.CommitJobPayment | controllers/payments.controller.js:36-79 | the four writes of a successful payment, in order |
| Marketplace.Store.DebitWallet | controllers/payments.controller.js:54-67 | `$push` of the debit together with `$inc` of the balance, in place; no change when the owner has no wallet (no upsert); the ledger stays consistent |
| Marketplace.Store.Notify | controllers/applications.controller.js:65-74 | a notification saved under a new id, appended at the end |
| Marketplace.Store.GetPaymentHistory | controllers/payments.controller.js:98-127 | 500 exactly when the skip is negative; any other request succeeds with exactly the payments the caller made |
| Marketplace.Store.GetPaymentDetails | controllers/payments.controller.js:142-163 | 404 exactly when the payment is missing, 403 exactly when the caller is not the payer, otherwise that payment |
| Marketplace.Store.GetWalletInfo | controllers/wallet.controller.js:6-19 | 404 exactly when the caller owns no wallet, otherwise that wallet |
| Marketplace.Store.GetTransactions | controllers/wallet.controller.js:31-60 | 500 exactly for a negative limit, and 404 exactly for a positive limit without a wallet; a positive limit with a wallet succeeds. On success the entries are `$slice: [skip, limit]` of the wallet's entries, and `total` is the number of entries returned, so it never exceeds the limit |
| Marketplace.Store.ConnectWallet | controllers/wallet.controller.js:76-98 | 400 with no change when any wallet, the caller's own included, has the address. Otherwise the user's address is set and the caller's wallet takes it, keeping its balance and entries (a new wallet starts at 0 with no entries). Nothing else changes, and addresses stay unique |
| Marketplace.Store.UpdateProfile | controllers/user.controller.js:34-50 | the five profile fields are written; the rest of the caller's record and every other user are unchanged |
| Marketplace.Store.AddCertification | controllers/user.controller.js:65-85 | one entry, with an id no entry of the caller's has, appended after the existing ones in order; only the caller's record changes |
| Marketplace.Store.RemoveCertification | controllers/user.controller.js:100-114 | the caller's certifications become `Accounts.WithoutCertification` of the old ones (the entries with that id go, the rest stay in order, by `Accounts.WithoutCertificationAppend`); an unknown id changes nothing; only the caller's record changes |
| Marketplace.Store.GetUserNotifications | controllers/notifications.controller.js:10-19 | 500 exactly when the skip is negative; any other request succeeds with only the caller's notifications, in stored order |
| Marketplace.Store.MarkNotificationAsRead | controllers/notifications.controller.js:45-56 | 404 with no change for an unknown id. Otherwise that notification is read, whoever its recipient is, and only it changes. A success happens exactly when the id exists |
| Marketplace.Store.MarkAllNotificationsAsRead | controllers/notifications.controller.js:75-78 | the caller's notifications become read, and everyone else's stay as they were |
| Scenarios.PayTwice | controllers/payments.controller.js:28-67 | a second payment right after the first is refused with 400: the job has one more payment than before, and the wallet is debited once and stays consistent |
| Scenarios.RepayAfterReset | controllers/jobs.controller.js:217-221 | after paying, the creator writes `paymentStatus: "unpaid"` through updateJob and pays again with success: the job gains two payments and the wallet is debited twice (payments.controller.js:28-67) |
| Scenarios.PayThenPublish | controllers/jobs.controller.js:293-303 | publishing an unpaid job is refused; after the payment the same call publishes it |
| Scenarios.ApplyTwice | controllers/applications.controller.js:37-47 | a second application to the same job is refused with 400, and the count goes up once |
| Scenarios.CreatePublishedBypass | controllers/jobs.controller.js:162-178 | a job created with a published status in the body is published and unpaid |
| Identity.IsOwnerAsWritten | controllers/jobs.controller.js:209 | the ownership comparison as written compares a string strictly with an ObjectId and holds for no caller |
| Identity.IsOwner | controllers/payments.controller.js:155 | the comparison of the two ids as text holds exactly for the owner |
| Identity.OwnerRefusedAsWritten | controllers/applications.controller.js:104 | the owner fails the check as written and passes the intended one |
| Identity.IdTextInjective | middlewares/auth.middleware.js:31 | distinct ids have distinct texts |
| Identity.StrictEquals | controllers/applications.controller.js:253 | `===` against a string holds exactly for a string with the same text |
| Middleware.IndexOfSpace | middlewares/auth.middleware.js:9 | the first space, with no space before it |
| Middleware.Split | middlewares/auth.middleware.js:9 | the fields of `split(" ")`: at least one, none holding a space |
| Middleware.JoinSplit | middlewares/auth.middleware.js:9 | joining the fields with single spaces gives back the header |
| Middleware.SplitJoin | middlewares/auth.middleware.js:9 | splitting space-free fields joined with spaces gives back the fields |
| Middleware.IndexOfSpaceOfField | middlewares/auth.middleware.js:9 | the first space of "field rest" is right after the field |
| Middleware.BearerToken | middlewares/auth.middleware.js:8-16 | a token exactly when the header is present and non-empty and its second space-separated field exists and is non-empty; the token is that field |
| Middleware.TokenAfterAnyScheme | middlewares/auth.middleware.js:9 | any first word is accepted: "word token" yields the token |
| Middleware.NoSpaceNoToken | middlewares/auth.middleware.js:9-16 | a header without a space yields no token |
| Middleware.DoubleSpaceNoToken | middlewares/auth.middleware.js:9-16 | two spaces after the scheme yield no token |
| Middleware.VerifyErrorStatus | middlewares/auth.middleware.js:42-62 | the two JWT errors give 403, anything else 500 |
| Middleware.Authenticate | middlewares/auth.middleware.js:5-62 | 401 without a token and 401 when the user no longer exists; a verification error gives its mapped status. On success the request user is the stored user's id, role and wallet address |
| Middleware.AuthenticateSucceedsForExistingUser | middlewares/auth.middleware.js:22-35 | a verified token of an existing user is always admitted with that user's fields |
| Middleware.IsEmployer | middlewares/auth.middleware.js:67-76 | passes exactly for the employer role, otherwise 403 |
| Middleware.IsJobSeeker | middlewares/auth.middleware.js:78-87 | passes exactly for the job-seeker role, otherwise 403 |
| Middleware.RoleGatesExclusive | middlewares/auth.middleware.js:67-87 | every user passes exactly one of the two role gates |
| Middleware.HasWallet | middlewares/auth.middleware.js:89-98 | passes exactly when the stored user's wallet address is non-empty, otherwise 400 |
| Middleware.GuardOf | routes/jobs.routes.js:10-38 | the gate before each handler: only the job listings, sign-up and sign-in are public; the employer-only and job-seeker-only routes are exactly those the route files give `isEmployer` and `isJobSeeker` (also routes/applications.routes.js:10-38); payments, wallets, profiles and notifications need a signed-in user of either role (routes/payments.routes.js, routes/wallet.routes.js, routes/user.routes.js, routes/notifications.routes.js) |
| Middleware.Admit | routes/jobs.routes.js:15-23 | the token check runs before the role gate; an admitted user exists and has the role the gate asks for |
| Middleware.JobMutationsNeedEmployer | routes/jobs.routes.js:15-23 | only an employer gets through to create, edit, delete or publish a job, or to change an application's status |
| Middleware.ApplyNeedsJobSeeker | routes/applications.routes.js:10-15 | only a job seeker gets through to apply |
| Pagination.OrDefault | controllers/jobs.controller.js:9-10 | `parseInt(x) \|\| d`: a missing or zero value becomes the default, and any other value is kept |
| Pagination.CeilDiv | controllers/jobs.controller.js:45 | `Math.ceil(total / limit)` lies between the two neighbouring multiples |
| Pagination.Paginate | controllers/jobs.controller.js:40-47 | the page block: for a positive limit, the last page holds the last item |
| Pagination.PagesBound | controllers/jobs.controller.js:45 | for a positive limit: no pages for no items; otherwise `(pages-1)*limit < total <= pages*limit` |
| Pagination.ItemOnItsPage | controllers/jobs.controller.js:11 | item i lies in page `i / limit + 1`, which exists |
| Pagination.SliceIndex | controllers/jobs.controller.js:483 | how `slice` clamps an index: negative counts from the end |
| Pagination.JsSlice | controllers/jobs.controller.js:483 | `slice(start, end)`: the items between the clamped indices |
| Pagination.JsSliceWindow | controllers/jobs.controller.js:483-484 | a page of `slice(skip, skip+limit)` holds at most limit items, all of them consecutive from skip |
| Pagination.JsPagesCover | controllers/jobs.controller.js:483 | a page and the rest after it make up the whole tail |
| Pagination.MongoSliceStart | controllers/wallet.controller.js:38 | where `$slice` starts: a skip within the sequence is kept, one past the end starts at the end, a negative one counts from the end and is clamped to the start |
| Pagination.MongoSlice | controllers/wallet.controller.js:36-38 | `$slice: [skip, limit]` is refused for a non-positive limit; otherwise at most limit consecutive entries |
| Pagination.Skip | controllers/jobs.controller.js:11 | `(page - 1) * limit`: for a positive limit, a whole number of pages, exactly `page - 1` of them, and negative exactly for a page below 1 |
| Pagination.SkipRefused | controllers/jobs.controller.js:9-11 | the skip MongoDB refuses: negative exactly for a page below 1 with a positive limit, or above 1 with a negative limit; the default page is never refused |
| Jobs.NewJob | controllers/jobs.controller.js:162-178 | the creator is the caller, the status defaults to draft but the body's status is honoured, and the job starts unpaid with no applicants |
| Jobs.CreatePublishedUnpaid | controllers/jobs.controller.js:177 | a body status of published gives a published, unpaid job |
| Jobs.ApplyPatch | controllers/jobs.controller.js:217-221 | every field the body carries is written and every other field kept, `status`, `paymentStatus`, `paymentId`, `applicantsCount` and `creator` included; only `createdAt` is out of reach, and the time is now |
| Jobs.ApplyPatchTwice | controllers/jobs.controller.js:217-221 | writing the same body twice is writing it once |
| Jobs.EmptyPatchTouchesOnlyUpdatedAt | controllers/jobs.controller.js:217-221 | an empty body changes only the update time |
| Jobs.PatchBypassesPaymentGate | controllers/jobs.controller.js:217-221 | an update can publish an unpaid job |
| Jobs.AppendFreshKeepsNoDuplicates | controllers/jobs.controller.js:333-344 | appending an id that is not yet saved keeps the list duplicate-free |
| Jobs.RemoveAll | controllers/jobs.controller.js:366 | `$pull`: the id is gone, every other id keeps its multiplicity |
| Jobs.RemoveAbsent | controllers/jobs.controller.js:366 | pulling an absent id changes nothing |
| Jobs.RemoveAllIdempotent | controllers/jobs.controller.js:366 | unsaving twice is unsaving once |
| Jobs.SaveThenUnsave | controllers/jobs.controller.js:344 | saving a new id and unsaving it gives back the list |
| Jobs.ExistingJobs | controllers/jobs.controller.js:473-481 | populate drops saved ids whose job is gone, keeping the others; never longer than the saved list |
| Jobs.ExistingJobsOne | controllers/jobs.controller.js:473-481 | one saved id is kept exactly when its job exists |
| Jobs.ExistingJobsAppend | controllers/jobs.controller.js:473-481 | on a concatenation the filter is the filter of each part, in order: the kept ids keep their order and repetitions |
| Jobs.ExistingJobsAllPresent | controllers/jobs.controller.js:473-481 | when every saved job exists, populate keeps the whole list |
| Jobs.PublicListing | controllers/jobs.controller.js:14-19 | exactly the published jobs that pass the filters |
| Jobs.ListingOnlyPublished | controllers/jobs.controller.js:14 | a job that is not published is never listed |
| Jobs.SearchListing | controllers/jobs.controller.js:76-80 | exactly the published jobs the search matches |
| Jobs.CreatorListing | controllers/jobs.controller.js:389-391 | exactly the caller's jobs in one status |
| Jobs.DraftsAndPublishedDisjoint | controllers/jobs.controller.js:389-442 | the drafts list and the published list never share a job |
| Accounts.NewUser | controllers/auth.controller.js:23-30 | the new user has the given fields, an empty profile and no saved jobs or certifications |
| Accounts.Clashes | controllers/auth.controller.js:9-11 | the `$or` lookup: some user has the email, the username or the wallet address (its meaning is fixed by `Accounts.InsertUserKeepsUnique`) |
| Accounts.InsertUserKeepsUnique | controllers/auth.controller.js:9-20 | adding a new user keeps the three fields unique if and only if the user clashes with nobody |
| Accounts.WriteProfile | controllers/user.controller.js:34-44 | only the profile changes |
| Accounts.PushCertification | controllers/user.controller.js:68-76 | the entry goes at the end and only the certifications change |
| Accounts.WithoutCertification | controllers/user.controller.js:103-105 | no entry with the id is left, the others all stay, and nothing new appears |
| Accounts.WithoutCertificationOne | controllers/user.controller.js:103-105 | one entry is kept exactly when its id differs |
| Accounts.WithoutCertificationAppend | controllers/user.controller.js:103-105 | on a concatenation the pull is the pull of each part, in order: the kept entries keep their order and repetitions |
| Accounts.RemoveUnknownCertification | controllers/user.controller.js:103-105 | pulling an unknown id changes nothing |
| Accounts.PushThenPull | controllers/user.controller.js:65-108 | pulling the id just pushed gives back the list |
| Accounts.PullTwice | controllers/user.controller.js:103-105 | pulling twice is pulling once |
| Applications.NewApplication | controllers/applications.controller.js:50-56 | the new application has the given fields, status pending and today's date |
| Applications.Bump | controllers/applications.controller.js:59-61 | the count goes up by exactly one and nothing else in the job changes but the update time |
| Applications.HasApplied | controllers/applications.controller.js:37-40 | the `findOne({job, applicant})` lookup (its meaning is fixed by `Applications.InsertApplicationKeepsUnique`) |
| Applications.InsertApplicationKeepsUnique | controllers/applications.controller.js:37-47 | inserting an application keeps at most one per pair if and only if its pair has none yet |
| Applications.InsertCountsOnce | controllers/applications.controller.js:50-61 | a new application counts once for its job and for no other |
| Applications.ApplyKeepsCountAccurate | controllers/applications.controller.js:50-61 | insert plus increment keeps every count equal to the number of applications |
| Applications.StatusChangeKeepsInvariants | controllers/applications.controller.js:261-262 | a status change keeps the pairs unique and the counts accurate |
| Ledger.SumAppend | controllers/payments.controller.js:54-67 | appending an entry adds its amount to the sum |
| Ledger.NewWallet | controllers/auth.controller.js:34-39 | a new wallet has the owner and address, balance 0, no entries, and a consistent ledger |
| Ledger.PushPayment | controllers/payments.controller.js:54-67 | the debit lowers the balance by the amount, appends the entry, and keeps a consistent ledger consistent |
| Ledger.TwoPaymentsDebitBoth | controllers/payments.controller.js:54-67 | two debits lower the balance by both amounts and keep the ledger consistent |
| Ledger.JobPostingPayment | controllers/payments.controller.js:36-46 | a completed job-posting payment in ETH, by the payer, for the job |
| Ledger.AddPaymentForJob | controllers/payments.controller.js:36-48 | recording a payment adds exactly one payment for that job and none for any other |
| Notices.AboutApplication | controllers/applications.controller.js:65-72 | an unread application notice to the given recipient with the given title; applyForJob sends it to the job's creator, updateApplicationStatus (controllers/applications.controller.js:265-272) to the applicant |
| Notices.PaymentSucceeded | controllers/payments.controller.js:70-78 | the notice to the payer, unread |
| Notices.IndexOf | controllers/notifications.controller.js:45 | the first notification with the id, or none when no notification has it |
| Notices.MarkRead | controllers/notifications.controller.js:45-56 | none exactly when no notification has the id; otherwise only that one becomes read |
| Notices.MarkReadIdempotent | controllers/notifications.controller.js:45-49 | marking read twice is marking read once |
| Notices.SameIndex | controllers/notifications.controller.js:45-49 | a change of read flags keeps every id where it was |
| Notices.MarkAllRead | controllers/notifications.controller.js:75-78 | the recipient's notifications become read, and the others are unchanged |
| Notices.MarkAllReadLeavesNoneUnread | controllers/notifications.controller.js:75-78 | afterwards none of the caller's notifications is unread, and a second call changes nothing |
| Notices.ForRecipient | controllers/notifications.controller.js:10-12 | exactly the recipient's notifications |
| Notices.ForRecipientAppend | controllers/notifications.controller.js:10-19 | a new notification shows up in its recipient's list only, at the end |
| Tables.AlignedAddressesUnique | models/Wallet.js:11-15 | wallet addresses are unique because they are their owners' addresses |
| Tables.FreeAddressFreeForUsers | controllers/wallet.controller.js:76-85 | an address no wallet holds is held by no user |
| Tables.GoodEmpty | models/Wallet.js:3-53 | the empty database satisfies the invariant |
| Tables.GoodAddressesUnique | models/Wallet.js:11-15 | in every database the handlers can reach, no two wallets share an address |
| Tables.GoodRegister | controllers/auth.controller.js:23-39 | registering keeps the invariant |
| Tables.GoodNewJob | controllers/jobs.controller.js:162-180 | creating a job keeps the invariant |
| Tables.GoodEditJob | controllers/jobs.controller.js:217-221 | rewriting one job keeps the invariant |
| Tables.GoodDeleteJob | controllers/jobs.controller.js:257 | deleting a job keeps the invariant |
| Tables.GoodEditUser | controllers/user.controller.js:34-44 | rewriting a user with the same unique fields keeps the invariant |
| Tables.GoodEditUserFields | controllers/jobs.controller.js:343 | saving or unsaving a job, or writing the profile, keeps the invariant |
| Tables.GoodAddCertification | controllers/user.controller.js:65-79 | the pushed entry is new, and the push keeps the invariant |
| Tables.GoodPullCertification | controllers/user.controller.js:100-108 | the pull keeps the invariant |
| Tables.GoodConnect | controllers/wallet.controller.js:85-92 | connecting a free address keeps the invariant |
| Tables.GoodDebit | controllers/payments.controller.js:54-67 | the debit keeps the invariant |
| Tables.GoodNotify | controllers/applications.controller.js:65-74 | saving a notification keeps the invariant |
| Tables.GoodReadToggle | controllers/notifications.controller.js:45-78 | changing read flags keeps the invariant |
| Tables.GoodInsertApplication | controllers/applications.controller.js:37-56 | inserting an application for a new pair keeps the invariant |
| Tables.GoodStatusChange | controllers/applications.controller.js:261-262 | a status change keeps the invariant |
| Tables.GoodInsertPayment | controllers/payments.controller.js:36-48 | recording a payment keeps the invariant |

## Left out

- HTTP shaping, the JSON bodies, the messages and `console.error` logging are not modelled. The `required` validator on String paths is modelled: an empty required string makes register, createJob, applyForJob and payForJobPosting answer 500 with nothing written (`Models.Required`). The model's strings stand for both a missing and an empty value. The other catch-all 500 answers to database exceptions are not modelled: a missing or out-of-enum enum or date field, cast errors on malformed ids, and the duplicate-key errors of the unique indexes. The typed inputs of the model cannot express them. updateJob's `findByIdAndUpdate` runs no validators, so an out-of-enum status in its body would be stored; the typed `Jobs.JobPatch` cannot express that case either.
- Handlers behind `authenticateToken` that read the caller's own user document (saveJob, getUserSavedJobs, applyForJob, connectWallet, updateProfile, addCertification, removeCertification) require that the caller exists. The middleware checks this before the handler runs, and no handler deletes a user. If the user were missing, updateProfile would answer 200 with no data and connectWallet would answer 200 and upsert a wallet; those answers are not modelled.
- `populate`, the `sort` by creation date, the `.skip().limit()` window of the database queries, `$text` scoring and the case-insensitive `location` regex are not modelled. The listings the database pages return the whole matching set plus the page block. The getUserSavedJobs array slice and the getTransactions `$slice` are modelled exactly. A negative skip, which MongoDB refuses, is modelled as 500.
- JWT signing and verification, and bcrypt hashing and comparison, are parameters (`verify`, `passwordMatches`). The pre-save rehash hook is left out because it is a bcrypt call.
- `parseInt` parsing, `Date.now` and ObjectId generation are not modelled. The model takes `Option<int>` query values, an integer `now` and a counter.
- Amounts and balances are JavaScript numbers (floating point) in the source; the model uses integers in the smallest unit.
- Concurrency and partial failure are out of scope: each request is one atomic step. This excludes the check-then-act races of apply and pay, and the multi-document writes that can half fail. One of these follows from updateJob: it runs no validators, so it can store an empty title. A later `job.save()` in applyForJob or payForJobPosting then fails validation after the application or payment has been saved. The model lets that save succeed.
- `app.js` and the route files are wiring. The routes enter the model only as the gates in front of each handler (`Middleware.GuardOf`).
- The Notification schema is not part of this model. `Models.Notification` holds the fields the handlers set, and message text is left out.
- getCurrentUser, logout, getProfile and the token-issuing half of login are not modelled: they are reads with no rule chain, or token signing.
- Marketplace.Store.UpdateProfile: a profile field missing from the body is written as absent. Mongoose versions that drop `undefined` keys from an update would keep the old value instead.
- Marketplace.Store.ConnectWallet: the upsert's document defaults are modelled as a new wallet with balance 0 and no entries. The user update is assumed to succeed: the user's unique index on `walletAddress` cannot refuse an address no wallet holds (`Tables.FreeAddressFreeForUsers`).
- Marketplace.Store.GetApplicationsForJob, GetUserApplications, GetPaymentHistory and GetUserNotifications return the set of matching documents, not the window of one page.
- Marketplace.Store.UpdateJob, DeleteJob, PublishJob, GetApplicationsForJob, GetApplicationById, UpdateApplicationStatus, PayForJobPosting and GetPaymentDetails use the intended ownership test (`Identity.IsOwner`), not the comparison the source writes. As written (`Identity.IsOwnerAsWritten`, see "## Findings"), the owner is refused with 403 by all of these, and GetApplicationById refuses everyone. The store's statements about owners succeeding hold for the corrected program only.
- Identity.IdText: an ObjectId's hexadecimal text is modelled by the decimal text of the id; only injectivity matters.

## Findings

| source | as written | input that shows it | evidently intended | confidence | as-written member | corrected member |
|---|---|---|---|---|---|---|
| controllers/jobs.controller.js:209 | every ownership test (jobs.controller.js lines 209, 250 and 285; applications.controller.js lines 104, 212-213 and 253; payments.controller.js lines 20 and 155) compares `doc.owner.toString()` strictly (`!==`) with `req.user.userId`. middlewares/auth.middleware.js:31 sets that value to `user._id`, an ObjectId, not a string | the creator of a job calls publishJob on it: the string never equals the ObjectId, so the answer is 403, as it is for every owner-only action | compare the two ids as text (`req.user.userId.toString()`, or `equals`) so the owner passes | high, not executed | Identity.IsOwnerAsWritten, Identity.OwnerRefusedAsWritten | Identity.IsOwner |
