/** The documents of the database, one datatype per Mongoose schema.
    Enumerations become datatypes; a field the schema does not require and
    that has no default is an Option. Timestamps are integers. */
module Models {
  import opened Common

  /** Mongoose's `required` validator on a String path: a missing value
      and the empty string are both refused when a document is saved. */
  predicate Required(s: string) {
    s != ""
  }

  // ---- Job (models/Job.js) ----

  datatype JobStatus = Draft | Published | Closed
  datatype PaymentStatus = Unpaid | Paid
  datatype JobType = Remote | Onsite | Hybrid
  datatype Level = Entry | Junior | Mid | Senior | Lead

  datatype Job = Job(
    title: string,
    company: string,
    description: string,
    responsibilities: string,
    requirements: seq<string>,
    location: string,
    jobType: JobType,
    salary: Option<int>,
    isUrgent: bool,
    deadline: int,
    level: Level,
    category: string,
    skills: seq<string>,
    creator: Id,
    status: JobStatus,
    applicantsCount: int,
    paymentStatus: PaymentStatus,
    paymentId: Option<Id>,
    createdAt: int,
    updatedAt: int)

  // ---- Application (models/Application.js) ----

  datatype ApplicationStatus = Pending | Reviewing | Accepted | Rejected

  datatype Application = Application(
    job: Id,
    applicant: Id,
    resume: string,
    coverLetter: Option<string>,
    status: ApplicationStatus,
    submissionDate: int)

  // ---- Wallet (models/Wallet.js) ----

  datatype EntryType = Deposit | Withdrawal | PaymentEntry

  /** The status enum shared by wallet entries and payments
      ("pending", "completed", "failed"). */
  datatype TransferStatus = TransferPending | TransferCompleted | TransferFailed

  datatype WalletEntry = WalletEntry(
    kind: EntryType,
    amount: int,
    transactionId: Option<string>,
    timestamp: int,
    status: TransferStatus)

  /** A wallet; the store keys wallets by `owner`, which makes the owner
      unique (one wallet per user). */
  datatype Wallet = Wallet(
    owner: Id,
    address: string,
    balance: int,
    transactions: seq<WalletEntry>)

  // ---- Payment (models/Payment.js) ----

  datatype PaymentType = JobPosting | PremiumListing

  /** The `onModel` discriminator of a payment's `relatedId`. */
  datatype PaymentTarget = OnJob | OnUser

  datatype Payment = Payment(
    amount: int,
    currency: string,
    payer: Id,
    kind: PaymentType,
    relatedId: Id,
    onModel: PaymentTarget,
    transactionId: string,
    status: TransferStatus,
    createdAt: int)

  // ---- User (models/User.js) ----

  datatype Role = JobSeeker | Employer

  datatype Profile = Profile(
    fullName: Option<string>,
    location: Option<string>,
    bio: Option<string>,
    skills: Option<seq<string>>,
    profilePicture: Option<string>)

  /** A certification sub-document; `id` is its own `_id`. */
  datatype Certification = Certification(
    id: Id,
    title: Option<string>,
    provider: Option<string>,
    issueDate: Option<int>,
    certId: Option<string>,
    verificationLink: Option<string>)

  /** A user. `password` holds the stored credential; hashing it is the
      bcrypt hook, which the model leaves out. */
  datatype User = User(
    username: string,
    email: string,
    password: string,
    walletAddress: string,
    role: Role,
    profile: Profile,
    savedJobs: seq<Id>,
    certifications: seq<Certification>,
    createdAt: int)

  // ---- Notification (schema not part of this model; fields as the controllers set them) ----

  datatype NotificationType = ApplicationNotice | PaymentNotice

  /** The `onModel` discriminator of a notification's `relatedId`. */
  datatype NotificationTarget = OnApplication | OnPayment

  /** A notification; its message text is left out, its title kept. */
  datatype Notification = Notification(
    id: Id,
    recipient: Id,
    kind: NotificationType,
    title: string,
    relatedId: Id,
    onModel: NotificationTarget,
    isRead: bool)
}
