/** Facts about whole collections that the store keeps from one request to
    the next: fresh ids, the wallet table lined up with the user table, and
    the ledger of every wallet. */
module Tables {
  import opened Common
  import opened Models
  import opened Ledger
  import opened Accounts
  import opened Applications

  /** Every id in use is below the next id the store hands out. */
  predicate KeysBelow<T>(m: map<Id, T>, n: nat) {
    forall k :: k in m ==> k < n
  }

  /** Every wallet belongs to an existing user, under that user's id, and
      holds that user's wallet address. */
  predicate WalletsAligned(wallets: map<Id, Wallet>, users: map<Id, User>) {
    forall o :: o in wallets ==> o in users && wallets[o].owner == o && wallets[o].address == users[o].walletAddress
  }

  /** register creates a wallet with every user. */
  predicate EveryUserHasWallet(wallets: map<Id, Wallet>, users: map<Id, User>) {
    forall u :: u in users ==> u in wallets
  }

  /** balance = sum of entry amounts, in every wallet. */
  predicate LedgerConsistent(wallets: map<Id, Wallet>) {
    forall o :: o in wallets ==> Consistent(wallets[o])
  }

  /** The unique index on wallet `address`. */
  predicate UniqueAddresses(wallets: map<Id, Wallet>) {
    forall a, b :: a in wallets && b in wallets && a != b ==> wallets[a].address != wallets[b].address
  }

  /** Wallet addresses are unique because they are the addresses of their
      owners, which are unique among users. */
  lemma AlignedAddressesUnique(wallets: map<Id, Wallet>, users: map<Id, User>)
    requires WalletsAligned(wallets, users) && UniqueUserFields(users)
    ensures UniqueAddresses(wallets)
  {
    forall a, b | a in wallets && b in wallets && a != b
      ensures wallets[a].address != wallets[b].address
    {
      assert users[a].walletAddress != users[b].walletAddress;
    }
  }

  /** An address that no wallet holds is held by no user either, so
      connectWallet never breaks the unique index on `walletAddress`. */
  lemma FreeAddressFreeForUsers(wallets: map<Id, Wallet>, users: map<Id, User>, address: string)
    requires WalletsAligned(wallets, users) && EveryUserHasWallet(wallets, users)
    requires forall o :: o in wallets ==> wallets[o].address != address
    ensures forall u :: u in users ==> users[u].walletAddress != address
  {
    forall u | u in users ensures users[u].walletAddress != address {
      assert wallets[u].address == users[u].walletAddress;
    }
  }

  /** Every certification id in use is below the next id. */
  predicate CertIdsBelow(users: map<Id, User>, n: nat) {
    forall u, k :: u in users && 0 <= k < |users[u].certifications| ==> users[u].certifications[k].id < n
  }

  /** Every notification id in use is below the next id. */
  predicate NoticeIdsBelow(ns: seq<Notification>, n: nat) {
    forall k :: 0 <= k < |ns| ==> ns[k].id < n
  }

  /** The whole database, as one value. */
  datatype Db = Db(
    jobs: map<Id, Job>,
    applications: map<Id, Application>,
    users: map<Id, User>,
    wallets: map<Id, Wallet>,
    payments: map<Id, Payment>,
    notifications: seq<Notification>,
    nextId: nat)

  /** What every request keeps: every id in use is below the next id, at
      most one application per (job, applicant), unique user fields, a
      wallet for every user holding that user's address, and a consistent
      ledger in every wallet. */
  predicate Good(d: Db) {
    KeysBelow(d.jobs, d.nextId) && KeysBelow(d.applications, d.nextId)
    && KeysBelow(d.users, d.nextId) && KeysBelow(d.payments, d.nextId)
    && NoticeIdsBelow(d.notifications, d.nextId) && CertIdsBelow(d.users, d.nextId)
    && UniqueApplications(d.applications)
    && UniqueUserFields(d.users)
    && WalletsAligned(d.wallets, d.users) && EveryUserHasWallet(d.wallets, d.users)
    && LedgerConsistent(d.wallets)
  }

  lemma GoodEmpty()
    ensures Good(Db(map[], map[], map[], map[], map[], [], 0))
  {
  }

  /** The wallet addresses of a good database are unique. */
  lemma GoodAddressesUnique(d: Db)
    requires Good(d)
    ensures UniqueAddresses(d.wallets)
  {
    AlignedAddressesUnique(d.wallets, d.users);
  }

  /** register: a user who clashes with nobody and a new wallet for it. */
  lemma GoodRegister(d: Db, u: User)
    requires Good(d) && u.certifications == []
    requires !Clashes(d.users, u.username, u.email, u.walletAddress)
    ensures d.nextId !in d.users && d.nextId !in d.wallets
    ensures Good(d.(users := d.users[d.nextId := u],
                    wallets := d.wallets[d.nextId := NewWallet(d.nextId, u.walletAddress)],
                    nextId := d.nextId + 1))
  {
    InsertUserKeepsUnique(d.users, d.nextId, u);
  }

  /** createJob: a job under the next id. */
  lemma GoodNewJob(d: Db, j: Job)
    requires Good(d)
    ensures d.nextId !in d.jobs
    ensures Good(d.(jobs := d.jobs[d.nextId := j], nextId := d.nextId + 1))
  {
  }

  /** updateJob, publishJob, the count bump and the payment flag: one job
      rewritten. */
  lemma GoodEditJob(d: Db, id: Id, j: Job)
    requires Good(d) && id in d.jobs
    ensures Good(d.(jobs := d.jobs[id := j]))
  {
  }

  /** deleteJob. */
  lemma GoodDeleteJob(d: Db, id: Id)
    requires Good(d)
    ensures Good(d.(jobs := d.jobs - {id}))
  {
  }

  /** A user rewritten with the same username, email and wallet address and
      no certification id from the future. */
  lemma GoodEditUser(d: Db, caller: Id, u: User)
    requires Good(d) && caller in d.users
    requires u.username == d.users[caller].username && u.email == d.users[caller].email
    requires u.walletAddress == d.users[caller].walletAddress
    requires forall k :: 0 <= k < |u.certifications| ==> u.certifications[k].id < d.nextId
    ensures Good(d.(users := d.users[caller := u]))
  {
  }

  /** saveJob, unsaveJob and updateProfile: a user rewritten with the
      same username, email, wallet address and certifications. */
  lemma GoodEditUserFields(d: Db, caller: Id, u: User)
    requires Good(d) && caller in d.users
    requires u.username == d.users[caller].username && u.email == d.users[caller].email
    requires u.walletAddress == d.users[caller].walletAddress
    requires u.certifications == d.users[caller].certifications
    ensures Good(d.(users := d.users[caller := u]))
  {
    GoodEditUser(d, caller, u);
  }

  /** addCertification: an entry numbered with the next id is new. */
  lemma GoodAddCertification(d: Db, caller: Id, c: Certification)
    requires Good(d) && caller in d.users && c.id == d.nextId
    ensures !HasCertification(d.users[caller].certifications, c.id)
    ensures Good(d.(users := d.users[caller := PushCertification(d.users[caller], c)], nextId := d.nextId + 1))
  {
    var d' := d.(nextId := d.nextId + 1);
    var u := PushCertification(d.users[caller], c);
    assert Good(d');
    assert forall k :: 0 <= k < |u.certifications| ==> u.certifications[k].id < d'.nextId;
    GoodEditUser(d', caller, u);
  }

  /** removeCertification: a `$pull` brings in no new id. */
  lemma GoodPullCertification(d: Db, caller: Id, id: Id)
    requires Good(d) && caller in d.users
    ensures var u := d.users[caller];
            Good(d.(users := d.users[caller := u.(certifications := WithoutCertification(u.certifications, id))]))
  {
    var u := d.users[caller];
    var cs := WithoutCertification(u.certifications, id);
    forall k | 0 <= k < |cs| ensures cs[k].id < d.nextId {
      assert cs[k] in u.certifications;
    }
    GoodEditUser(d, caller, u.(certifications := cs));
  }

  /** connectWallet, with an address no wallet holds: the user's address
      and the wallet upsert. */
  lemma GoodConnect(d: Db, caller: Id, address: string)
    requires Good(d) && caller in d.users
    requires forall o :: o in d.wallets ==> d.wallets[o].address != address
    ensures Good(d.(users := d.users[caller := d.users[caller].(walletAddress := address)],
                    wallets := d.wallets[caller := if caller in d.wallets then d.wallets[caller].(address := address)
                                                   else NewWallet(caller, address)]))
  {
    FreeAddressFreeForUsers(d.wallets, d.users, address);
    ReaddressKeepsUsersUnique(d.users, caller, address);
    ReaddressKeepsWallets(d.wallets, d.users, caller, address);
    ReaddressKeepsCertIds(d.users, caller, address, d.nextId);
  }

  /** A new address nobody has keeps the user fields unique. */
  lemma ReaddressKeepsUsersUnique(users: map<Id, User>, caller: Id, address: string)
    requires UniqueUserFields(users) && caller in users
    requires forall u :: u in users ==> users[u].walletAddress != address
    ensures UniqueUserFields(users[caller := users[caller].(walletAddress := address)])
  {
  }

  /** Moving a user and that user's wallet to a new address keeps them
      aligned, and the ledger untouched. */
  lemma ReaddressKeepsWallets(wallets: map<Id, Wallet>, users: map<Id, User>, caller: Id, address: string)
    requires WalletsAligned(wallets, users) && EveryUserHasWallet(wallets, users)
    requires LedgerConsistent(wallets) && caller in users
    ensures caller in wallets
    ensures var us := users[caller := users[caller].(walletAddress := address)];
            var ws := wallets[caller := wallets[caller].(address := address)];
            WalletsAligned(ws, us) && EveryUserHasWallet(ws, us) && LedgerConsistent(ws)
  {
  }

  lemma ReaddressKeepsCertIds(users: map<Id, User>, caller: Id, address: string, n: nat)
    requires CertIdsBelow(users, n) && caller in users
    ensures CertIdsBelow(users[caller := users[caller].(walletAddress := address)], n)
  {
  }

  /** payForJobPosting's wallet write. */
  lemma GoodDebit(d: Db, owner: Id, amount: int, transactionId: string, now: int)
    requires Good(d) && owner in d.wallets
    ensures Good(d.(wallets := d.wallets[owner := PushPayment(d.wallets[owner], amount, transactionId, now)]))
  {
  }

  /** A notification under the next id. */
  lemma GoodNotify(d: Db, n: Notification)
    requires Good(d) && n.id == d.nextId
    ensures Good(d.(notifications := d.notifications + [n], nextId := d.nextId + 1))
  {
  }

  /** The read toggles: the same notifications with the same ids. */
  lemma GoodReadToggle(d: Db, ns: seq<Notification>)
    requires Good(d) && |ns| == |d.notifications|
    requires forall k :: 0 <= k < |ns| ==> ns[k].id == d.notifications[k].id
    ensures Good(d.(notifications := ns))
  {
  }

  /** applyForJob: an application for a pair that has none, under the
      next id. */
  lemma GoodInsertApplication(d: Db, a: Application)
    requires Good(d) && !HasApplied(d.applications, a.job, a.applicant)
    ensures d.nextId !in d.applications
    ensures Good(d.(applications := d.applications[d.nextId := a], nextId := d.nextId + 1))
  {
    InsertApplicationKeepsUnique(d.applications, d.nextId, a);
  }

  /** updateApplicationStatus. */
  lemma GoodStatusChange(d: Db, id: Id, s: ApplicationStatus)
    requires Good(d) && id in d.applications
    ensures Good(d.(applications := d.applications[id := d.applications[id].(status := s)]))
  {
    StatusChangeKeepsInvariants(d.jobs, d.applications, id, s);
  }

  /** payForJobPosting: a payment under the next id. */
  lemma GoodInsertPayment(d: Db, p: Payment)
    requires Good(d)
    ensures d.nextId !in d.payments
    ensures Good(d.(payments := d.payments[d.nextId := p], nextId := d.nextId + 1))
  {
  }
}
