/** The authentication middleware: taking the token out of the
    Authorization header, mapping the outcome of token verification to a
    status, loading the request user, the role gates and the wallet gate,
    and the table of which gate precedes which handler. Verifying a token
    is a parameter (`verify`): signing and checking signatures are not
    part of this model. */
module Middleware {
  import opened Common
  import opened Models

  // ---- header parsing: `authHeader && authHeader.split(" ")[1]` ----

  /** The index of the first space of `s`, or `|s|` when there is none. */
  function IndexOfSpace(s: string): (i: nat)
    ensures i <= |s|
    ensures i < |s| ==> s[i] == ' '
    ensures forall j :: 0 <= j < i ==> s[j] != ' '
  {
    if s == [] || s[0] == ' ' then 0 else 1 + IndexOfSpace(s[1..])
  }

  /** JavaScript `s.split(" ")`: the fields between single spaces, empty
      fields included. */
  function Split(s: string): (fields: seq<string>)
    ensures |fields| >= 1
    ensures forall k :: 0 <= k < |fields| ==> ' ' !in fields[k]
    decreases |s|
  {
    var i := IndexOfSpace(s);
    if i == |s| then [s] else [s[..i]] + Split(s[i + 1..])
  }

  /** `fields.join(" ")`, the inverse of Split. */
  function Join(fields: seq<string>): string
    requires |fields| >= 1
    decreases |fields|
  {
    if |fields| == 1 then fields[0] else fields[0] + " " + Join(fields[1..])
  }

  lemma {:induction false} JoinSplit(s: string)
    ensures Join(Split(s)) == s
    decreases |s|
  {
    var i := IndexOfSpace(s);
    if i < |s| {
      JoinSplit(s[i + 1..]);
      assert s == s[..i] + " " + s[i + 1..];
    }
  }

  lemma IndexOfSpaceOfField(f: string, rest: string)
    requires ' ' !in f
    ensures IndexOfSpace(f) == |f|
    ensures IndexOfSpace(f + " " + rest) == |f|
  {
    var s := f + " " + rest;
    forall j | 0 <= j < |f|
      ensures s[j] != ' ' && f[j] != ' '
    {
      assert s[j] == f[j];
      assert f[j] in f;
    }
    assert s[|f|] == ' ';
  }

  lemma {:induction false} SplitJoin(fields: seq<string>)
    requires |fields| >= 1
    requires forall k :: 0 <= k < |fields| ==> ' ' !in fields[k]
    ensures Split(Join(fields)) == fields
    decreases |fields|
  {
    if |fields| == 1 {
      IndexOfSpaceOfField(fields[0], "");
    } else {
      var rest := Join(fields[1..]);
      IndexOfSpaceOfField(fields[0], rest);
      var s := fields[0] + " " + rest;
      assert s[..|fields[0]|] == fields[0];
      assert s[|fields[0]| + 1..] == rest;
      SplitJoin(fields[1..]);
    }
  }

  /** The token: the second space-separated field of a non-empty header,
      when that field is non-empty. The first word is not checked to be
      "Bearer". */
  function BearerToken(header: Option<string>): (token: Option<string>)
    ensures token.Some? ==> token.value != "" && ' ' !in token.value
    ensures token.Some? ==> header.Some? && |Split(header.value)| >= 2 && token.value == Split(header.value)[1]
    ensures header.Some? && header.value != "" && |Split(header.value)| >= 2 && Split(header.value)[1] != "" ==>
              token == Some(Split(header.value)[1])
  {
    if header.None? || header.value == "" then None
    else
      var fields := Split(header.value);
      if |fields| < 2 || fields[1] == "" then None else Some(fields[1])
  }

  /** Whatever the first word is, "<word> <token>" yields the token. */
  lemma TokenAfterAnyScheme(scheme: string, token: string)
    requires ' ' !in scheme && ' ' !in token && token != ""
    ensures BearerToken(Some(scheme + " " + token)) == Some(token)
  {
    SplitJoin([scheme, token]);
    assert Join([scheme, token]) == scheme + " " + token by {
      assert Join([scheme, token][1..]) == token;
    }
  }

  /** A header without a space (a bare token, say) yields no token. */
  lemma NoSpaceNoToken(header: string)
    requires ' ' !in header
    ensures BearerToken(Some(header)) == None
  {
    IndexOfSpaceOfField(header, "");
  }

  /** Two spaces after the scheme make the second field empty: no token. */
  lemma DoubleSpaceNoToken(scheme: string, rest: string)
    requires ' ' !in scheme
    ensures BearerToken(Some(scheme + "  " + rest)) == None
  {
    var s := scheme + "  " + rest;
    assert s == scheme + " " + (" " + rest);
    IndexOfSpaceOfField(scheme, " " + rest);
    assert s[|scheme| + 1..] == " " + rest;
    assert IndexOfSpace(" " + rest) == 0;
    assert Split(" " + rest)[0] == "";
  }

  // ---- authenticateToken ----

  /** What `jwt.verify` does with a token: the decoded user id, or the
      name of the error it throws. */
  datatype VerifyOutcome = Verified(userId: Id) | JsonWebTokenError | TokenExpiredError | VerifyFailed

  /** `req.user`: the id, role and wallet address of the stored user. */
  datatype RequestUser = RequestUser(userId: Id, role: Role, walletAddress: string)

  /** The status a verification error is answered with: the two JWT
      errors give 403, anything else 500. */
  function VerifyErrorStatus(o: VerifyOutcome): (s: Status)
    requires !o.Verified?
    ensures s == Forbidden403 <==> (o.JsonWebTokenError? || o.TokenExpiredError?)
    ensures s == Forbidden403 || s == ServerError500
  {
    match o
    case JsonWebTokenError => Forbidden403
    case TokenExpiredError => Forbidden403
    case VerifyFailed => ServerError500
  }

  /** authenticateToken: 401 without a token, the mapped status when
      verification fails, 401 when the decoded user no longer exists;
      otherwise the request user built from the stored user. */
  function Authenticate(header: Option<string>, verify: string -> VerifyOutcome, users: map<Id, User>): (r: Response<RequestUser>)
    ensures BearerToken(header).None? ==> r == Failure(Unauthorized401)
    ensures BearerToken(header).Some? && !verify(BearerToken(header).value).Verified? ==>
              r == Failure(VerifyErrorStatus(verify(BearerToken(header).value)))
    ensures (BearerToken(header).Some? && verify(BearerToken(header).value).Verified? &&
             verify(BearerToken(header).value).userId !in users) ==> r == Failure(Unauthorized401)
    ensures r.Success? ==> BearerToken(header).Some? && verify(BearerToken(header).value) == Verified(r.data.userId)
    ensures r.Success? ==> r.data.userId in users &&
                           r.data.role == users[r.data.userId].role &&
                           r.data.walletAddress == users[r.data.userId].walletAddress
  {
    var token := BearerToken(header);
    if token.None? then Failure(Unauthorized401)
    else
      var outcome := verify(token.value);
      if !outcome.Verified? then Failure(VerifyErrorStatus(outcome))
      else if outcome.userId !in users then Failure(Unauthorized401)
      else
        var u := users[outcome.userId];
        Success(Ok200, RequestUser(outcome.userId, u.role, u.walletAddress))
  }

  /** A request with a token for an existing user is admitted whatever
      else is true: authentication depends only on the token and the
      current users. */
  lemma AuthenticateSucceedsForExistingUser(header: Option<string>, verify: string -> VerifyOutcome, users: map<Id, User>, u: Id)
    requires BearerToken(header).Some? && verify(BearerToken(header).value) == Verified(u) && u in users
    ensures Authenticate(header, verify, users) == Success(Ok200, RequestUser(u, users[u].role, users[u].walletAddress))
  {
  }

  // ---- role and wallet gates ----

  /** What a gate does: call `next()` or answer with a status. */
  datatype Outcome = Next | Reject(status: Status)

  function IsEmployer(u: RequestUser): (r: Outcome)
    ensures r == Next <==> u.role == Employer
    ensures r.Reject? ==> r.status == Forbidden403
  {
    if u.role != Employer then Reject(Forbidden403) else Next
  }

  function IsJobSeeker(u: RequestUser): (r: Outcome)
    ensures r == Next <==> u.role == JobSeeker
    ensures r.Reject? ==> r.status == Forbidden403
  {
    if u.role != JobSeeker then Reject(Forbidden403) else Next
  }

  /** Every user passes exactly one of the two role gates. */
  lemma RoleGatesExclusive(u: RequestUser)
    ensures IsEmployer(u).Next? != IsJobSeeker(u).Next?
  {
  }

  /** hasWallet: 400 when the stored user's wallet address is empty. A
      missing user makes `user.walletAddress` throw, which is a 500. */
  function HasWallet(users: map<Id, User>, u: Id): (r: Outcome)
    ensures r == Next <==> u in users && users[u].walletAddress != ""
    ensures r == Reject(BadRequest400) <==> u in users && users[u].walletAddress == ""
    ensures u !in users ==> r == Reject(ServerError500)
  {
    if u !in users then Reject(ServerError500)
    else if users[u].walletAddress == "" then Reject(BadRequest400)
    else Next
  }

  // ---- which gate precedes which handler (the route table) ----

  datatype Guard = Open | SignedIn | RoleOnly(role: Role)

  datatype Endpoint =
    | ListJobs | SearchJobs | ShowJob | CreateJob | UpdateJob | DeleteJob | PublishJob
    | SaveJob | UnsaveJob | ListDrafts | ListPublished | ListSaved
    | Apply | ListJobApplications | ListMyApplications | ShowApplication | ChangeApplicationStatus
    | PayForJob | PaymentHistory | ShowPayment
    | ShowWallet | ListTransactions | LinkWallet
    | SignUp | SignIn | CurrentUser | SignOut
    | ShowProfile | EditProfile | AddCertificate | RemoveCertificate
    | ListNotifications | MarkOneRead | MarkAllRead

  /** The gates the route files put in front of each handler: only the
      job listings and sign-up/sign-in are public, the job-seeker routes are
      applying and listing one's own applications, and payments, wallets,
      profiles and notifications need a signed-in user of either role. */
  function GuardOf(e: Endpoint): (g: Guard)
    ensures g.Open? <==> e in {ListJobs, SearchJobs, ShowJob, SignUp, SignIn}
    ensures g == RoleOnly(JobSeeker) <==> e in {Apply, ListMyApplications}
    ensures g == RoleOnly(Employer) <==>
              e in {CreateJob, UpdateJob, DeleteJob, PublishJob, ListDrafts, ListPublished,
                    ListJobApplications, ChangeApplicationStatus}
    ensures e in {PayForJob, PaymentHistory, ShowPayment, ShowWallet, ListTransactions, LinkWallet} ==> g == SignedIn
    ensures e in {ShowProfile, EditProfile, ListNotifications, MarkOneRead, MarkAllRead} ==> g == SignedIn
  {
    match e
    case ListJobs => Open
    case SearchJobs => Open
    case ShowJob => Open
    case SignUp => Open
    case SignIn => Open
    case CreateJob => RoleOnly(Employer)
    case UpdateJob => RoleOnly(Employer)
    case DeleteJob => RoleOnly(Employer)
    case PublishJob => RoleOnly(Employer)
    case ListDrafts => RoleOnly(Employer)
    case ListPublished => RoleOnly(Employer)
    case ListJobApplications => RoleOnly(Employer)
    case ChangeApplicationStatus => RoleOnly(Employer)
    case Apply => RoleOnly(JobSeeker)
    case ListMyApplications => RoleOnly(JobSeeker)
    case _ => SignedIn
  }

  /** The outcome of a guard: admitted (with the request user, when the
      route is authenticated) or refused with a status. */
  datatype Admission = Admitted(user: Option<RequestUser>) | Refused(status: Status)

  /** Runs authenticateToken and then the role gate, in that order. */
  function Admit(g: Guard, header: Option<string>, verify: string -> VerifyOutcome, users: map<Id, User>): (a: Admission)
    ensures g.Open? ==> a == Admitted(None)
    ensures !g.Open? && BearerToken(header).None? ==> a == Refused(Unauthorized401)
    ensures !g.Open? && a.Admitted? ==> a.user.Some? && a.user.value.userId in users &&
                                        Authenticate(header, verify, users) == Success(Ok200, a.user.value)
    ensures g.RoleOnly? && a.Admitted? ==> a.user.value.role == g.role
    ensures (g.RoleOnly? && Authenticate(header, verify, users).Success? &&
             Authenticate(header, verify, users).data.role != g.role) ==> a == Refused(Forbidden403)
  {
    match g
    case Open => Admitted(None)
    case SignedIn =>
      var r := Authenticate(header, verify, users);
      if r.Failure? then Refused(r.status) else Admitted(Some(r.data))
    case RoleOnly(role) =>
      var r := Authenticate(header, verify, users);
      if r.Failure? then Refused(r.status)
      else
        var gate := if role == Employer then IsEmployer(r.data) else IsJobSeeker(r.data);
        if gate.Reject? then Refused(gate.status) else Admitted(Some(r.data))
  }

  /** Creating, editing, deleting and publishing a job, and changing an
      application's status, are open only to signed-in employers;
      applying only to signed-in job seekers. */
  lemma JobMutationsNeedEmployer(e: Endpoint, header: Option<string>, verify: string -> VerifyOutcome, users: map<Id, User>)
    requires e in {CreateJob, UpdateJob, DeleteJob, PublishJob, ChangeApplicationStatus}
    ensures Admit(GuardOf(e), header, verify, users).Admitted? ==>
              Admit(GuardOf(e), header, verify, users).user.value.role == Employer
  {
  }

  lemma ApplyNeedsJobSeeker(header: Option<string>, verify: string -> VerifyOutcome, users: map<Id, User>)
    ensures Admit(GuardOf(Apply), header, verify, users).Admitted? ==>
              Admit(GuardOf(Apply), header, verify, users).user.value.role == JobSeeker
  {
  }
}
