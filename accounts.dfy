/** The pure parts of the identity-side handlers: the uniqueness test of
    register, the user document it creates, the profile write of
    updateProfile and the certification `$push`/`$pull`. */
module Accounts {
  import opened Common
  import opened Models

  /** register's `$or` lookup: does some user already have this email,
      this username or this wallet address? */
  predicate Clashes(users: map<Id, User>, username: string, email: string, walletAddress: string) {
    exists u :: u in users && (users[u].email == email || users[u].username == username || users[u].walletAddress == walletAddress)
  }

  /** The required String paths of the User schema are non-empty:
      otherwise `user.save()` fails validation. */
  predicate UserFieldsValid(username: string, email: string, password: string, walletAddress: string) {
    Required(username) && Required(email) && Required(password) && Required(walletAddress)
  }

  /** No two users share a username, an email or a wallet address (the
      three unique indexes of the User schema). */
  predicate UniqueUserFields(users: map<Id, User>) {
    forall a, b :: a in users && b in users && a != b ==>
      users[a].username != users[b].username
      && users[a].email != users[b].email
      && users[a].walletAddress != users[b].walletAddress
  }

  const EmptyProfile: Profile := Profile(None, None, None, None, None)

  /** The user register saves: the schema gives an empty profile and empty
      saved-job and certification lists. */
  function NewUser(username: string, email: string, password: string, walletAddress: string, role: Role, now: int): (u: User)
    ensures u.username == username && u.email == email && u.walletAddress == walletAddress && u.role == role
    ensures u.password == password && u.profile == EmptyProfile
    ensures u.savedJobs == [] && u.certifications == []
  {
    User(username, email, password, walletAddress, role, EmptyProfile, [], [], now)
  }

  /** register's lookup is exactly the test uniqueness needs: adding a new
      user keeps the three fields unique if and only if nobody clashes. */
  lemma InsertUserKeepsUnique(users: map<Id, User>, id: Id, u: User)
    requires UniqueUserFields(users) && id !in users
    ensures UniqueUserFields(users[id := u]) <==> !Clashes(users, u.username, u.email, u.walletAddress)
  {
    if Clashes(users, u.username, u.email, u.walletAddress) {
      var w :| w in users && (users[w].email == u.email || users[w].username == u.username || users[w].walletAddress == u.walletAddress);
      var m := users[id := u];
      assert w in m && id in m && w != id && m[w] == users[w] && m[id] == u;
      assert !(m[w].username != m[id].username && m[w].email != m[id].email && m[w].walletAddress != m[id].walletAddress);
    }
  }

  /** updateProfile: the five `profile.*` paths are written with the body's
      values (an absent one is cleared); nothing else in the user changes. */
  function WriteProfile(u: User, p: Profile): (r: User)
    ensures r.profile == p
    ensures r.(profile := u.profile) == u
  {
    u.(profile := p)
  }

  /** addCertification's `$push`: the new entry goes at the end. */
  function PushCertification(u: User, c: Certification): (r: User)
    ensures r.certifications == u.certifications + [c]
    ensures r.(certifications := u.certifications) == u
  {
    u.(certifications := u.certifications + [c])
  }

  /** removeCertification's `$pull` by `_id`: every entry with that id goes,
      the others stay in order. */
  function WithoutCertification(certs: seq<Certification>, id: Id): (r: seq<Certification>)
    ensures |r| <= |certs|
    ensures forall k :: 0 <= k < |r| ==> r[k].id != id
    ensures forall c :: c in certs && c.id != id ==> c in r
    ensures forall c :: c in r ==> c in certs
  {
    if certs == [] then []
    else if certs[0].id == id then WithoutCertification(certs[1..], id)
    else [certs[0]] + WithoutCertification(certs[1..], id)
  }

  /** One entry is kept exactly when its id differs. */
  lemma WithoutCertificationOne(c: Certification, id: Id)
    ensures WithoutCertification([c], id) == if c.id == id then [] else [c]
  {
    assert [c][1..] == [];
  }

  /** The pull works entry by entry: on a concatenation it is the pull of
      each part, in order. With the one-entry case this fixes the result
      completely, order and repetitions included. */
  lemma {:induction false} WithoutCertificationAppend(a: seq<Certification>, b: seq<Certification>, id: Id)
    ensures WithoutCertification(a + b, id) == WithoutCertification(a, id) + WithoutCertification(b, id)
  {
    if a == [] {
      assert [] + b == b;
    } else {
      assert (a + b)[0] == a[0] && (a + b)[1..] == a[1..] + b;
      WithoutCertificationAppend(a[1..], b, id);
    }
  }

  predicate HasCertification(certs: seq<Certification>, id: Id) {
    exists k :: 0 <= k < |certs| && certs[k].id == id
  }

  /** Pulling an id no entry has is a no-op. */
  lemma {:induction false} RemoveUnknownCertification(certs: seq<Certification>, id: Id)
    requires !HasCertification(certs, id)
    ensures WithoutCertification(certs, id) == certs
  {
    if certs != [] {
      assert certs[0].id != id;
      assert !HasCertification(certs[1..], id) by {
        forall k | 0 <= k < |certs| - 1 ensures certs[1..][k].id != id {
          assert certs[1..][k] == certs[k + 1];
        }
      }
      RemoveUnknownCertification(certs[1..], id);
      assert certs == [certs[0]] + certs[1..];
    }
  }

  /** Pulling the id of an entry just pushed, when no older entry has it,
      gives back the list as it was. */
  lemma {:induction false} PushThenPull(certs: seq<Certification>, c: Certification)
    requires !HasCertification(certs, c.id)
    ensures WithoutCertification(certs + [c], c.id) == certs
  {
    if certs == [] {
      assert [] + [c] == [c];
      assert [c][1..] == [];
    } else {
      assert (certs + [c])[0] == certs[0] && (certs + [c])[1..] == certs[1..] + [c];
      assert !HasCertification(certs[1..], c.id) by {
        forall k | 0 <= k < |certs| - 1 ensures certs[1..][k].id != c.id {
          assert certs[1..][k] == certs[k + 1];
        }
      }
      PushThenPull(certs[1..], c);
      assert certs == [certs[0]] + certs[1..];
    }
  }

  /** `$pull` is idempotent. */
  lemma PullTwice(certs: seq<Certification>, id: Id)
    ensures WithoutCertification(WithoutCertification(certs, id), id) == WithoutCertification(certs, id)
  {
    RemoveUnknownCertification(WithoutCertification(certs, id), id);
  }
}
