/** AuthService.java: `register` (unique email, encoded password, one default
    account of 1000.00 EUR), the account-number format, the user map `login`
    returns, and the shape of `login`'s result. The UUID, the clock, the
    encoder and the token are inputs. */
module Signup {
  import opened Common
  import opened Http
  import opened Domain
  import opened Store

  const EmailTaken := "Email déjà utilisé"
  const DefaultBalance := 1000 * 100
  const DefaultCurrency := "EUR"
  const AccountPrefix := "ACC"

  datatype RegisterRequest = RegisterRequest(
    email: string, password: string, firstName: string, lastName: string, phoneNumber: string,
    country: string, profilePhoto: string, idNumber: string, idPhoto: string)

  // ---------------------------------------------------------------------
  // generateAccountNumber
  // ---------------------------------------------------------------------

  predicate IsLowerHex(c: char) { IsDigit(c) || 'a' <= c <= 'f' }
  predicate IsUpperHex(c: char) { IsDigit(c) || 'A' <= c <= 'F' }

  predicate IsDashPosition(i: int) { i == 8 || i == 13 || i == 18 || i == 23 }

  /** What `UUID.toString()` yields: 8-4-4-4-12 lowercase hex digits. */
  predicate IsUuidText(u: string) {
    |u| == 36 && forall i :: 0 <= i < 36 ==> if IsDashPosition(i) then u[i] == '-' else IsLowerHex(u[i])
  }

  predicate IsNotDash(c: char) { c != '-' }

  /** `replace("-", "")`. */
  function WithoutDashes(s: string): string {
    Filter(s, IsNotDash)
  }

  /** `"ACC" + uuid.replace("-", "").substring(0, 10).toUpperCase()`, for
      `uuid` the text of a random UUID. */
  function GenerateAccountNumber(uuid: string): (n: string)
    requires IsUuidText(uuid)
    ensures |WithoutDashes(uuid)| == 32
    ensures |n| == 13 && n[..3] == AccountPrefix
    ensures forall i :: 3 <= i < 13 ==> n[i] == UpperChar(WithoutDashes(uuid)[i - 3])
  {
    UuidDigits(uuid);
    AccountPrefix + Upper(WithoutDashes(uuid)[..10])
  }

  lemma NoDashInside(s: string)
    requires forall i :: 0 <= i < |s| ==> s[i] != '-'
    ensures WithoutDashes(s) == s
  {
    FilterAll(s, IsNotDash);
  }

  /** One dash after a dash-free piece is dropped. */
  lemma {:induction false} DropDash(a: string, b: string)
    requires forall i :: 0 <= i < |a| ==> a[i] != '-'
    ensures WithoutDashes(a + "-" + b) == a + WithoutDashes(b)
    decreases |a|
  {
    var s := a + "-" + b;
    if a == [] {
      assert s == ['-'] + b;
      assert s[1..] == b;
    } else {
      assert s[0] == a[0] && s[1..] == a[1..] + "-" + b;
      DropDash(a[1..], b);
      assert a == [a[0]] + a[1..];
    }
  }

  /** A piece of a UUID that lies between two dash positions has no dash. */
  lemma GroupHasNoDash(u: string, lo: int, hi: int)
    requires IsUuidText(u) && 0 <= lo <= hi <= 36
    requires forall i :: lo <= i < hi ==> !IsDashPosition(i)
    ensures forall i :: 0 <= i < |u[lo..hi]| ==> u[lo..hi][i] != '-'
  {
    forall i | 0 <= i < hi - lo ensures u[lo..hi][i] != '-' {
      assert u[lo..hi][i] == u[lo + i];
      assert IsLowerHex(u[lo + i]);
    }
  }

  /** Without its dashes a UUID is its 32 hex digits, the first ten being the
      first group and two of the second. */
  lemma UuidDigits(u: string)
    requires IsUuidText(u)
    ensures WithoutDashes(u) == u[..8] + (u[9..13] + (u[14..18] + (u[19..23] + u[24..])))
  {
    GroupHasNoDash(u, 0, 8);
    GroupHasNoDash(u, 9, 13);
    GroupHasNoDash(u, 14, 18);
    GroupHasNoDash(u, 19, 23);
    GroupHasNoDash(u, 24, 36);
    assert u[..8] == u[0..8] && u[24..] == u[24..36];
    assert u == u[..8] + "-" + u[9..];
    assert u[9..] == u[9..13] + "-" + u[14..];
    assert u[14..] == u[14..18] + "-" + u[19..];
    assert u[19..] == u[19..23] + "-" + u[24..];
    DropDash(u[..8], u[9..]);
    DropDash(u[9..13], u[14..]);
    DropDash(u[14..18], u[19..]);
    DropDash(u[19..23], u[24..]);
    NoDashInside(u[24..]);
  }

  /** A generated number is "ACC" and ten uppercase hex digits: 13 characters. */
  lemma AccountNumberFormat(u: string)
    requires IsUuidText(u)
    ensures var n := GenerateAccountNumber(u);
      |n| == 13 && n[..3] == AccountPrefix && forall i :: 3 <= i < 13 ==> IsUpperHex(n[i])
  {
    UuidDigits(u);
    var d := WithoutDashes(u);
    forall i | 0 <= i < 10 ensures IsLowerHex(d[i]) {
      if i < 8 { assert d[i] == u[i]; } else { assert d[i] == u[i + 1]; }
    }
  }

  // ---------------------------------------------------------------------
  // register
  // ---------------------------------------------------------------------

  /** The user `register` saves, `id` being the identity the database
      assigns. */
  function NewUser(req: RegisterRequest, encode: string -> string, id: int): (u: User)
    ensures u.email == req.email && u.password == encode(req.password)
    ensures u.firstName == req.firstName && u.lastName == req.lastName && u.country == req.country
    ensures u.phoneNumber == req.phoneNumber && u.profilePhoto == req.profilePhoto
    ensures u.idNumber == req.idNumber && u.idPhoto == req.idPhoto && u.id == id
  {
    User(id, req.email, encode(req.password), req.firstName, req.lastName, req.country,
         req.phoneNumber, req.profilePhoto, req.idNumber, req.idPhoto)
  }

  /** `new Account(number, new BigDecimal("1000.00"), savedUser)`, saved. */
  function DefaultAccount(id: int, number: string, owner: User, now: Stamp): (a: Account)
    ensures a.balance == DefaultBalance && a.accountNumber == number && a.currency == DefaultCurrency
    ensures a.user.id == owner.id
  {
    Account(id, number, DefaultBalance, DefaultCurrency, now, Owner(owner.id, owner.firstName, owner.lastName))
  }

  /** `register`. `uuid` is what `UUID.randomUUID()` returned; `userId`,
      `accountId` and `now` are what the database and the clock supply. */
  method Register(db: Database, req: RegisterRequest, encode: string -> string,
                  uuid: string, userId: int, accountId: int, now: Stamp) returns (r: Completion<User>)
    requires db.Valid()
    requires IsUuidText(uuid)
    modifies db
    ensures db.Valid()
    ensures db.transfers == old(db.transfers)
    ensures HasEmail(old(db.users), req.email) ==>
      r == Thrown(EmailTaken) && db.users == old(db.users) && db.accounts == old(db.accounts)
    ensures !HasEmail(old(db.users), req.email) ==>
      && r == Saved(NewUser(req, encode, userId))
      && db.users == old(db.users) + [r.value]
      && db.accounts == old(db.accounts) + [DefaultAccount(accountId, GenerateAccountNumber(uuid), r.value, now)]
  {
    if exists u :: u in db.users && u.email == req.email {
      return Thrown(EmailTaken);
    }
    var user := NewUser(req, encode, userId);
    db.users := db.users + [user];
    var number := GenerateAccountNumber(uuid);
    db.accounts := db.accounts + [DefaultAccount(accountId, number, user, now)];
    return Saved(user);
  }

  // ---------------------------------------------------------------------
  // getUserInfo and login
  // ---------------------------------------------------------------------

  /** A value of the user map: the numeric id or a text field. */
  datatype InfoValue = Id(id: int) | Text(text: string)

  const InfoKeys := {"id", "email", "firstName", "lastName", "country", "phoneNumber",
                     "profilePhoto", "idNumber", "idPhoto"}

  /** `getUserInfo` as written: the `idNumber` entry is filled from
      `getPhoneNumber()`. */
  function UserInfoAsWritten(u: User): (info: map<string, InfoValue>)
    ensures info.Keys == InfoKeys
    ensures info["idNumber"] == Text(u.phoneNumber)
  {
    map["id" := Id(u.id), "email" := Text(u.email), "firstName" := Text(u.firstName),
        "lastName" := Text(u.lastName), "country" := Text(u.country),
        "phoneNumber" := Text(u.phoneNumber), "profilePhoto" := Text(u.profilePhoto),
        "idNumber" := Text(u.phoneNumber), "idPhoto" := Text(u.idPhoto)]
  }

  /** A user whose identity-document number differs from the phone number is
      reported with the phone number in its place. */
  lemma AsWrittenHidesIdNumber()
    ensures var u := User(1, "a@b.fr", "hash", "Ada", "Lovelace", "FR", "0601020304", "p.png", "X123", "i.png");
      UserInfoAsWritten(u)["idNumber"] != Text(u.idNumber)
  {
  }

  /** `getUserInfo` with each entry read from its own field. */
  function UserInfo(u: User): (info: map<string, InfoValue>)
    ensures info.Keys == InfoKeys
    ensures info["id"] == Id(u.id) && info["email"] == Text(u.email)
    ensures info["firstName"] == Text(u.firstName) && info["lastName"] == Text(u.lastName)
    ensures info["country"] == Text(u.country) && info["phoneNumber"] == Text(u.phoneNumber)
    ensures info["profilePhoto"] == Text(u.profilePhoto) && info["idPhoto"] == Text(u.idPhoto)
    ensures info["idNumber"] == Text(u.idNumber)
  {
    UserInfoAsWritten(u)["idNumber" := Text(u.idNumber)]
  }

  /** Neither map carries a password entry, and the encoded password shows
      up in no entry unless it coincides with another field. */
  lemma UserInfoOmitsPassword(u: User)
    requires u.password !in {u.email, u.firstName, u.lastName, u.country, u.phoneNumber,
                             u.profilePhoto, u.idNumber, u.idPhoto}
    ensures "password" !in UserInfoAsWritten(u) && "password" !in UserInfo(u)
    ensures Text(u.password) !in UserInfoAsWritten(u).Values
    ensures Text(u.password) !in UserInfo(u).Values
  {
    var written := UserInfoAsWritten(u);
    forall k | k in written ensures written[k] != Text(u.password) {
    }
    var info := UserInfo(u);
    forall k | k in info ensures info[k] != Text(u.password) {
    }
  }

  /** A value of `login`'s result. */
  datatype LoginValue = Token(jwt: string) | Profile(info: map<string, InfoValue>)

  function FindUser(users: seq<User>, email: string): (r: Option<User>)
    ensures r.None? <==> !HasEmail(users, email)
    ensures r.Some? ==> r.value in users && r.value.email == email
  {
    if users == [] then None
    else if users[0].email == email then Some(users[0])
    else
      assert forall u :: u in users ==> u == users[0] || u in users[1..];
      FindUser(users[1..], email)
  }

  /** `login`: `jwt` is the token issued when the authentication manager
      accepts the credentials, `None` when it throws; a missing user makes
      `orElseThrow` throw. A result has exactly the keys "token" and "user";
      the user map is `getUserInfo` as written. */
  function Login(users: seq<User>, email: string, jwt: Option<string>): (r: Option<map<string, LoginValue>>)
    ensures r.Some? <==> jwt.Some? && HasEmail(users, email)
    ensures r.Some? ==> r.value.Keys == {"token", "user"}
    ensures r.Some? ==> r.value["token"] == Token(jwt.value)
    ensures r.Some? ==> exists u :: u in users && u.email == email && r.value["user"] == Profile(UserInfoAsWritten(u))
  {
    if jwt.None? then None
    else
      var user := FindUser(users, email);
      if user.None? then None
      else Some(map["token" := Token(jwt.value), "user" := Profile(UserInfoAsWritten(user.value))])
  }

  /** With unique emails, the profile in the result is the signed-in user's
      map as written: every entry but `idNumber` is the user's own, and
      `idNumber` is the phone number. */
  lemma LoginProfileIsUnique(users: seq<User>, email: string, jwt: string, u: User)
    requires UniqueEmails(users)
    requires u in users && u.email == email
    ensures Login(users, email, Some(jwt)) == Some(map["token" := Token(jwt), "user" := Profile(UserInfoAsWritten(u))])
    ensures UserInfoAsWritten(u) == UserInfo(u)["idNumber" := Text(u.phoneNumber)]
  {
    var r := Login(users, email, Some(jwt));
    var v :| v in users && v.email == email && r.value["user"] == Profile(UserInfoAsWritten(v));
    var i :| 0 <= i < |users| && users[i] == u;
    var j :| 0 <= j < |users| && users[j] == v;
    if i != j {
      assert false;
    }
    assert r.value == map["token" := Token(jwt), "user" := Profile(UserInfoAsWritten(u))];
    var a := UserInfoAsWritten(u);
    var b := UserInfo(u)["idNumber" := Text(u.phoneNumber)];
    assert a.Keys == b.Keys;
    forall k | k in a ensures a[k] == b[k] {
    }
  }
}
