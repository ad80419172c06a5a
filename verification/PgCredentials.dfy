/**
 The PostgreSQL password: where it is kept, how it gets into the connection URL, and what a reader gets
 of it there (reconcilePostgres, reconcilePGSecret and deletePGDataOnRequest in
 internal/controller/postgresql_reconciler.go).
 */
module PgCredentials {
  import opened Hex
  import opened Options
  import opened Strings

  type Data = map<string, string>

  const PG_USER := "pulse"
  const PG_DB := "pulse"
  const PASSWORD_KEY := "POSTGRESQL_PASSWORD"
  const LEGACY_PASSWORD_KEY := "POSTGRES_PASSWORD"

  const CREDENTIAL_KEYS := {"POSTGRES_USER", "POSTGRES_PASSWORD", "POSTGRES_DB",
                            "POSTGRESQL_USER", "POSTGRESQL_PASSWORD", "POSTGRESQL_DATABASE"}

  // ----- The pg-auth Secret -----

  /** A missing key reads as an empty value. */
  function Field(d: Data, key: string): string { if key in d then d[key] else "" }

  /** The password a pg-auth Secret holds, under the current key or the legacy one. */
  function Password(d: Data): string {
    if PASSWORD_KEY in d then d[PASSWORD_KEY] else Field(d, LEGACY_PASSWORD_KEY)
  }

  predicate IsLegacy(d: Data) { PASSWORD_KEY !in d && LEGACY_PASSWORD_KEY in d }

  function Migrated(d: Data): Data {
    d["POSTGRESQL_USER" := Field(d, "POSTGRES_USER")][PASSWORD_KEY := Field(d, LEGACY_PASSWORD_KEY)]
      ["POSTGRESQL_DATABASE" := Field(d, "POSTGRES_DB")] - {"POSTGRES_USER", LEGACY_PASSWORD_KEY, "POSTGRES_DB"}
  }

  function FreshSecret(password: string): Data {
    map["POSTGRESQL_USER" := PG_USER, PASSWORD_KEY := password, "POSTGRESQL_DATABASE" := PG_DB]
  }

  /** Everything but the credentials a migration renames is as it was, and so is the password. */
  lemma MigrationKeepsThePassword(d: Data)
    requires IsLegacy(d)
    ensures Password(Migrated(d)) == Password(d) && !IsLegacy(Migrated(d)) && PASSWORD_KEY in Migrated(d)
    ensures forall k | k in d && k !in CREDENTIAL_KEYS :: k in Migrated(d) && Migrated(d)[k] == d[k]
    ensures forall k | k in Migrated(d) :: k in d || k in {"POSTGRESQL_USER", "POSTGRESQL_PASSWORD", "POSTGRESQL_DATABASE"}
    ensures Field(Migrated(d), "POSTGRESQL_USER") == Field(d, "POSTGRES_USER")
    ensures Field(Migrated(d), "POSTGRESQL_DATABASE") == Field(d, "POSTGRES_DB")
    ensures "POSTGRES_USER" !in Migrated(d) && "POSTGRES_PASSWORD" !in Migrated(d) && "POSTGRES_DB" !in Migrated(d)
  {
  }

  function DatabaseUrl(password: string, service: string): string {
    "postgresql://" + PG_USER + ":" + password + "@" + service + ":5432/" + PG_DB
  }

  // ----- Reading the URL back: sections 2.1 and 3.2 of RFC 3986 -----

  predicate EndsAuthority(c: char) { c == '/' || c == '?' || c == '#' }

  function AuthorityEnd(s: string): (i: nat)
    ensures i <= |s| && (forall j | 0 <= j < i :: !EndsAuthority(s[j])) && (i < |s| ==> EndsAuthority(s[i]))
  {
    if s == "" || EndsAuthority(s[0]) then 0 else 1 + AuthorityEnd(s[1..])
  }

  /** What stands before the first @ of the authority, which is all up to a slash, ? or #. */
  function Userinfo(s: string): Option<string> {
    var authority := s[..AuthorityEnd(s)];
    var at := IndexOf(authority, '@');
    if at == |authority| then None else Some(authority[..at])
  }

  function Decoded(s: string): Option<string> {
    if s == "" then Some("")
    else if s[0] == '%' then
      if |s| < 3 || FromHex(s[1..3]).None? || FromHex(s[1..3]).value > 255 then None
      else Prepend(FromHex(s[1..3]).value as char, Decoded(s[3..]))
    else Prepend(s[0], Decoded(s[1..]))
  }

  function Prepend(c: char, more: Option<string>): Option<string> {
    if more.None? then None else Some([c] + more.value)
  }

  const SCHEME := "postgresql://"

  function ReadPassword(url: string): Option<string> {
    if |url| < |SCHEME| || url[..|SCHEME|] != SCHEME then None
    else
      var userinfo := Userinfo(url[|SCHEME|..]);
      if userinfo.None? then None
      else
        var colon := IndexOf(userinfo.value, ':');
        if colon == |userinfo.value| then None else Decoded(userinfo.value[colon + 1..])
  }

  predicate IsDelimiter(c: char) { EndsAuthority(c) || c == '@' }

  predicate Plain(s: string) { forall j | 0 <= j < |s| :: !IsDelimiter(s[j]) }

  predicate UrlSafe(p: string) { forall i | 0 <= i < |p| :: !IsDelimiter(p[i]) && p[i] != '%' }

  lemma {:induction false} DecodedIff(s: string)
    ensures Decoded(s).Some? ==> |Decoded(s).value| <= |s|
    ensures Decoded(s) == Some(s) <==> forall i | 0 <= i < |s| :: s[i] != '%'
  {
    if s != "" {
      if s[0] == '%' {
        if |s| >= 3 {
          DecodedIff(s[3..]);
        }
      } else {
        DecodedIff(s[1..]);
        assert s == [s[0]] + s[1..];
      }
    }
  }

  lemma UserinfoIs(s: string, n: nat)
    requires n < |s| && Plain(s[..n]) && IsDelimiter(s[n])
    ensures Userinfo(s) == if s[n] == '@' then Some(s[..n]) else None
  {
    var end := AuthorityEnd(s);
    assert forall j | 0 <= j < n :: s[..n][j] == s[j];
    var authority := s[..end];
    if s[n] == '@' {
      assert authority[..n] == s[..n] && authority[n] == '@';
      IndexOfIs(authority, '@', n);
    } else {
      assert end == n;
      IndexOfIs(authority, '@', n);
    }
  }

  lemma PasswordAfterColon(user: string, password: string)
    requires Without(user, ':')
    ensures var info := user + ":" + password;
      IndexOf(info, ':') == |user| && info[|user| + 1..] == password
  {
    var info := user + ":" + password;
    assert info[..|user|] == user && info[|user|] == ':';
    IndexOfIs(info, ':', |user|);
  }

  /** The first character of the password that cuts it short, or its length. */
  function FirstDelimiter(p: string): (i: nat)
    ensures i <= |p| && (forall j | 0 <= j < i :: !IsDelimiter(p[j])) && (i < |p| ==> IsDelimiter(p[i]))
  {
    if p == "" || IsDelimiter(p[0]) then 0 else 1 + FirstDelimiter(p[1..])
  }

  lemma BodyAt(body: string, user: string, p: string, rest: string, n: nat)
    requires body == user + ":" + p + "@" + rest && |user| < n <= |user| + 1 + |p|
    requires Plain(user) && Plain(p[..n - |user| - 1])
    ensures n < |body| && body[n] == if n <= |user| + |p| then p[n - |user| - 1] else '@'
    ensures body[..n] == user + ":" + p[..n - |user| - 1] && Plain(body[..n])
  {
    var q := p[..n - |user| - 1];
    assert body[..n] == user + ":" + q;
    forall j | 0 <= j < n ensures !IsDelimiter(body[..n][j]) {
      assert j > |user| ==> body[..n][j] == q[j - |user| - 1];
    }
  }

  lemma UserinfoUpToFirstDelimiter(body: string, user: string, p: string, rest: string)
    requires body == user + ":" + p + "@" + rest && Plain(user)
    ensures var i := FirstDelimiter(p);
      Userinfo(body) == if i == |p| || p[i] == '@' then Some(user + ":" + p[..i]) else None
  {
    var i := FirstDelimiter(p);
    var n := |user| + 1 + i;
    assert i == n - |user| - 1;
    BodyAt(body, user, p, rest, n);
    UserinfoIs(body, n);
  }

  lemma SchemeOff(scheme: string, body: string)
    ensures |scheme + body| >= |scheme| && (scheme + body)[..|scheme|] == scheme && (scheme + body)[|scheme|..] == body
  {
  }

  lemma UserIsPlain()
    ensures Without(PG_USER, ':') && Plain(PG_USER)
  {
  }

  lemma ReadsBody(url: string, body: string, user: string, p: string, rest: string)
    requires |url| >= |SCHEME| && url[..|SCHEME|] == SCHEME && url[|SCHEME|..] == body
    requires body == user + ":" + p + "@" + rest && Plain(user) && Without(user, ':')
    ensures var i := FirstDelimiter(p);
      ReadPassword(url) == if i == |p| || p[i] == '@' then Decoded(p[..i]) else None
  {
    UserinfoUpToFirstDelimiter(body, user, p, rest);
    PasswordAfterColon(user, p[..FirstDelimiter(p)]);
  }

  /** What a reader gets of the URL: the password up to its first delimiter, decoded, or nothing at all. */
  lemma ReadsUpToFirstDelimiter(p: string, service: string)
    ensures var i := FirstDelimiter(p);
      ReadPassword(DatabaseUrl(p, service)) == if i == |p| || p[i] == '@' then Decoded(p[..i]) else None
  {
    var rest := service + ":5432/" + PG_DB;
    var body := PG_USER + ":" + p + "@" + rest;
    UserIsPlain();
    UrlText(p, service);
    SchemeOff(SCHEME, body);
    ReadsBody(DatabaseUrl(p, service), body, PG_USER, p, rest);
  }

  lemma UrlText(p: string, service: string)
    ensures DatabaseUrl(p, service) == SCHEME + (PG_USER + ":" + p + "@" + (service + ":5432/" + PG_DB))
  {
    Regroup(SCHEME, PG_USER, ":", p, "@", service, ":5432/", PG_DB);
  }

  lemma Regroup(a: string, b: string, c: string, d: string, e: string, f: string, g: string, h: string)
    ensures a + b + c + d + e + f + g + h == a + (b + c + d + e + (f + g + h))
  {
  }

  /**
   Exactly which passwords come back from the URL: those without a delimiter or a percent sign, which the
   operator does not escape. A generated password is hexadecimal; a migrated one may be anything.
   */
  lemma UrlReadsBackIff(p: string, service: string)
    ensures ReadPassword(DatabaseUrl(p, service)) == Some(p) <==> UrlSafe(p)
  {
    var i := FirstDelimiter(p);
    ReadsUpToFirstDelimiter(p, service);
    DecodedIff(p[..i]);
    if i == |p| {
      assert p[..i] == p;
    }
  }

  function ReadUser(url: string): Option<string> {
    if |url| < |SCHEME| || url[..|SCHEME|] != SCHEME then None
    else
      var userinfo := Userinfo(url[|SCHEME|..]);
      if userinfo.None? then None else Some(userinfo.value[..IndexOf(userinfo.value, ':')])
  }

  /** Host, port and database: what stands after the first @. */
  function ReadServer(url: string): string {
    var at := IndexOf(url, '@');
    if at == |url| then "" else url[at + 1..]
  }

  lemma UserBeforeColon(url: string, body: string, user: string, p: string, rest: string)
    requires |url| >= |SCHEME| && url[..|SCHEME|] == SCHEME && url[|SCHEME|..] == body
    requires body == user + ":" + p + "@" + rest && Plain(user) && Without(user, ':') && Plain(p)
    ensures ReadUser(url) == Some(user)
  {
    var i := FirstDelimiter(p);
    assert i == |p|;
    UserinfoUpToFirstDelimiter(body, user, p, rest);
    PasswordAfterColon(user, p[..i]);
    assert (user + ":" + p[..i])[..|user|] == user;
  }

  lemma ServerAfterAt(url: string, head: string, rest: string)
    requires url == head + "@" + rest && Without(head, '@')
    ensures ReadServer(url) == rest
  {
    assert url[..|head|] == head && url[|head| + 1..] == rest;
    IndexOfIs(url, '@', |head|);
  }

  lemma SchemeHasNoAt()
    ensures Without(SCHEME, '@')
  {
  }

  lemma HeadHasNoAt(user: string, p: string)
    requires Plain(user) && Plain(p)
    ensures Without(SCHEME + (user + ":" + p), '@')
  {
    SchemeHasNoAt();
    var head := SCHEME + (user + ":" + p);
    forall i | 0 <= i < |head| ensures head[i] != '@' {
      assert i >= |SCHEME| ==> head[i] == (user + ":" + p)[i - |SCHEME|];
    }
  }

  lemma UrlAtServer(p: string, service: string)
    ensures DatabaseUrl(p, service) == SCHEME + (PG_USER + ":" + p) + "@" + (service + ":5432/" + PG_DB)
  {
    var rest := service + ":5432/" + PG_DB;
    UrlText(p, service);
    Regroup4(SCHEME, PG_USER + ":" + p, "@", rest);
  }

  lemma Regroup4(a: string, b: string, c: string, d: string)
    ensures a + (b + c + d) == a + b + c + d
  {
  }

  /**
   For such a password the URL also names the user and the database a generated Secret has, and the
   Service at PostgreSQL's port.
   */
  lemma UrlNamesTheServer(p: string, service: string)
    requires UrlSafe(p)
    ensures ReadUser(DatabaseUrl(p, service)) == Some(Field(FreshSecret(p), "POSTGRESQL_USER"))
    ensures ReadServer(DatabaseUrl(p, service)) == service + ":5432/" + Field(FreshSecret(p), "POSTGRESQL_DATABASE")
    ensures Password(FreshSecret(p)) == p && !IsLegacy(FreshSecret(p))
  {
    var rest := service + ":5432/" + PG_DB;
    var body := PG_USER + ":" + p + "@" + rest;
    UserIsPlain();
    UrlText(p, service);
    SchemeOff(SCHEME, body);
    UserBeforeColon(DatabaseUrl(p, service), body, PG_USER, p, rest);
    HeadHasNoAt(PG_USER, p);
    UrlAtServer(p, service);
    ServerAfterAt(DatabaseUrl(p, service), SCHEME + (PG_USER + ":" + p), rest);
  }

  /** What reconcilePGSecret may do to the Secret; `password` is None when it fails. */
  ghost predicate SecretReconciled(was: Option<Data>, now: Option<Data>, generated: string, password: Option<string>) {
    && (was.Some? ==> now == was || (IsLegacy(was.value) && now == Some(Migrated(was.value))))
    && (was.None? ==> now == None || now == Some(FreshSecret(generated)))
    && (password.Some? ==> now.Some? && !IsLegacy(now.value) && password.value == Password(now.value))
  }

  lemma SecretKeepsItsPassword(was: Option<Data>, now: Option<Data>, generated: string, password: Option<string>)
    requires SecretReconciled(was, now, generated, password) && was.Some?
    ensures now.Some? && Password(now.value) == Password(was.value)
  {
    if now != was {
      MigrationKeepsThePassword(was.value);
    }
  }

  /** What one Delete may leave: without the annotation none is sent, and silence means it happened. */
  ghost predicate Deleted<T>(asked: bool, was: Option<T>, now: Option<T>, failed: bool) {
    && (now == was || (asked && now.None?))
    && (asked && !failed ==> now.None?)
    && (!asked ==> !failed)
  }

  // ----- The calls, with an API server that may fail -----

  datatype Read = Found(data: Data) | NotFound | ReadFailed

  /** `volume` is the password its data was initialised with, which only PostgreSQL itself sees. */
  class Namespace {
    var auth: Option<Data>
    var conn: Option<Data>
    var volume: Option<string>
    /** Calls that failed. */
    ghost var faults: nat

    constructor (auth: Option<Data>, conn: Option<Data>, volume: Option<string>)
      ensures this.auth == auth && this.conn == conn && this.volume == volume && faults == 0
    {
      this.auth, this.conn, this.volume, faults := auth, conn, volume, 0;
    }

    method GetAuth() returns (r: Read)
      modifies this`faults
      ensures faults == old(faults) + if r.ReadFailed? then 1 else 0
      ensures r.Found? ==> auth == Some(r.data)
      ensures r.NotFound? ==> auth.None?
    {
      if
      case true => r := ReadFailed; faults := faults + 1;
      case auth.Some? => r := Found(auth.value);
      case auth.None? => r := NotFound;
    }

    method GetConn() returns (r: Read)
      modifies this`faults
      ensures faults == old(faults) + if r.ReadFailed? then 1 else 0
      ensures r.Found? ==> conn == Some(r.data)
      ensures r.NotFound? ==> conn.None?
    {
      if
      case true => r := ReadFailed; faults := faults + 1;
      case conn.Some? => r := Found(conn.value);
      case conn.None? => r := NotFound;
    }

    /** A write that reports failure may have happened. */
    method WriteAuth(data: Data) returns (ok: bool)
      modifies this`auth, this`faults
      ensures faults == old(faults) + if ok then 0 else 1
      ensures auth == Some(data) || auth == old(auth)
      ensures ok ==> auth == Some(data)
    {
      if
      case true => auth := Some(data); ok := true;
      case true => auth := Some(data); ok := false; faults := faults + 1;
      case true => ok := false; faults := faults + 1;
    }

    method WriteConn(data: Data) returns (ok: bool)
      modifies this`conn, this`faults
      ensures faults == old(faults) + if ok then 0 else 1
      ensures conn == Some(data) || conn == old(conn)
      ensures ok ==> conn == Some(data)
    {
      if
      case true => conn := Some(data); ok := true;
      case true => conn := Some(data); ok := false; faults := faults + 1;
      case true => ok := false; faults := faults + 1;
    }

    /** A deletion that reports an error may have happened; a missing object is no error. */
    method DeleteAuth() returns (ok: bool)
      modifies this`auth, this`faults
      ensures faults == old(faults) + if ok then 0 else 1
      ensures auth.None? || auth == old(auth)
      ensures ok ==> auth.None?
    {
      if
      case true => auth := None; ok := true;
      case true => auth := None; ok := false; faults := faults + 1;
      case true => ok := false; faults := faults + 1;
    }

    method DeleteVolume() returns (ok: bool)
      modifies this`volume, this`faults
      ensures faults == old(faults) + if ok then 0 else 1
      ensures volume.None? || volume == old(volume)
      ensures ok ==> volume.None?
    {
      if
      case true => volume := None; ok := true;
      case true => volume := None; ok := false; faults := faults + 1;
      case true => ok := false; faults := faults + 1;
    }

    /** Both deletions are sent whatever the other returns. */
    method DeletePGDataOnRequest(deleteData: bool) returns (secretFailed: bool, volumeFailed: bool)
      modifies this`auth, this`volume, this`faults
      ensures faults >= old(faults) && (secretFailed || volumeFailed <==> faults > old(faults))
      ensures Deleted(deleteData, old(auth), auth, secretFailed)
      ensures Deleted(deleteData, old(volume), volume, volumeFailed)
    {
      if !deleteData {
        return false, false;
      }
      var secretGone := DeleteAuth();
      var volumeGone := DeleteVolume();
      return !secretGone, !volumeGone;
    }

    method ReconcilePGSecret(generated: string) returns (password: Option<string>)
      modifies this`auth, this`faults
      ensures faults >= old(faults) && (password.None? <==> faults > old(faults))
      ensures SecretReconciled(old(auth), auth, generated, password)
    {
      var got := GetAuth();
      match got
      case ReadFailed => return None;
      case Found(data) =>
        if PASSWORD_KEY in data {
          return Some(data[PASSWORD_KEY]);
        }
        if LEGACY_PASSWORD_KEY in data {
          var pw := data[LEGACY_PASSWORD_KEY];
          data := data["POSTGRESQL_USER" := Field(data, "POSTGRES_USER")];
          data := data[PASSWORD_KEY := pw];
          data := data["POSTGRESQL_DATABASE" := Field(data, "POSTGRES_DB")];
          data := data - {"POSTGRES_USER", LEGACY_PASSWORD_KEY, "POSTGRES_DB"};
          assert data == Migrated(got.data);
          var ok := WriteAuth(data);
          return if ok then Some(pw) else None;
        }
        return Some(Field(data, PASSWORD_KEY));
      case NotFound =>
        var ok := WriteAuth(FreshSecret(generated));
        return if ok then Some(generated) else None;
    }

    /** `stepsFail` stands for the steps in between: start scripts, StatefulSet, Services. */
    method ReconcilePostgres(generated: string, service: string, stepsFail: bool) returns (url: Option<string>)
      modifies this`auth, this`conn, this`faults
      ensures faults >= old(faults) && (url.None? <==> faults > old(faults) || stepsFail)
      ensures exists pw :: SecretReconciled(old(auth), auth, generated, pw)
      ensures old(conn).Some? ==> conn.Some? && forall k :: k in old(conn).value && k != "database-url" ==>
        k in conn.value && conn.value[k] == old(conn).value[k]
      ensures url.Some? ==>
        && auth.Some? && conn.Some? && "database-url" in conn.value
        && conn.value["database-url"] == url.value == DatabaseUrl(Password(auth.value), service)
    {
      var password := ReconcilePGSecret(generated);
      assert SecretReconciled(old(auth), auth, generated, password);
      if password.None? || stepsFail {
        return None;
      }
      var dbURL := DatabaseUrl(password.value, service);
      var got := GetConn();
      match got {
        case ReadFailed => url := None;
        case NotFound =>
          var ok := WriteConn(map["database-url" := dbURL]);
          url := if ok then Some(dbURL) else None;
        case Found(data) =>
          if Field(data, "database-url") == dbURL {
            url := Some(dbURL);
          } else {
            var ok := WriteConn(data["database-url" := dbURL]);
            url := if ok then Some(dbURL) else None;
          }
      }
      assert SecretReconciled(old(auth), auth, generated, password);
    }
  }
}
