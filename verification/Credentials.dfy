/**
 Names and credentials: how identifiers are made to fit a server, how the credential entries
 of a Secret are generated and parsed, and how the user name is found again at deletion.
 */
module Credentials {
  import opened Options

  // ---- Sanitizing ----------------------------------------------------------------------------------------

  /** Lower case. Two characters outside ASCII turn into ASCII letters; the others do not matter here. */
  function Lower(c: char): char {
    if 'A' <= c <= 'Z' then (c as int + 32) as char
    else if c == '\U{212A}' then 'k'
    else if c == '\U{0130}' then 'i'
    else c
  }

  predicate Supported(c: char) {
    '0' <= c <= '9' || 'a' <= c <= 'z' || 'A' <= c <= 'Z' || c == '$' || c == '_'
  }

  function Cleaned(s: string): string {
    seq(|s|, i requires 0 <= i < |s| => if Supported(Lower(s[i])) then Lower(s[i]) else '_')
  }

  predicate IsHexDigit(c: char) { '0' <= c <= '9' || 'a' <= c <= 'f' }

  /** SHA-256 in hexadecimal: 64 digits. */
  ghost predicate IsSha(sha: string -> string) {
    forall s :: |sha(s)| == 64 && forall i :: 0 <= i < 64 ==> IsHexDigit(sha(s)[i])
  }

  function Sanitize(sha: string -> string, s: string, limit: nat): string
    requires IsSha(sha)
  {
    var t := Cleaned(s);
    if |t| <= limit then t
    else if limit <= 9 then sha(t)[..limit]
    else t[..limit - 9] + "_" + sha(t)[..8]
  }

  /** Lower-case letters, digits, `$` and `_`. */
  predicate Plain(s: string) {
    forall i :: 0 <= i < |s| ==> Supported(s[i]) && !('A' <= s[i] <= 'Z')
  }

  lemma CleanedIsPlain(s: string)
    ensures Plain(Cleaned(s))
    ensures Plain(s) ==> Cleaned(s) == s
  {
  }

  /** Short and plain names stay as they are; any other name becomes one of at most `limit` characters. */
  lemma SanitizeFits(sha: string -> string, s: string, limit: nat)
    requires IsSha(sha)
    ensures var r := Sanitize(sha, s, limit);
            && |r| <= limit && (|s| > limit ==> |r| == limit)
            && Plain(r)
            && (r == s <== Plain(s) && |s| <= limit)
  {
    var t := Cleaned(s);
    CleanedIsPlain(s);
    assert Plain(sha(t)) by {
      assert forall i :: 0 <= i < 64 ==> IsHexDigit(sha(t)[i]);
    }
  }

  /** What becomes of one character: two outside ASCII count as letters, the rest as unsupported. */
  predicate BecomesChar(c: char, d: char) {
    if '0' <= c <= '9' || 'a' <= c <= 'z' || c == '$' || c == '_' then d == c
    else if 'A' <= c <= 'Z' then d as int - 'a' as int == c as int - 'A' as int
    else if c == '\U{212A}' then d == 'k'
    else if c == '\U{0130}' then d == 'i'
    else d == '_'
  }

  /** Character by character. */
  predicate Becomes(s: string, t: string) {
    |t| == |s| && forall i :: 0 <= i < |s| ==> BecomesChar(s[i], t[i])
  }

  /**
   Digits, lower-case letters, `$` and `_` stay, upper-case letters become lower-case, everything
   else becomes `_`; a name that is then too long keeps its start, or nothing, before the hash of
   the whole.
   */
  lemma SanitizeIsPointwise(sha: string -> string, s: string, t: string, limit: nat)
    requires IsSha(sha) && Becomes(s, t)
    ensures Sanitize(sha, s, limit) ==
              if |s| <= limit then t
              else if limit <= 9 then sha(t)[..limit]
              else t[..limit - 9] + "_" + sha(t)[..8]
  {
    assert Cleaned(s) == t;
  }

  /** There is such a string for every name. */
  lemma EverythingBecomes(s: string)
    ensures Becomes(s, Cleaned(s))
  {
  }

  /** So a short name becomes, character by character, its identifier, and a long one starts like it. */
  lemma SanitizedCharacters(sha: string -> string, s: string, limit: nat, i: nat)
    requires IsSha(sha) && i < |s| && (|s| <= limit || (limit > 9 && i < limit - 9))
    ensures i < |Sanitize(sha, s, limit)| && BecomesChar(s[i], Sanitize(sha, s, limit)[i])
  {
    EverythingBecomes(s);
    SanitizeIsPointwise(sha, s, Cleaned(s), limit);
  }

  /**
   A truncated name keeps what it can of the original and is told apart by its hash: two
   long names come to the same identifier exactly if they share both.
   */
  lemma TruncatedNamesAgreeIff(sha: string -> string, a: string, b: string, limit: nat)
    requires IsSha(sha) && |a| > limit && |b| > limit && limit > 9
    ensures Cleaned(a)[..limit - 9] <= Sanitize(sha, a, limit)
    ensures Sanitize(sha, a, limit) == Sanitize(sha, b, limit) <==>
              Cleaned(a)[..limit - 9] == Cleaned(b)[..limit - 9] && sha(Cleaned(a))[..8] == sha(Cleaned(b))[..8]
  {
    var r, t := Sanitize(sha, a, limit), Sanitize(sha, b, limit);
    assert r[..limit - 9] == Cleaned(a)[..limit - 9] && r[limit - 8..] == sha(Cleaned(a))[..8];
    assert t[..limit - 9] == Cleaned(b)[..limit - 9] && t[limit - 8..] == sha(Cleaned(b))[..8];
  }

  /** Case makes no difference. */
  lemma CaseDoesNotMatter(sha: string -> string, a: string, b: string, limit: nat)
    requires IsSha(sha) && |a| == |b|
    requires forall i :: 0 <= i < |a| ==> a[i] == b[i] || ('A' <= a[i] <= 'Z' && b[i] as int == a[i] as int + 32)
    ensures Sanitize(sha, a, limit) == Sanitize(sha, b, limit)
  {
    assert Cleaned(a) == Cleaned(b);
  }

  /** Sanitizing again, to the same or a larger limit, changes nothing. */
  lemma SanitizeIsStable(sha: string -> string, s: string, limit: nat, more: nat)
    requires IsSha(sha) && limit <= more
    ensures Sanitize(sha, Sanitize(sha, s, limit), more) == Sanitize(sha, s, limit)
  {
    SanitizeFits(sha, s, limit);
    CleanedIsPlain(Sanitize(sha, s, limit));
  }

  // ---- Generating and parsing ----------------------------------------------------------------------------

  const POSTGRES := "postgres"
  const MYSQL := "mysql"

  datatype Creds = Creds(name: string, user: string, password: string)

  datatype Meta = Meta(namespace: string, name: string)

  function Qualified(m: Meta): string { m.namespace + "-" + m.name }

  function GenerateUser(sha: string -> string, m: Meta, engine: string, existing: string): Option<string>
    requires IsSha(sha)
  {
    var u := if existing == "" then Qualified(m) else existing;
    if engine == POSTGRES then Some(u)
    else if engine == MYSQL then Some(Sanitize(sha, u, 32))
    else None
  }

  /** The password is generated too, unless the user exists already. */
  function Generate(sha: string -> string, m: Meta, engine: string, dbName: string, existing: string,
                    password: string): Option<Data>
    requires IsSha(sha)
  {
    var name := if dbName == "" then Qualified(m) else dbName;
    var user := GenerateUser(sha, m, engine, existing);
    var pass := if existing != "" then "" else password;
    if user.None? then None
    else if engine == POSTGRES then
      Some(map["POSTGRES_DB" := name, "POSTGRES_USER" := user.value, "POSTGRES_PASSWORD" := pass])
    else
      Some(map["DB" := Sanitize(sha, name, 63), "USER" := user.value, "PASSWORD" := pass])
  }

  function ParseKeys(d: Data, name: string, user: string, password: string): Option<Creds> {
    if name in d && user in d && password in d then Some(Creds(d[name], d[user], d[password])) else None
  }

  function Parse(engine: string, d: Data): Option<Creds> {
    if engine == POSTGRES then ParseKeys(d, "POSTGRES_DB", "POSTGRES_USER", "POSTGRES_PASSWORD")
    else if engine == MYSQL then ParseKeys(d, "DB", "USER", "PASSWORD")
    else None
  }

  function Fitted(sha: string -> string, engine: string, s: string, limit: nat): string
    requires IsSha(sha)
  {
    if engine == MYSQL then Sanitize(sha, s, limit) else s
  }

  /** Parsing undoes generating on both engines, and generating works on no other. */
  lemma ParseUndoesGenerate(sha: string -> string, m: Meta, engine: string, dbName: string, existing: string,
                            password: string)
    requires IsSha(sha)
    ensures var d := Generate(sha, m, engine, dbName, existing, password);
            && (d.Some? <==> engine == POSTGRES || engine == MYSQL)
            && (d.Some? ==>
                  Parse(engine, d.value) ==
                    Some(Creds(Fitted(sha, engine, if dbName == "" then Qualified(m) else dbName, 63),
                               Fitted(sha, engine, if existing == "" then Qualified(m) else existing, 32),
                               if existing == "" then password else "")))
            && (d.Some? && engine == MYSQL ==>
                  |Parse(engine, d.value).value.name| <= 63 && |Parse(engine, d.value).value.user| <= 32)
  {
    SanitizeFits(sha, if dbName == "" then Qualified(m) else dbName, 63);
    SanitizeFits(sha, if existing == "" then Qualified(m) else existing, 32);
  }

  /** Which entry holds what, on either engine. */
  lemma GeneratedEntries(sha: string -> string, m: Meta, dbName: string, existing: string, password: string)
    requires IsSha(sha)
    ensures var name := if dbName == "" then m.namespace + "-" + m.name else dbName;
            var user := if existing == "" then m.namespace + "-" + m.name else existing;
            var pass := if existing == "" then password else "";
            && Generate(sha, m, "postgres", dbName, existing, password) ==
                 Some(map["POSTGRES_DB" := name, "POSTGRES_USER" := user, "POSTGRES_PASSWORD" := pass])
            && Generate(sha, m, "mysql", dbName, existing, password) ==
                 Some(map["DB" := Sanitize(sha, name, 63), "USER" := Sanitize(sha, user, 32), "PASSWORD" := pass])
  {
  }

  /** Parsing takes each from its own entry, and needs all three. */
  lemma ParsedEntries(d: Data)
    ensures Parse("postgres", d) ==
              if "POSTGRES_DB" in d && "POSTGRES_USER" in d && "POSTGRES_PASSWORD" in d
              then Some(Creds(d["POSTGRES_DB"], d["POSTGRES_USER"], d["POSTGRES_PASSWORD"])) else None
    ensures Parse("mysql", d) ==
              if "DB" in d && "USER" in d && "PASSWORD" in d
              then Some(Creds(d["DB"], d["USER"], d["PASSWORD"])) else None
    ensures forall engine :: engine != "postgres" && engine != "mysql" ==> Parse(engine, d) == None
  {
  }

  /** A DbUser and the Database it refers to come to the same database name on their own. */
  lemma DatabaseNamesAgree(sha: string -> string, db: Meta, user: Meta, engine: string,
                           dbUser: string, dbPass: string, existing: string, password: string)
    requires IsSha(sha) && db.namespace == user.namespace && (engine == POSTGRES || engine == MYSQL)
    ensures var a := Generate(sha, db, engine, "", dbUser, dbPass);
            var b := Generate(sha, user, engine, user.namespace + "-" + db.name, existing, password);
            Parse(engine, a.value).value.name == Parse(engine, b.value).value.name
  {
  }

  // ---- When two objects come to the same name ------------------------------------------------------------

  /** All of the cases: both names short, both truncated, or one of each. */
  lemma SanitizedAgreeIff(sha: string -> string, a: string, b: string, limit: nat)
    requires IsSha(sha) && limit > 9
    ensures Sanitize(sha, a, limit) == Sanitize(sha, b, limit) <==>
              if |a| <= limit && |b| <= limit then Cleaned(a) == Cleaned(b)
              else if |a| <= limit then Cleaned(a) == Truncated(sha, b, limit)
              else if |b| <= limit then Cleaned(b) == Truncated(sha, a, limit)
              else Cleaned(a)[..limit - 9] == Cleaned(b)[..limit - 9] && sha(Cleaned(a))[..8] == sha(Cleaned(b))[..8]
  {
    if |a| > limit && |b| > limit {
      TruncatedNamesAgreeIff(sha, a, b, limit);
    }
  }

  /** The start of the name and eight digits of its hash. */
  function Truncated(sha: string -> string, s: string, limit: nat): string
    requires IsSha(sha) && 9 < limit < |s|
  {
    Cleaned(s)[..limit - 9] + "_" + sha(Cleaned(s))[..8]
  }

  /** The namespace of `b` reaches into the name of `a`. */
  ghost predicate Shifted(a: Meta, b: Meta) {
    exists x: string :: b.namespace == a.namespace + "-" + x && a.name == x + "-" + b.name
  }

  /** Objects of the same qualified name: the same object, or a dash is read differently. */
  lemma QualifiedAgreeIff(a: Meta, b: Meta)
    ensures Qualified(a) == Qualified(b) <==> a == b || Shifted(a, b) || Shifted(b, a)
  {
    if Qualified(a) == Qualified(b) {
      if |a.namespace| == |b.namespace| {
        assert Qualified(a)[..|a.namespace|] == a.namespace && Qualified(b)[..|b.namespace|] == b.namespace;
        assert Qualified(a)[|a.namespace| + 1..] == a.name && Qualified(b)[|b.namespace| + 1..] == b.name;
      } else if |a.namespace| < |b.namespace| {
        QualifiedShifts(a, b);
      } else {
        QualifiedShifts(b, a);
      }
    }
    forall c: Meta, d: Meta, x: string | d.namespace == c.namespace + "-" + x && c.name == x + "-" + d.name
      ensures Qualified(c) == Qualified(d)
    {
    }
  }

  lemma QualifiedShifts(a: Meta, b: Meta)
    requires Qualified(a) == Qualified(b) && |a.namespace| < |b.namespace|
    ensures Shifted(a, b)
  {
    var q, k, m := Qualified(a), |a.namespace|, |b.namespace|;
    var x := b.namespace[k + 1..];
    assert q[..k] == a.namespace && q[..m] == b.namespace && q[k] == '-' && q[m] == '-';
    assert b.namespace == a.namespace + "-" + x;
    assert a.name == q[k + 1..] && b.name == q[m + 1..];
    assert q[k + 1..] == q[k + 1..m] + [q[m]] + q[m + 1..] && q[k + 1..m] == x;
  }

  /** The name of a Database on the server. */
  function ServerName(sha: string -> string, engine: string, m: Meta): string
    requires IsSha(sha)
  {
    Fitted(sha, engine, Qualified(m), 63)
  }

  /** It is the one in the Database's generated credentials. */
  lemma ServerNameIsGenerated(sha: string -> string, m: Meta, engine: string, existing: string, password: string)
    requires IsSha(sha) && (engine == POSTGRES || engine == MYSQL)
    ensures var d := Generate(sha, m, engine, "", existing, password);
            Parse(engine, d.value).value.name == ServerName(sha, engine, m)
  {
    ParseUndoesGenerate(sha, m, engine, "", existing, password);
  }

  /** On Postgres, Databases of one namespace never share a name; across namespaces a dash can do it. */
  lemma PostgresNamesAgreeIff(sha: string -> string, a: Meta, b: Meta)
    requires IsSha(sha)
    ensures ServerName(sha, POSTGRES, a) == ServerName(sha, POSTGRES, b) <==> a == b || Shifted(a, b) || Shifted(b, a)
    ensures a.namespace == b.namespace ==>
              (ServerName(sha, POSTGRES, a) == ServerName(sha, POSTGRES, b) <==> a.name == b.name)
  {
    QualifiedAgreeIff(a, b);
  }

  /** On MySQL names that clean to the same string do, in any namespace. */
  lemma MysqlNamesCollide(sha: string -> string, ns: string)
    requires IsSha(sha)
    ensures ServerName(sha, MYSQL, Meta(ns, "a.b")) == ServerName(sha, MYSQL, Meta(ns, "a-b"))
  {
    assert Cleaned(ns + "-" + "a.b") == Cleaned(ns + "-" + "a-b");
  }

  // ---- Finding the user again at deletion ----------------------------------------------------------------

  /** From the two statuses, else the Secret, else generated anew (the user name only). */
  function DeleteCreds(sha: string -> string, m: Meta, engine: string, existing: string,
                       statusDb: string, statusUser: string, secret: Option<Data>): Option<Creds>
    requires IsSha(sha)
  {
    var consult := secret.Some? && (statusDb == "" || statusUser == "");
    if consult && Parse(engine, secret.value).None? then None
    else
      var found := if consult then Parse(engine, secret.value).value else Creds("", "", "");
      var name := if statusDb == "" then found.name else statusDb;
      var user := if statusUser == "" then found.user else statusUser;
      if user != "" then (if name == "" then None else Some(Creds(name, user, "")))
      else
        var made := GenerateUser(sha, m, engine, existing);
        if made.None? || name == "" then None else Some(Creds(name, made.value, ""))
  }

  /**
   Whatever the sources say, the statuses come first, then the Secret, and the user name is
   generated only when neither has one. A Secret that has to be consulted and does not parse is an
   error, and so is a database name that nobody knows.
   */
  lemma DeleteCredsPrecedence(sha: string -> string, m: Meta, engine: string, existing: string,
                              statusDb: string, statusUser: string, secret: Option<Data>)
    requires IsSha(sha)
    ensures var c := DeleteCreds(sha, m, engine, existing, statusDb, statusUser, secret);
            var parsed := if secret.Some? then Parse(engine, secret.value) else None;
            var made := GenerateUser(sha, m, engine, existing);
            && (c.Some? && statusDb != "" ==> c.value.name == statusDb)
            && (c.Some? && statusUser != "" ==> c.value.user == statusUser)
            && (c.Some? && statusDb == "" ==> parsed.Some? && c.value.name == parsed.value.name)
            && (c.Some? && statusUser == "" && parsed.Some? && parsed.value.user != "" ==>
                  c.value.user == parsed.value.user)
            && (c.Some? && statusUser == "" && (secret.None? || parsed.value.user == "") ==> Some(c.value.user) == made)
            && (c.None? <==>
                  || ((statusDb == "" || statusUser == "") && secret.Some? && parsed.None?)
                  || (statusDb == "" && (secret.None? || parsed.value.name == ""))
                  || (statusUser == "" && (secret.None? || parsed.value.user == "") && made.None?))
  {
  }

  /** One DbUser: its Secret, the user name in its status, and every name used for it on the server. */
  datatype Life = Life(secret: Option<Data>, status: string, used: set<string>)

  /**
   A pass may not see the Secret (the cache is behind) and may stop before the Secret, the
   server or the status is written. The Secret may get lost, or get further entries.
   */
  datatype Event =
    | Pass(sees: bool, password: string, secretWritten: bool, sqlDone: bool, statusWritten: bool)
    | SecretLost
    | SecretExtended(d: Data)

  const KEYS := {"POSTGRES_DB", "POSTGRES_USER", "POSTGRES_PASSWORD", "DB", "USER", "PASSWORD"}

  /** The entries that hold credentials. */
  function Relevant(d: Data): Data {
    map k | k in d && k in KEYS :: d[k]
  }

  datatype User = User(meta: Meta, engine: string, ref: string, existing: string)

  function After(sha: string -> string, u: User, l: Life, e: Event): Life
    requires IsSha(sha)
  {
    match e
    case SecretLost => l.(secret := None)
    case SecretExtended(d) =>
      if l.secret.Some? && Relevant(d) == Relevant(l.secret.value) then l.(secret := Some(d)) else l
    case Pass(sees, password, secretWritten, sqlDone, statusWritten) =>
      var data := if sees && l.secret.Some? then l.secret
                  else Generate(sha, u.meta, u.engine, u.meta.namespace + "-" + u.ref, u.existing, password);
      if data.None? || !secretWritten then l
      else
        var l1 := l.(secret := if l.secret.Some? then l.secret else data);
        var creds := Parse(u.engine, data.value);
        if creds.None? then l1
        else Life(l1.secret,
                  if statusWritten then creds.value.user else l.status,
                  if sqlDone then l.used + {creds.value.user} else l.used)
  }

  function Lived(sha: string -> string, u: User, l: Life, es: seq<Event>): Life
    requires IsSha(sha)
    decreases |es|
  {
    if es == [] then l else Lived(sha, u, After(sha, u, l, es[0]), es[1..])
  }

  ghost predicate Agrees(sha: string -> string, u: User, l: Life)
    requires IsSha(sha)
  {
    var name := GenerateUser(sha, u.meta, u.engine, u.existing);
    && (u.engine == POSTGRES || u.engine == MYSQL)
    && (forall x :: x in l.used ==> x == name.value)
    && (l.status == "" || l.status == name.value)
    && (l.secret.Some? ==>
          && Parse(u.engine, l.secret.value).Some?
          && Parse(u.engine, l.secret.value).value.user == name.value
          && Parse(u.engine, l.secret.value).value.name == Fitted(sha, u.engine, u.meta.namespace + "-" + u.ref, 63))
  }

  lemma RelevantDecidesParse(engine: string, a: Data, b: Data)
    requires Relevant(a) == Relevant(b)
    ensures Parse(engine, a) == Parse(engine, b)
  {
    forall k | k in KEYS
      ensures k in a <==> k in b
      ensures k in a ==> a[k] == b[k]
    {
      assert k in Relevant(a) <==> k in a;
      assert k in Relevant(b) <==> k in b;
    }
  }

  lemma EventKeepsAgreement(sha: string -> string, u: User, l: Life, e: Event)
    requires IsSha(sha) && Agrees(sha, u, l)
    ensures Agrees(sha, u, After(sha, u, l, e))
  {
    match e {
      case SecretLost =>
      case SecretExtended(d) =>
        if l.secret.Some? && Relevant(d) == Relevant(l.secret.value) {
          RelevantDecidesParse(u.engine, d, l.secret.value);
        }
      case Pass(_, password, _, _, _) =>
        ParseUndoesGenerate(sha, u.meta, u.engine, u.meta.namespace + "-" + u.ref, u.existing, password);
    }
  }

  lemma {:induction false} LifeKeepsAgreement(sha: string -> string, u: User, l: Life, es: seq<Event>)
    requires IsSha(sha) && Agrees(sha, u, l)
    ensures Agrees(sha, u, Lived(sha, u, l, es))
    decreases |es|
  {
    if es != [] {
      EventKeepsAgreement(sha, u, l, es[0]);
      LifeKeepsAgreement(sha, u, After(sha, u, l, es[0]), es[1..]);
    }
  }

  /**
   Over every history, the name resolved at deletion is the one name ever used on the server,
   wherever it is found, and the database name is the Database's. Resolution fails exactly
   when neither the Database's status nor a Secret is left to tell the database name.
   */
  lemma {:induction false} DeletionFindsTheUser(sha: string -> string, u: User, es: seq<Event>, statusDb: string)
    requires IsSha(sha) && (u.engine == POSTGRES || u.engine == MYSQL)
    requires statusDb == "" || statusDb == Fitted(sha, u.engine, u.meta.namespace + "-" + u.ref, 63)
    ensures var l := Lived(sha, u, Life(None, "", {}), es);
            var c := DeleteCreds(sha, u.meta, u.engine, u.existing, statusDb, l.status, l.secret);
            && (c.None? <==> statusDb == "" && l.secret.None?)
            && (c.Some? ==>
                  && (forall x :: x in l.used ==> x == c.value.user)
                  && c.value.name == Fitted(sha, u.engine, u.meta.namespace + "-" + u.ref, 63))
  {
    LifeKeepsAgreement(sha, u, Life(None, "", {}), es);
    NamesAreNotEmpty(sha, u);
  }

  lemma NamesAreNotEmpty(sha: string -> string, u: User)
    requires IsSha(sha) && (u.engine == POSTGRES || u.engine == MYSQL)
    ensures GenerateUser(sha, u.meta, u.engine, u.existing).value != ""
    ensures Fitted(sha, u.engine, u.meta.namespace + "-" + u.ref, 63) != ""
  {
  }
}
