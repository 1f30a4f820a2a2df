/**
 What a DbInstance is made from: its spec and the Secrets and ConfigMaps the spec refers to.
 The controller fetches them, computes one checksum for each, and builds the backend
 from them.
 */
module InstanceInputs {
  import opened Options

  datatype Result<T> = Ok(value: T) | Err

  datatype Name = Name(namespace: string, name: string)
  datatype FromRef = FromRef(kind: string, at: Name, key: string)

  datatype Google = Google(instance: string, endpoint: string, config: Name, client: Name)
  datatype Generic = Generic(host: string, port: nat, ip: string,
                             hostFrom: Option<FromRef>, portFrom: Option<FromRef>, ipFrom: Option<FromRef>)

  /** `rest` stands for the settings that neither fetching nor building looks at. */
  datatype Spec = Spec(engine: string, admin: Name, google: Option<Google>, generic: Option<Generic>,
                       ssl: bool, skipVerify: bool, rest: string)

  datatype Cluster = Cluster(secrets: map<Name, Data>, configs: map<Name, Data>)

  datatype Object = Secret(data: Data) | ConfigMap(data: Data)

  datatype Snapshot = Snapshot(admin: Data, config: Option<Data>, client: Option<Data>,
                               host: Option<Object>, port: Option<Object>, ip: Option<Object>)

  // ---- Which backend -------------------------------------------------------------------------------------

  datatype BackendType = GoogleType | GenericType | Invalid

  function GetBackendType(s: Spec): BackendType {
    if s.google.Some? && s.generic.None? then GoogleType
    else if s.google.None? && s.generic.Some? then GenericType
    else Invalid
  }

  predicate ValidEngine(s: Spec) { s.engine == "mysql" || s.engine == "postgres" }

  // ---- Fetching ------------------------------------------------------------------------------------------

  function Get(m: map<Name, Data>, n: Name): Result<Data> {
    if n in m then Ok(m[n]) else Err
  }

  function FetchRef(k: Cluster, r: Option<FromRef>): Result<Option<Object>> {
    if r.None? then Ok(None)
    else if r.value.kind == "Secret" then
      var d := Get(k.secrets, r.value.at);
      if d.Ok? then Ok(Some(Secret(d.value))) else Err
    else if r.value.kind == "ConfigMap" then
      var d := Get(k.configs, r.value.at);
      if d.Ok? then Ok(Some(ConfigMap(d.value))) else Err
    else Err
  }

  function FetchGoogle(k: Cluster, g: Google, admin: Data): Result<Snapshot> {
    var config := Get(k.configs, g.config);
    if config.Err? then Err
    else if g.client.name == "" then Ok(Snapshot(admin, Some(config.value), None, None, None, None))
    else
      var client := Get(k.secrets, g.client);
      if client.Err? then Err else Ok(Snapshot(admin, Some(config.value), Some(client.value), None, None, None))
  }

  function FetchGeneric(k: Cluster, g: Generic, admin: Data): Result<Snapshot> {
    var host, port, ip := FetchRef(k, g.hostFrom), FetchRef(k, g.portFrom), FetchRef(k, g.ipFrom);
    if host.Ok? && port.Ok? && ip.Ok? then Ok(Snapshot(admin, None, None, host.value, port.value, ip.value)) else Err
  }

  function Fetch(k: Cluster, s: Spec): Result<Snapshot> {
    var admin := Get(k.secrets, s.admin);
    if admin.Err? then Err
    else match GetBackendType(s)
      case GoogleType => FetchGoogle(k, s.google.value, admin.value)
      case GenericType => FetchGeneric(k, s.generic.value, admin.value)
      case Invalid => Ok(Snapshot(admin.value, None, None, None, None, None))
  }

  // ---- Checksums -----------------------------------------------------------------------------------------

  /** The checksum of the JSON form. Secrets and ConfigMaps have different ones. */
  datatype Hash = Hash(spec: Spec -> string, secret: Data -> string, config: Data -> string)

  ghost predicate CollisionFree(h: Hash) {
    && (forall a, b :: h.spec(a) == h.spec(b) ==> a == b)
    && (forall a, b :: h.secret(a) == h.secret(b) ==> a == b)
    && (forall a, b :: h.config(a) == h.config(b) ==> a == b)
  }

  type Sums = map<string, string>

  function ObjectSum(h: Hash, o: Object): string {
    if o.Secret? then h.secret(o.data) else h.config(o.data)
  }

  /** What the checksum under each key is taken of, if there is one. */
  function SumOf(h: Hash, s: Spec, d: Snapshot, key: string): Option<string> {
    var t := GetBackendType(s);
    if key == "spec" then Some(h.spec(s))
    else if key == "adminSecret" then Some(h.secret(d.admin))
    else if key == "config" && t.GoogleType? && d.config.Some? then Some(h.config(d.config.value))
    else if key == "clientSecret" && t.GoogleType? && s.google.value.client.name != "" && d.client.Some?
    then Some(h.secret(d.client.value))
    else if key == "hostFrom" && t.GenericType? then RefSum(h, s.generic.value.hostFrom, d.host)
    else if key == "portFrom" && t.GenericType? then RefSum(h, s.generic.value.portFrom, d.port)
    else if key == "publicIPFrom" && t.GenericType? then RefSum(h, s.generic.value.ipFrom, d.ip)
    else None
  }

  const KEYS := {"spec", "config", "clientSecret", "hostFrom", "portFrom", "publicIPFrom", "adminSecret"}

  /** One checksum for everything the instance depends on. */
  function Checksums(h: Hash, s: Spec, d: Snapshot): Sums {
    map key | key in KEYS && SumOf(h, s, d, key).Some? :: SumOf(h, s, d, key).value
  }

  method GenerateChecksums(h: Hash, s: Spec, d: Snapshot) returns (sums: Sums)
    ensures sums == Checksums(h, s, d)
  {
    sums := map["spec" := h.spec(s)];
    var t := GetBackendType(s);
    if t.GoogleType? {
      if d.config.Some? { sums := sums["config" := h.config(d.config.value)]; }
      if s.google.value.client.name != "" && d.client.Some? {
        sums := sums["clientSecret" := h.secret(d.client.value)];
      }
    }
    if t.GenericType? {
      sums := AddRefSums(h, s.generic.value, d, sums);
    }
    ghost var before := sums;
    sums := sums["adminSecret" := h.secret(d.admin)];
    forall key
      ensures SumOf(h, s, d, key) == Find(sums, key)
    {
      assert Find(sums, key) == if key == "adminSecret" then Some(h.secret(d.admin)) else Find(before, key);
    }
    FoundEverywhere(h, s, d, sums);
  }

  lemma FoundEverywhere(h: Hash, s: Spec, d: Snapshot, sums: Sums)
    requires forall key :: SumOf(h, s, d, key) == Find(sums, key)
    ensures sums == Checksums(h, s, d)
  {
    forall key
      ensures Find(sums, key) == Find(Checksums(h, s, d), key)
    {
      assert SumOf(h, s, d, key) == Find(sums, key);
    }
    assert forall key :: key in sums <==> Find(sums, key).Some?;
  }

  function Find(m: Sums, key: string): Option<string> {
    if key in m then Some(m[key]) else None
  }

  function RefSum(h: Hash, r: Option<FromRef>, o: Option<Object>): Option<string> {
    if r.Some? && o.Some? then Some(ObjectSum(h, o.value)) else None
  }

  method AddRefSums(h: Hash, g: Generic, d: Snapshot, sums: Sums) returns (r: Sums)
    requires "hostFrom" !in sums && "portFrom" !in sums && "publicIPFrom" !in sums
    ensures forall key :: key !in {"hostFrom", "portFrom", "publicIPFrom"} ==> Find(r, key) == Find(sums, key)
    ensures Find(r, "hostFrom") == RefSum(h, g.hostFrom, d.host)
    ensures Find(r, "portFrom") == RefSum(h, g.portFrom, d.port)
    ensures Find(r, "publicIPFrom") == RefSum(h, g.ipFrom, d.ip)
  {
    r := sums;
    if g.hostFrom.Some? && d.host.Some? { r := r["hostFrom" := ObjectSum(h, d.host.value)]; }
    if g.portFrom.Some? && d.port.Some? { r := r["portFrom" := ObjectSum(h, d.port.value)]; }
    if g.ipFrom.Some? && d.ip.Some? { r := r["publicIPFrom" := ObjectSum(h, d.ip.value)]; }
  }

  // ---- Building ------------------------------------------------------------------------------------------

  datatype Admin = Admin(user: string, password: string)

  function UserOr(d: Data, default: string): string {
    if "user" in d then d["user"] else default
  }

  function ParseAdmin(engine: string, d: Data): Result<Admin> {
    if engine == "postgres" then
      var u := UserOr(d, "postgres");
      if "password" in d then Ok(Admin(u, d["password"]))
      else if "postgresql-password" in d then Ok(Admin(u, d["postgresql-password"]))
      else if "postgresql-postgres-password" in d then Ok(Admin(u, d["postgresql-postgres-password"]))
      else Err
    else if engine == "mysql" then
      var u := UserOr(d, "root");
      if "password" in d then Ok(Admin(u, d["password"]))
      else if "mysql-root-password" in d then Ok(Admin(u, d["mysql-root-password"]))
      else Err
    else Err
  }

  function GetValueFrom(k: Cluster, r: FromRef): Result<string> {
    var d := if r.kind == "Secret" then Get(k.secrets, r.at)
             else if r.kind == "ConfigMap" then Get(k.configs, r.at)
             else Err;
    if d.Ok? && r.key in d.value then Ok(d.value[r.key]) else Err
  }

  function ValueOr(k: Cluster, r: Option<FromRef>, default: string): Result<string> {
    if r.None? then Ok(default) else GetValueFrom(k, r.value)
  }

  predicate IsNumber(s: string) { forall i :: 0 <= i < |s| ==> '0' <= s[i] <= '9' }

  function Digits(s: string): nat
    requires IsNumber(s)
  {
    if s == "" then 0 else Digits(s[..|s| - 1]) * 10 + (s[|s| - 1] as int - '0' as int)
  }

  /** A decimal number of 16 bits. */
  function ParsePort(s: string): Result<nat> {
    if s != "" && IsNumber(s) && Digits(s) < 0x1_0000 then Ok(Digits(s)) else Err
  }

  function PortOr(k: Cluster, r: Option<FromRef>, default: nat): Result<nat> {
    if r.None? then Ok(default)
    else
      var v := GetValueFrom(k, r.value);
      if v.Ok? then ParsePort(v.value) else Err
  }

  datatype Backend =
    | GsqlBackend(name: string, config: string, user: string, password: string, endpoint: string)
    | GenericBackend(host: string, port: nat, ip: string, engine: string, user: string, password: string,
                     ssl: bool, skipVerify: bool)

  /** The backend instance `create` hands on, or the error it stops with. */
  function Build(k: Cluster, s: Spec, d: Snapshot): Result<Backend> {
    var cred := ParseAdmin(s.engine, d.admin);
    if cred.Err? then Err
    else match GetBackendType(s)
      case GoogleType =>
        var config := if d.config.Some? && "config" in d.config.value then d.config.value["config"] else "";
        Ok(GsqlBackend(s.google.value.instance, config, cred.value.user, cred.value.password, s.google.value.endpoint))
      case GenericType =>
        var g := s.generic.value;
        var host, port, ip := ValueOr(k, g.hostFrom, g.host), PortOr(k, g.portFrom, g.port), ValueOr(k, g.ipFrom, g.ip);
        if host.Ok? && port.Ok? && ip.Ok?
        then Ok(GenericBackend(host.value, port.value, ip.value, s.engine, cred.value.user, cred.value.password,
                               s.ssl, s.skipVerify))
        else Err
      case Invalid => Err
  }

  // ---- Coverage ------------------------------------------------------------------------------------------

  /** The reference points to the same content in both clusters. */
  predicate SameRef(a: Cluster, b: Cluster, r: Option<FromRef>) {
    FetchRef(a, r) == FetchRef(b, r)
  }

  lemma SameRefSameValue(a: Cluster, b: Cluster, r: FromRef)
    requires FetchRef(a, Some(r)).Ok? && SameRef(a, b, Some(r))
    ensures GetValueFrom(a, r) == GetValueFrom(b, r)
  {
  }

  /** Two objects under the same reference with the same checksum hold the same data. */
  lemma SumDecidesRef(h: Hash, a: Cluster, b: Cluster, r: FromRef)
    requires CollisionFree(h) && FetchRef(a, Some(r)).Ok? && FetchRef(b, Some(r)).Ok?
    requires ObjectSum(h, FetchRef(a, Some(r)).value.value) == ObjectSum(h, FetchRef(b, Some(r)).value.value)
    ensures SameRef(a, b, Some(r))
  {
  }

  /**
   The checksums cover exactly what matters: they agree if and only if the spec and
   everything fetched for it agree.
   */
  lemma ChecksumsAgreeIff(h: Hash, k1: Cluster, s1: Spec, k2: Cluster, s2: Spec)
    requires CollisionFree(h) && Fetch(k1, s1).Ok? && Fetch(k2, s2).Ok?
    ensures Checksums(h, s1, Fetch(k1, s1).value) == Checksums(h, s2, Fetch(k2, s2).value)
            <==> s1 == s2 && Fetch(k1, s1) == Fetch(k2, s2)
  {
    var d1, d2 := Fetch(k1, s1).value, Fetch(k2, s2).value;
    var c1, c2 := Checksums(h, s1, d1), Checksums(h, s2, d2);
    if c1 == c2 {
      assert c1["spec"] == h.spec(s1) && c2["spec"] == h.spec(s2);
      assert c1["adminSecret"] == h.secret(d1.admin) && c2["adminSecret"] == h.secret(d2.admin);
      SumsDecideSnapshot(h, k1, k2, s1);
    }
  }

  lemma SumsDecideSnapshot(h: Hash, k1: Cluster, k2: Cluster, s: Spec)
    requires CollisionFree(h) && Fetch(k1, s).Ok? && Fetch(k2, s).Ok?
    requires Fetch(k1, s).value.admin == Fetch(k2, s).value.admin
    requires Checksums(h, s, Fetch(k1, s).value) == Checksums(h, s, Fetch(k2, s).value)
    ensures Fetch(k1, s) == Fetch(k2, s)
  {
    var d1, d2 := Fetch(k1, s).value, Fetch(k2, s).value;
    match GetBackendType(s) {
      case GoogleType =>
        SameEntry(h, s, d1, d2, "config");
        SameEntry(h, s, d1, d2, "clientSecret");
      case GenericType =>
        var g := s.generic.value;
        SameEntry(h, s, d1, d2, "hostFrom");
        if g.hostFrom.Some? { SumDecidesRef(h, k1, k2, g.hostFrom.value); }
        SameEntry(h, s, d1, d2, "portFrom");
        if g.portFrom.Some? { SumDecidesRef(h, k1, k2, g.portFrom.value); }
        SameEntry(h, s, d1, d2, "publicIPFrom");
        if g.ipFrom.Some? { SumDecidesRef(h, k1, k2, g.ipFrom.value); }
      case Invalid =>
    }
  }

  lemma SameEntry(h: Hash, s: Spec, d1: Snapshot, d2: Snapshot, key: string)
    requires Checksums(h, s, d1) == Checksums(h, s, d2) && key in KEYS
    ensures SumOf(h, s, d1, key) == SumOf(h, s, d2, key)
  {
    var c1, c2 := Checksums(h, s, d1), Checksums(h, s, d2);
    assert (key in c1 <==> SumOf(h, s, d1, key).Some?) && (key in c2 <==> SumOf(h, s, d2, key).Some?);
    assert key in c1 ==> c1[key] == c2[key];
  }

  /** What `create` reads for itself, after the fetch the checksums were taken of. */
  datatype Reads = Reads(host: Result<string>, port: Result<nat>, ip: Result<string>)

  function ReadsOf(k: Cluster, s: Spec): Reads {
    if GetBackendType(s).GenericType? then
      var g := s.generic.value;
      Reads(ValueOr(k, g.hostFrom, g.host), PortOr(k, g.portFrom, g.port), ValueOr(k, g.ipFrom, g.ip))
    else Reads(Err, Err, Err)
  }

  lemma ChecksumsCoverReads(h: Hash, k1: Cluster, s1: Spec, k2: Cluster, s2: Spec)
    requires CollisionFree(h) && Fetch(k1, s1).Ok? && Fetch(k2, s2).Ok?
    requires Checksums(h, s1, Fetch(k1, s1).value) == Checksums(h, s2, Fetch(k2, s2).value)
    ensures ReadsOf(k1, s1) == ReadsOf(k2, s2)
  {
    ChecksumsAgreeIff(h, k1, s1, k2, s2);
    if GetBackendType(s1).GenericType? {
      var g := s1.generic.value;
      if g.hostFrom.Some? { SameRefSameValue(k1, k2, g.hostFrom.value); }
      if g.portFrom.Some? { SameRefSameValue(k1, k2, g.portFrom.value); }
      if g.ipFrom.Some? { SameRefSameValue(k1, k2, g.ipFrom.value); }
    }
  }

  /**
   Equal checksums mean the same backend, or the same failure to build one, when what `create`
   read is what was fetched. In general two successful builds agree exactly if they read the same.
   */
  lemma ChecksumsCoverBuild(h: Hash, k1: Cluster, s1: Spec, again1: Cluster, k2: Cluster, s2: Spec, again2: Cluster)
    requires CollisionFree(h) && Fetch(k1, s1).Ok? && Fetch(k2, s2).Ok?
    requires Checksums(h, s1, Fetch(k1, s1).value) == Checksums(h, s2, Fetch(k2, s2).value)
    ensures var b1, b2 := Build(again1, s1, Fetch(k1, s1).value), Build(again2, s2, Fetch(k2, s2).value);
            && (ReadsOf(again1, s1) == ReadsOf(k1, s1) && ReadsOf(again2, s2) == ReadsOf(k2, s2) ==> b1 == b2)
            && (b1.Ok? && b2.Ok? ==> (b1 == b2 <==> ReadsOf(again1, s1) == ReadsOf(again2, s2)))
  {
    ChecksumsAgreeIff(h, k1, s1, k2, s2);
    ChecksumsCoverReads(h, k1, s1, k2, s2);
  }

  // ---- What is fetched and built, field by field -----------------------------------------------------------

  predicate RefThere(k: Cluster, r: Option<FromRef>) {
    r.Some? ==>
      || (r.value.kind == "Secret" && r.value.at in k.secrets)
      || (r.value.kind == "ConfigMap" && r.value.at in k.configs)
  }

  /** The object behind a reference, as the kind it is fetched as. */
  predicate ObjectIs(k: Cluster, r: Option<FromRef>, o: Option<Object>) {
    if r.None? then o.None?
    else if r.value.kind == "Secret" then r.value.at in k.secrets && o == Some(Secret(k.secrets[r.value.at]))
    else r.value.kind == "ConfigMap" && r.value.at in k.configs && o == Some(ConfigMap(k.configs[r.value.at]))
  }

  /** Fetching fails exactly if something the backend type refers to is missing, or of no known kind. */
  lemma FetchSucceedsIff(k: Cluster, s: Spec)
    ensures Fetch(k, s).Ok? <==>
              && s.admin in k.secrets
              && (s.google.Some? && s.generic.None? ==>
                    && s.google.value.config in k.configs
                    && (s.google.value.client.name == "" || s.google.value.client in k.secrets))
              && (s.google.None? && s.generic.Some? ==>
                    && RefThere(k, s.generic.value.hostFrom) && RefThere(k, s.generic.value.portFrom)
                    && RefThere(k, s.generic.value.ipFrom))
  {
  }

  /** And it finds each of them under its own name. */
  lemma FetchedFields(k: Cluster, s: Spec)
    requires Fetch(k, s).Ok?
    ensures var d := Fetch(k, s).value;
            && s.admin in k.secrets && d.admin == k.secrets[s.admin]
            && (s.google.Some? && s.generic.None? ==>
                  && s.google.value.config in k.configs && d.config == Some(k.configs[s.google.value.config])
                  && (if s.google.value.client.name == "" then d.client.None?
                      else s.google.value.client in k.secrets && d.client == Some(k.secrets[s.google.value.client])))
            && (s.google.None? && s.generic.Some? ==>
                  && ObjectIs(k, s.generic.value.hostFrom, d.host) && ObjectIs(k, s.generic.value.portFrom, d.port)
                  && ObjectIs(k, s.generic.value.ipFrom, d.ip))
  {
  }

  /** The spec's own value without a reference, and the value under that key of that object with one. */
  predicate ValueIs(k: Cluster, r: Option<FromRef>, own: string, v: string) {
    if r.None? then v == own
    else if r.value.kind == "Secret" then
      r.value.at in k.secrets && r.value.key in k.secrets[r.value.at] && v == k.secrets[r.value.at][r.value.key]
    else
      && r.value.kind == "ConfigMap"
      && r.value.at in k.configs && r.value.key in k.configs[r.value.at] && v == k.configs[r.value.at][r.value.key]
  }

  /** The first of these keys that is there holds the value. */
  predicate FirstOf(d: Data, keys: seq<string>, v: string) {
    exists i :: 0 <= i < |keys| && keys[i] in d && d[keys[i]] == v && forall j :: 0 <= j < i ==> keys[j] !in d
  }

  /** Where each engine keeps the admin's name and password, in order of precedence. */
  predicate AdminIs(engine: string, d: Data, user: string, password: string) {
    if engine == "postgres" then
      && user == (if "user" in d then d["user"] else "postgres")
      && FirstOf(d, ["password", "postgresql-password", "postgresql-postgres-password"], password)
    else
      && engine == "mysql"
      && user == (if "user" in d then d["user"] else "root")
      && FirstOf(d, ["password", "mysql-root-password"], password)
  }

  lemma ParsedAdmin(engine: string, d: Data)
    ensures var a := ParseAdmin(engine, d);
            && (a.Ok? ==> AdminIs(engine, d, a.value.user, a.value.password))
            && (a.Err? ==> forall u, p :: !AdminIs(engine, d, u, p))
  {
    var pg := ["password", "postgresql-password", "postgresql-postgres-password"];
    var my := ["password", "mysql-root-password"];
    assert pg[0] == "password" && pg[1] == "postgresql-password" && pg[2] == "postgresql-postgres-password";
    assert my[0] == "password" && my[1] == "mysql-root-password";
    var a := ParseAdmin(engine, d);
    if a.Ok? {
      FirstIs(d, if engine == "postgres" then pg else my, a.value.password);
    }
  }

  lemma FirstIs(d: Data, keys: seq<string>, v: string)
    requires 0 < |keys|
    requires || (keys[0] in d && d[keys[0]] == v)
             || (|keys| > 1 && keys[0] !in d && keys[1] in d && d[keys[1]] == v)
             || (|keys| > 2 && keys[0] !in d && keys[1] !in d && keys[2] in d && d[keys[2]] == v)
    ensures FirstOf(d, keys, v)
  {
    if keys[0] in d {
      assert keys[0] in d && d[keys[0]] == v;
    } else if keys[1] in d {
      assert keys[1] in d && d[keys[1]] == v;
    } else {
      assert keys[2] in d && d[keys[2]] == v;
    }
  }

  /** A generic backend, field by field. */
  lemma BuiltGeneric(k: Cluster, s: Spec, d: Snapshot)
    requires s.google.None? && s.generic.Some? && Build(k, s, d).Ok?
    ensures var b, g := Build(k, s, d).value, s.generic.value;
            && b.GenericBackend?
            && ValueIs(k, g.hostFrom, g.host, b.host) && ValueIs(k, g.ipFrom, g.ip, b.ip)
            && (g.portFrom.None? ==> b.port == g.port)
            && (g.portFrom.Some? ==>
                  b.port < 65536 && exists text :: ValueIs(k, g.portFrom, "", text) && Reads10(text, b.port))
            && b.engine == s.engine && b.ssl == s.ssl && b.skipVerify == s.skipVerify
            && AdminIs(s.engine, d.admin, b.user, b.password)
  {
    ParsedAdmin(s.engine, d.admin);
    var g := s.generic.value;
    if g.portFrom.Some? {
      var text := GetValueFrom(k, g.portFrom.value).value;
      assert ValueIs(k, g.portFrom, "", text) && Reads10(text, Build(k, s, d).value.port);
    }
  }

  /** A Google backend, field by field. */
  lemma BuiltGoogle(k: Cluster, s: Spec, d: Snapshot)
    requires s.google.Some? && s.generic.None? && Build(k, s, d).Ok?
    ensures var b, g := Build(k, s, d).value, s.google.value;
            && b.GsqlBackend? && b.name == g.instance && b.endpoint == g.endpoint
            && (d.config.Some? && "config" in d.config.value ==> b.config == d.config.value["config"])
            && (d.config.None? || "config" !in d.config.value ==> b.config == "")
            && AdminIs(s.engine, d.admin, b.user, b.password)
  {
    ParsedAdmin(s.engine, d.admin);
  }

  /** Building fails exactly if there are no admin credentials, no single backend, or a value is missing. */
  lemma BuildSucceedsIff(k: Cluster, s: Spec, d: Snapshot)
    ensures Build(k, s, d).Ok? <==>
              && (exists u, p :: AdminIs(s.engine, d.admin, u, p))
              && (s.google.Some? <==> s.generic.None?)
              && (s.generic.Some? ==>
                    && (exists v :: ValueIs(k, s.generic.value.hostFrom, s.generic.value.host, v))
                    && (exists v :: ValueIs(k, s.generic.value.ipFrom, s.generic.value.ip, v))
                    && (s.generic.value.portFrom.Some? ==>
                          exists v :: ValueIs(k, s.generic.value.portFrom, "", v) && IsPort(v)))
  {
    ParsedAdmin(s.engine, d.admin);
    if s.generic.Some? {
      var g := s.generic.value;
      ValueOrIs(k, g.hostFrom, g.host);
      ValueOrIs(k, g.ipFrom, g.ip);
      ValueOrIs(k, g.portFrom, "");
    }
  }

  lemma ValueOrIs(k: Cluster, r: Option<FromRef>, own: string)
    ensures forall v :: ValueIs(k, r, own, v) <==> ValueOr(k, r, own) == Ok(v)
  {
  }

  // ---- Decimal numbers -------------------------------------------------------------------------------------

  /** The text is the number in decimal digits, leading zeros allowed. */
  predicate Reads10(text: string, n: nat) { text != "" && IsNumber(text) && Digits(text) == n }

  predicate IsPort(text: string) { text != "" && IsNumber(text) && Digits(text) < 65536 }

  function Decimal(n: nat): string {
    if n < 10 then [(n + '0' as int) as char] else Decimal(n / 10) + [(n % 10 + '0' as int) as char]
  }

  /** Reading undoes writing. */
  lemma {:induction false} DecimalReads(n: nat)
    ensures Reads10(Decimal(n), n)
  {
    if n >= 10 {
      DecimalReads(n / 10);
      var last := (n % 10 + '0' as int) as char;
      assert Decimal(n)[..|Decimal(n)| - 1] == Decimal(n / 10) && Decimal(n)[|Decimal(n)| - 1] == last;
    } else {
      assert Decimal(n)[..0] == "";
    }
  }
}
