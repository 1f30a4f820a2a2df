/**
 Templated Secret entries. The deprecated secretsTemplates go through four steps that all
 work on the same map of Secret data, in whatever order the maps are walked; the newer
 templates are rendered one by one into the Secret and the ConfigMap. Neither may disturb
 the credential entries, from which the Secret's checksum is taken.
 */
module Templates {
  import opened Options
  import opened Credentials

  /** Executing a template on the parsed credentials; None when it does not parse or execute. */
  type Render = (Creds, string) -> Option<string>

  function Without(d: Data, keys: set<string>): Data {
    map k | k in d && k !in keys :: d[k]
  }

  // ---- secretsTemplates, step by step --------------------------------------------------------------------

  /** The templates that may be rendered: those not named like a credential. */
  function Rendered(render: Render, c: Creds, ts: map<string, string>): Data {
    map k | k in ts && k !in KEYS && render(c, ts[k]).Some? :: render(c, ts[k]).value
  }

  predicate AllRender(render: Render, c: Creds, ts: map<string, string>) {
    forall k :: k in ts && k !in KEYS ==> render(c, ts[k]).Some?
  }

  /** One turn of a loop that adds entries. */
  lemma AppendTurn(d: Data, fields: Data, keys: set<string>, todo: set<string>, key: string)
    requires key in todo && todo <= fields.Keys
    ensures var before, after := d + Without(fields, keys + todo), d + Without(fields, keys + (todo - {key}));
            after == if key in keys then before else before[key := fields[key]]
  {
    var before, after := Without(fields, keys + todo), Without(fields, keys + (todo - {key}));
    assert after == if key in keys then before else before[key := fields[key]];
  }

  /** The entries that are wanted or not yet looked at. */
  function Kept(d: Data, fields: Data, keys: set<string>, todo: set<string>): Data {
    map k | k in d && (k in fields || k in keys || k in todo) :: d[k]
  }

  /** One turn of a loop that takes entries away. */
  lemma RemoveTurn(d: Data, fields: Data, keys: set<string>, todo: set<string>, key: string)
    requires key in todo && todo <= d.Keys
    ensures var before := Kept(d, fields, keys, todo);
            Kept(d, fields, keys, todo - {key}) == if key in fields || key in keys then before else before - {key}
  {
  }

  class SecretObject {
    var data: Data

    constructor (data: Data)
      ensures this.data == data
    {
      this.data := data;
    }

    /** Takes the templated entries out of the data. */
    method ParseTemplated(ts: map<string, string>) returns (found: Data)
      modifies this
      ensures data == Without(old(data), ts.Keys)
      ensures found == map k | k in old(data) && k in ts :: old(data)[k]
    {
      found := map[];
      var todo := ts.Keys;
      while todo != {}
        invariant todo <= ts.Keys
        invariant data == Without(old(data), ts.Keys - todo)
        invariant found == map k | k in old(data) && k in ts.Keys - todo :: old(data)[k]
        decreases |todo|
      {
        var key :| key in todo;
        if key in data {
          found := found[key := data[key]];
          data := data - {key};
        }
        todo := todo - {key};
      }
    }

    /** Puts new entries in, except under the names of credentials. */
    method Append(fields: Data)
      modifies this
      ensures data == old(data) + Without(fields, KEYS)
    {
      var todo := fields.Keys;
      while todo != {}
        invariant todo <= fields.Keys
        invariant data == old(data) + Without(fields, KEYS + todo)
        decreases |todo|
      {
        var key :| key in todo;
        AppendTurn(old(data), fields, KEYS, todo, key);
        if key !in KEYS {
          data := data[key := fields[key]];
        }
        todo := todo - {key};
      }
      assert KEYS + {} == KEYS;
    }

    /** Takes out what is neither new nor a credential. */
    method RemoveObsolete(fields: Data)
      modifies this
      ensures data == map k | k in old(data) && (k in fields || k in KEYS) :: old(data)[k]
    {
      var todo := data.Keys;
      while todo != {}
        invariant todo <= old(data).Keys
        invariant data == Kept(old(data), fields, KEYS, todo)
        decreases |todo|
      {
        var key :| key in todo;
        RemoveTurn(old(data), fields, KEYS, todo, key);
        if key !in fields && key !in KEYS {
          data := data - {key};
        }
        todo := todo - {key};
      }
    }

    /** createTemplatedSecrets up to the write; the data is only written when this succeeds. */
    method CreateTemplated(engine: string, render: Render, ts: map<string, string>) returns (ok: bool)
      modifies this
      ensures ok == Pipeline(engine, render, ts, old(data)).Some?
      ensures ok ==> data == Pipeline(engine, render, ts, old(data)).value
    {
      if |ts| == 0 { return true; }
      var creds := Parse(engine, data);
      if creds.None? { return false; }
      var _ := ParseTemplated(ts);
      var fields;
      ok, fields := GenerateTemplated(render, creds.value, ts);
      if !ok { return; }
      ghost var before := old(data);
      Append(fields);
      RemoveObsolete(fields);
      StepsComposeTo(fields, ts, before, data);
    }
  }

  /** Renders the templates, and stops at the first one that fails. */
  method GenerateTemplated(render: Render, c: Creds, ts: map<string, string>) returns (ok: bool, fields: Data)
    ensures ok == AllRender(render, c, ts)
    ensures ok ==> fields == Rendered(render, c, ts)
  {
    fields := map[];
    var todo := ts.Keys;
    while todo != {}
      invariant todo <= ts.Keys
      invariant forall k :: k in ts && k !in todo && k !in KEYS ==> render(c, ts[k]).Some?
      invariant fields == map k | k in Rendered(render, c, ts) && k !in todo :: Rendered(render, c, ts)[k]
      decreases |todo|
    {
      var key :| key in todo;
      if key !in KEYS {
        var r := render(c, ts[key]);
        if r.None? { return false, fields; }
        fields := fields[key := r.value];
      }
      todo := todo - {key};
    }
    return true, fields;
  }

  /** What the whole pipeline makes of the data: the untemplated credentials and the rendered entries. */
  function Pipeline(engine: string, render: Render, ts: map<string, string>, d: Data): Option<Data> {
    if ts == map[] then Some(d)
    else
      var c := Parse(engine, d);
      if c.None? || !AllRender(render, c.value, ts) then None
      else Some(Without(Relevant(d), ts.Keys) + Rendered(render, c.value, ts))
  }

  lemma StepsComposeTo(fields: Data, ts: map<string, string>, d: Data, after: Data)
    requires forall k :: k in fields ==> k in ts && k !in KEYS
    requires var mid := Without(d, ts.Keys) + Without(fields, KEYS);
             after == map k | k in mid && (k in fields || k in KEYS) :: mid[k]
    ensures after == Without(Relevant(d), ts.Keys) + fields
  {
  }

  // ---- What comes of it ----------------------------------------------------------------------------------

  /** With no template named like a credential: exactly the credentials and one entry per template. */
  lemma PipelineIsExact(engine: string, render: Render, ts: map<string, string>, d: Data)
    requires ts != map[] && ts.Keys !! KEYS && Pipeline(engine, render, ts, d).Some?
    ensures var r, c := Pipeline(engine, render, ts, d).value, Parse(engine, d);
            && c.Some? && Parse(engine, r) == c
            && r.Keys == Relevant(d).Keys + ts.Keys
            && (forall k :: k in Relevant(d) ==> r[k] == d[k])
            && (forall k :: k in ts ==> render(c.value, ts[k]) == Some(r[k]))
  {
    var r, c := Pipeline(engine, render, ts, d).value, Parse(engine, d);
    assert Relevant(r) == Relevant(d);
    RelevantDecidesParse(engine, r, d);
  }

  /** And then running it again changes nothing. */
  lemma PipelineIsIdempotent(engine: string, render: Render, ts: map<string, string>, d: Data)
    requires ts.Keys !! KEYS && Pipeline(engine, render, ts, d).Some?
    ensures Pipeline(engine, render, ts, Pipeline(engine, render, ts, d).value) == Pipeline(engine, render, ts, d)
  {
    if ts != map[] {
      PipelineIsExact(engine, render, ts, d);
      var r := Pipeline(engine, render, ts, d).value;
      assert Relevant(r) == Relevant(d);
    }
  }

  /**
   The credential entries survive exactly if no template carries the name of one that is there.
   Otherwise the first step deletes it, and no later step puts it back.
   */
  lemma CredentialsSurviveIff(engine: string, render: Render, ts: map<string, string>, d: Data)
    requires Pipeline(engine, render, ts, d).Some?
    ensures Relevant(Pipeline(engine, render, ts, d).value) == Relevant(d) <==> ts.Keys !! Relevant(d).Keys
  {
    if ts != map[] {
      var r := Pipeline(engine, render, ts, d).value;
      assert forall k :: k in Relevant(r) <==> k in Relevant(d) && k !in ts;
      if Relevant(r) == Relevant(d) {
        forall k | k in Relevant(d)
          ensures k !in ts
        {
          assert k in Relevant(r);
        }
      } else {
        assert exists k :: k in Relevant(d) && k in ts;
      }
    }
  }

  /** Runs one after the other; one that fails writes nothing. */
  function Reruns(engine: string, render: Render, tss: seq<map<string, string>>, d: Data): Data
    decreases |tss|
  {
    if tss == [] then d
    else
      var r := Pipeline(engine, render, tss[0], d);
      Reruns(engine, render, tss[1..], if r.Some? then r.value else d)
  }

  lemma {:induction false} UnparsableStays(engine: string, render: Render, tss: seq<map<string, string>>, d: Data)
    requires Parse(engine, d).None?
    ensures Reruns(engine, render, tss, d) == d
    decreases |tss|
  {
    if tss != [] {
      UnparsableStays(engine, render, tss[1..], d);
    }
  }

  /** After that the Secret cannot be parsed any more: every later run with templates fails. */
  lemma {:induction false} LostCredentialIsFatal(engine: string, render: Render, ts: map<string, string>, d: Data,
                                                 key: string, between: seq<map<string, string>>,
                                                 later: map<string, string>)
    requires Pipeline(engine, render, ts, d).Some? && later != map[]
    requires key in EngineKeys(engine) && key in ts
    ensures var lost := Pipeline(engine, render, ts, d).value;
            Pipeline(engine, render, later, Reruns(engine, render, between, lost)) == None
  {
    var lost := Pipeline(engine, render, ts, d).value;
    assert key in KEYS && key !in lost;
    UnparsableStays(engine, render, between, lost);
  }

  /** The entries that parsing needs. */
  function EngineKeys(engine: string): set<string> {
    if engine == POSTGRES then {"POSTGRES_DB", "POSTGRES_USER", "POSTGRES_PASSWORD"}
    else if engine == MYSQL then {"DB", "USER", "PASSWORD"}
    else {}
  }

  // ---- The checksum --------------------------------------------------------------------------------------

  /** The part of the Secret that goes into its checksum. */
  method ChecksumInput(d: Data) returns (r: Data)
    ensures r == Relevant(d)
  {
    r := map[];
    var todo := d.Keys;
    while todo != {}
      invariant todo <= d.Keys
      invariant r == map k | k in d && k in KEYS && k !in todo :: d[k]
      decreases |todo|
    {
      var key :| key in todo;
      if key in KEYS {
        r := r[key := d[key]];
      }
      todo := todo - {key};
    }
  }

  // ---- Templates -----------------------------------------------------------------------------------------

  datatype Template = Template(name: string, text: string, secret: bool)

  /** Executing a template on the Secret and the ConfigMap as they are by then. */
  type Execute = (Data, Data, string) -> Option<string>

  datatype Targets = Targets(secret: Data, config: Data, ok: bool)

  function RenderAll(exec: Execute, ts: seq<Template>, secret: Data, config: Data): Targets
    decreases |ts|
  {
    if ts == [] then Targets(secret, config, true)
    else if ts[0].name in KEYS then Targets(secret, config, false)
    else
      var r := exec(secret, config, ts[0].text);
      if r.None? then Targets(secret, config, false)
      else if ts[0].secret then RenderAll(exec, ts[1..], secret[ts[0].name := r.value], config)
      else RenderAll(exec, ts[1..], secret, config[ts[0].name := r.value])
  }

  class TemplateDataSources {
    var secret: Data
    var config: Data

    constructor (secret: Data, config: Data)
      ensures this.secret == secret && this.config == config
    {
      this.secret := secret;
      this.config := config;
    }

    method RenderTemplates(exec: Execute, ts: seq<Template>) returns (ok: bool)
      modifies this
      ensures Targets(secret, config, ok) == RenderAll(exec, ts, old(secret), old(config))
    {
      for i := 0 to |ts|
        invariant RenderAll(exec, ts, old(secret), old(config)) == RenderAll(exec, ts[i..], secret, config)
      {
        assert ts[i..][1..] == ts[i + 1..];
        if ts[i].name in KEYS { return false; }
        var r := exec(secret, config, ts[i].text);
        if r.None? { return false; }
        if ts[i].secret {
          secret := secret[ts[i].name := r.value];
        } else {
          config := config[ts[i].name := r.value];
        }
      }
      return true;
    }
  }

  ghost predicate Named(ts: seq<Template>, secret: bool, k: string) {
    exists i :: 0 <= i < |ts| && ts[i].name == k && ts[i].secret == secret
  }

  /**
   However far rendering gets, only entries named by a template of the right kind change, none
   of them a credential; nothing is ever removed; and on success every template has its entry.
   */
  lemma {:induction false} RenderingIsConfined(exec: Execute, ts: seq<Template>, secret: Data, config: Data)
    ensures var t := RenderAll(exec, ts, secret, config);
            && Relevant(t.secret) == Relevant(secret)
            && secret.Keys <= t.secret.Keys && config.Keys <= t.config.Keys
            && (forall k :: k in secret && !Named(ts, true, k) ==> t.secret[k] == secret[k])
            && (forall k :: k in config && !Named(ts, false, k) ==> t.config[k] == config[k])
            && (forall k :: k in t.secret && k !in secret ==> Named(ts, true, k))
            && (forall k :: k in t.config && k !in config ==> Named(ts, false, k))
            && (t.ok ==> forall i :: 0 <= i < |ts| ==>
                  ts[i].name !in KEYS && ts[i].name in if ts[i].secret then t.secret else t.config)
    decreases |ts|
  {
    if ts != [] && ts[0].name !in KEYS && exec(secret, config, ts[0].text).Some? {
      var v := exec(secret, config, ts[0].text).value;
      var s1 := if ts[0].secret then secret[ts[0].name := v] else secret;
      var c1 := if ts[0].secret then config else config[ts[0].name := v];
      RenderingIsConfined(exec, ts[1..], s1, c1);
      assert Relevant(s1) == Relevant(secret);
      forall b, k
        ensures Named(ts, b, k) <==> (ts[0].name == k && ts[0].secret == b) || Named(ts[1..], b, k)
      {
        NamedUnfold(ts, b, k);
      }
    }
  }

  predicate Renders(exec: Execute, t: Targets, template: Template) {
    template.name !in KEYS && exec(t.secret, t.config, template.text).Some?
  }

  lemma {:induction false} RenderLast(exec: Execute, ts: seq<Template>, last: Template, secret: Data, config: Data)
    ensures var t, t' := RenderAll(exec, ts, secret, config), RenderAll(exec, ts + [last], secret, config);
            && (!t.ok ==> t' == t)
            && (t.ok ==> t' == RenderAll(exec, [last], t.secret, t.config))
    decreases |ts|
  {
    if ts == [] {
      assert ts + [last] == [last];
    } else if ts[0].name !in KEYS && exec(secret, config, ts[0].text).Some? {
      assert (ts + [last])[1..] == ts[1..] + [last];
      var v := exec(secret, config, ts[0].text).value;
      RenderLast(exec, ts[1..], last, if ts[0].secret then secret[ts[0].name := v] else secret,
                 if ts[0].secret then config else config[ts[0].name := v]);
    }
  }

  /** No later template of the same kind has the same name. */
  ghost predicate Decides(ts: seq<Template>, i: nat)
    requires i < |ts|
  {
    forall j :: i < j < |ts| ==> ts[j].name != ts[i].name || ts[j].secret != ts[i].secret
  }

  /** What the first `i` templates have made. */
  function Before(exec: Execute, ts: seq<Template>, secret: Data, config: Data, i: nat): Targets
    requires i <= |ts|
  {
    RenderAll(exec, ts[..i], secret, config)
  }

  /** Rendering succeeds exactly if each template executes on what those before it have made, under a free name. */
  lemma {:induction false} RenderingSucceedsIff(exec: Execute, ts: seq<Template>, secret: Data, config: Data)
    ensures RenderAll(exec, ts, secret, config).ok <==>
            forall i :: 0 <= i < |ts| ==> Renders(exec, Before(exec, ts, secret, config, i), ts[i])
    decreases |ts|
  {
    if ts != [] {
      var n := |ts| - 1;
      var front := ts[..n];
      assert ts == front + [ts[n]];
      assert forall i :: 0 <= i < n ==> front[..i] == ts[..i];
      RenderLast(exec, front, ts[n], secret, config);
      RenderingSucceedsIff(exec, front, secret, config);
      assert forall i :: 0 <= i < n ==>
               Before(exec, front, secret, config, i) == Before(exec, ts, secret, config, i) && front[i] == ts[i];
    }
  }

  /** The template's entry in the Secret or the ConfigMap. */
  function Entry(t: Targets, template: Template): Option<string> {
    var target := if template.secret then t.secret else t.config;
    if template.name in target then Some(target[template.name]) else None
  }

  /** And then every entry has the value that the last template of its name and kind gave there. */
  lemma {:induction false} RenderedValue(exec: Execute, ts: seq<Template>, secret: Data, config: Data, i: nat)
    requires RenderAll(exec, ts, secret, config).ok && i < |ts| && Decides(ts, i)
    ensures var t, before := RenderAll(exec, ts, secret, config), Before(exec, ts, secret, config, i);
            Entry(t, ts[i]).Some? && Entry(t, ts[i]) == exec(before.secret, before.config, ts[i].text)
    decreases |ts|
  {
    var n := |ts| - 1;
    var front := ts[..n];
    assert ts == front + [ts[n]];
    RenderLast(exec, front, ts[n], secret, config);
    if i < n {
      assert front[..i] == ts[..i];
      RenderedValue(exec, front, secret, config, i);
    }
  }

  /** The names no template may take are those of the credentials of either engine. */
  lemma BlockedNames()
    ensures KEYS == EngineKeys(POSTGRES) + EngineKeys(MYSQL)
    ensures KEYS == {"POSTGRES_DB", "POSTGRES_USER", "POSTGRES_PASSWORD", "DB", "USER", "PASSWORD"}
  {
  }

  lemma NamedUnfold(ts: seq<Template>, b: bool, k: string)
    requires ts != []
    ensures Named(ts, b, k) <==> (ts[0].name == k && ts[0].secret == b) || Named(ts[1..], b, k)
  {
  }
}
