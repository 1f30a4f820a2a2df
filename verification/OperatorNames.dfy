/**
 The names the operator generates, put into the step system: on Postgres no Database of a
 namespace can lose its SQL database to another, on MySQL one can.
 */
module OperatorNames {
  import opened Operator
  import opened OperatorRuns
  import opened Finalizers
  import opened Credentials

  /** Rules with the names generated for objects of one namespace. */
  function Generated(r: Rules, sha: string -> string, engine: string, ns: string): Rules
    requires IsSha(sha)
  {
    r.(dbName := n => ServerName(sha, engine, Meta(ns, n)),
       roleName := n => Fitted(sha, engine, Qualified(Meta(ns, n)), 32))
  }

  lemma PostgresLosesNone(r: Rules, sha: string -> string, ns: string)
    requires IsSha(sha) && r.sessionReads
    ensures NoneLost(Generated(r, sha, POSTGRES, ns))
  {
    var g := Generated(r, sha, POSTGRES, ns);
    forall a: string, b: string | a != b
      ensures g.dbName(a) != g.dbName(b)
    {
      PostgresNamesAgreeIff(sha, Meta(ns, a), Meta(ns, b));
    }
    NoneIsLostIff(g);
  }

  lemma MysqlLosesSome(r: Rules, sha: string -> string, ns: string)
    requires IsSha(sha) && r.sessionReads
    ensures !NoneLost(Generated(r, sha, MYSQL, ns))
  {
    var g := Generated(r, sha, MYSQL, ns);
    MysqlNamesCollide(sha, ns);
    assert g.dbName("a.b") == g.dbName("a-b") && |"a.b"| < |USER_PREFIX|;
    assert !Contains("a.b", USER_PREFIX);
    NoneIsLostIff(g);
  }
}
