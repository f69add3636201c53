/** The per-variable connection pools of connection/Connection.go and the
    older single pool of connection/ConverterDB.go. Opening a connection and
    checking that one answers are oracles: `opens(dsn)` says whether the
    driver accepted the address, `answers(dsn)` whether the host answers the
    automatic ping of an open that does not turn it off, and
    `reachable(conn)` whether both the handle lookup and the ping succeed at
    the moment of the call. */
module Pools {
  import opened Base
  import opened Strings
  import opened Dsn

  /** An open handle: the host it was made for and the address it was opened with. */
  datatype Conn = Conn(host: string, dsn: string)

  datatype InitError =
    | ParseFailed(envVar: string, cause: DsnError)   // "failed to parse DSN for <envVar>"
    | NoConnections(envVar: string)                  // "failed to initialize any DB connections for <envVar>"

  datatype PoolError =
    | InitFailed(cause: InitError)                   // "initialization error: ..."
    | AllUnreachable(envVar: string)                 // "all database hosts are unreachable for <envVar>"

  /** The single-host address built for one host of a multi-host DSN. */
  function HostDsn(host: string, params: string): string
  {
    "postgresql://" + host + "/" + params
  }

  /** One candidate connection per host, in host order. */
  function Candidates(hosts: seq<string>, params: string): (cs: seq<Conn>)
    ensures |cs| == |hosts|
    ensures forall k :: 0 <= k < |hosts| ==> cs[k] == Conn(hosts[k], HostDsn(hosts[k], params))
  {
    if hosts == [] then []
    else Candidates(hosts[..|hosts| - 1], params) + [Conn(hosts[|hosts| - 1], HostDsn(hosts[|hosts| - 1], params))]
  }

  /** The connections the driver accepted, in host order; hosts it refused are skipped. */
  function Opened(hosts: seq<string>, params: string, opens: string -> bool): seq<Conn>
  {
    Filter(Candidates(hosts, params), (c: Conn) => opens(c.dsn))
  }

  lemma OpenedSnoc(hosts: seq<string>, h: string, params: string, opens: string -> bool)
    ensures Opened(hosts + [h], params, opens)
            == Opened(hosts, params, opens) + (if opens(HostDsn(h, params)) then [Conn(h, HostDsn(h, params))] else [])
  {
    assert (hosts + [h])[..|hosts|] == hosts;
    FilterSnoc(Candidates(hosts, params), Conn(h, HostDsn(h, params)), (c: Conn) => opens(c.dsn));
  }

  /** The loop of initializePool and initializeconverterDbs: build each
      host's address, open it, and keep the connections that opened. */
  method OpenAll(hosts: seq<string>, params: string, opens: string -> bool) returns (conns: seq<Conn>)
    ensures conns == Opened(hosts, params, opens)
  {
    conns := [];
    var i := 0;
    while i < |hosts|
      invariant 0 <= i <= |hosts|
      invariant conns == Opened(hosts[..i], params, opens)
    {
      var current := HostDsn(hosts[i], params);
      OpenedSnoc(hosts[..i], hosts[i], params, opens);
      assert hosts[..i + 1] == hosts[..i] + [hosts[i]];
      if opens(current) {
        conns := conns + [Conn(hosts[i], current)];
      }
      i := i + 1;
    }
    assert hosts[..i] == hosts;
  }

  /** initializePool's outcome: parse the DSN, open one connection per host, and
      fail when none opened. */
  function InitPool(envVar: string, env: map<string, string>, opens: string -> bool): (r: Result<seq<Conn>, InitError>)
    ensures r.Ok? ==> |r.value| > 0
    ensures ParseMultiHostDSN(envVar, env).Err? ==> r == Err(ParseFailed(envVar, ParseMultiHostDSN(envVar, env).error))
    ensures r.Err? && r.error.ParseFailed? ==> ParseMultiHostDSN(envVar, env).Err?
    ensures ParseMultiHostDSN(envVar, env).Ok? ==>
              var hp := ParseMultiHostDSN(envVar, env).value;
              (r.Ok? <==> exists k :: 0 <= k < |hp.hosts| && opens(HostDsn(hp.hosts[k], hp.params)))
              && (r.Err? ==> r == Err(NoConnections(envVar)))
  {
    match ParseMultiHostDSN(envVar, env)
    case Err(e) => Err(ParseFailed(envVar, e))
    case Ok(hp) =>
      OpenedNonEmpty(hp.hosts, hp.params, opens);
      var ps := Opened(hp.hosts, hp.params, opens);
      if ps == [] then Err(NoConnections(envVar)) else Ok(ps)
  }

  /** Some connection opens exactly when some host's address is accepted. */
  lemma OpenedNonEmpty(hosts: seq<string>, params: string, opens: string -> bool)
    ensures Opened(hosts, params, opens) != [] <==> exists k :: 0 <= k < |hosts| && opens(HostDsn(hosts[k], params))
  {
    var cs := Candidates(hosts, params);
    FilterSpec(cs, (c: Conn) => opens(c.dsn));
    if exists k :: 0 <= k < |hosts| && opens(HostDsn(hosts[k], params)) {
      var k :| 0 <= k < |hosts| && opens(HostDsn(hosts[k], params));
      assert cs[k] in Opened(hosts, params, opens);
    }
    if Opened(hosts, params, opens) != [] {
      var c := Opened(hosts, params, opens)[0];
      assert c in cs;
      var k :| 0 <= k < |cs| && cs[k] == c;
      assert opens(HostDsn(hosts[k], params));
    }
  }

  /** A pooled connection was opened for one of the parsed hosts with that
      host's address, the pool keeps host order, and every host whose address
      the driver accepts is in it. */
  lemma InitPoolContents(envVar: string, env: map<string, string>, opens: string -> bool)
    requires InitPool(envVar, env, opens).Ok?
    ensures var hp := ParseMultiHostDSN(envVar, env).value;
            var ps := InitPool(envVar, env, opens).value;
            && (forall c :: c in ps <==> opens(c.dsn) && exists k :: 0 <= k < |hp.hosts| && c == Conn(hp.hosts[k], HostDsn(hp.hosts[k], hp.params)))
            && Subsequence(ps, Candidates(hp.hosts, hp.params))
            && |ps| <= |hp.hosts|
  {
    var hp := ParseMultiHostDSN(envVar, env).value;
    var cs := Candidates(hp.hosts, hp.params);
    FilterSpec(cs, (c: Conn) => opens(c.dsn));
    forall c ensures c in cs <==> exists k :: 0 <= k < |hp.hosts| && c == Conn(hp.hosts[k], HostDsn(hp.hosts[k], hp.params)) {
      if c in cs {
        var k :| 0 <= k < |cs| && cs[k] == c;
        assert c == Conn(hp.hosts[k], HostDsn(hp.hosts[k], hp.params));
      }
    }
  }

  /** The first connection of the pool that answers, if any. */
  function FirstReachable(conns: seq<Conn>, reachable: Conn -> bool): Option<Conn>
  {
    if conns == [] then None
    else if reachable(conns[0]) then Some(conns[0])
    else FirstReachable(conns[1..], reachable)
  }

  /** FirstReachable returns a reachable member all of whose predecessors are
      unreachable, and returns nothing exactly when none is reachable. */
  lemma {:induction false} FirstReachableSpec(conns: seq<Conn>, reachable: Conn -> bool)
    ensures FirstReachable(conns, reachable).None? <==> forall k :: 0 <= k < |conns| ==> !reachable(conns[k])
    ensures FirstReachable(conns, reachable).Some? ==>
              exists i :: 0 <= i < |conns| && conns[i] == FirstReachable(conns, reachable).value
                          && reachable(conns[i]) && forall j :: 0 <= j < i ==> !reachable(conns[j])
  {
    if conns != [] && !reachable(conns[0]) {
      FirstReachableSpec(conns[1..], reachable);
      if FirstReachable(conns, reachable).Some? {
        var i :| 0 <= i < |conns[1..]| && conns[1..][i] == FirstReachable(conns, reachable).value
                  && reachable(conns[1..][i]) && forall j :: 0 <= j < i ==> !reachable(conns[1..][j]);
        assert conns[i + 1] == conns[1..][i];
        forall j | 0 <= j < i + 1 ensures !reachable(conns[j]) {
          if j > 0 { assert conns[j] == conns[1..][j - 1]; }
        }
      }
      forall k | 0 < k < |conns| ensures conns[k] == conns[1..][k - 1] {
      }
    }
  }

  /** The loop shared by connectManager and ConnectConverterOLD: try each
      connection in order and return the first that answers. */
  method SelectHost(conns: seq<Conn>, reachable: Conn -> bool) returns (r: Option<Conn>)
    ensures r == FirstReachable(conns, reachable)
    ensures r.Some? ==> r.value in conns && reachable(r.value)
  {
    var i := 0;
    while i < |conns|
      invariant 0 <= i <= |conns|
      invariant FirstReachable(conns, reachable) == FirstReachable(conns[i..], reachable)
    {
      if reachable(conns[i]) {
        return Some(conns[i]);
      }
      assert conns[i..][1..] == conns[i + 1..];
      i := i + 1;
    }
    return None;
  }

  /** The pool selection outcome for a given pool. */
  function Pick(envVar: string, conns: seq<Conn>, reachable: Conn -> bool): Result<Conn, PoolError>
  {
    match FirstReachable(conns, reachable)
    case Some(c) => Ok(c)
    case None => Err(AllUnreachable(envVar))
  }

  /** connectManager's outcome and the pools it leaves behind: an existing
      non-empty pool is used as it is; otherwise the pool is (re)built first. */
  function Connect(pools: map<string, seq<Conn>>, envVar: string, env: map<string, string>,
                   opens: string -> bool, reachable: Conn -> bool): (out: (Result<Conn, PoolError>, map<string, seq<Conn>>))
  {
    if envVar in pools && |pools[envVar]| > 0 then (Pick(envVar, pools[envVar], reachable), pools)
    else
      match InitPool(envVar, env, opens)
      case Err(e) => (Err(InitFailed(e)), pools)
      case Ok(ps) => (Pick(envVar, ps, reachable), pools[envVar := ps])
  }

  /** A connection handed out answers and belongs to the (non-empty) pool of
      its variable; no other variable's pool changes. */
  lemma ConnectSound(pools: map<string, seq<Conn>>, envVar: string, env: map<string, string>,
                     opens: string -> bool, reachable: Conn -> bool)
    ensures var (r, after) := Connect(pools, envVar, env, opens, reachable);
            && (r.Ok? ==> reachable(r.value) && envVar in after && r.value in after[envVar])
            && (forall v :: v != envVar ==> (v in after <==> v in pools) && (v in pools ==> after[v] == pools[v]))
  {
    var after := Connect(pools, envVar, env, opens, reachable).1;
    if envVar in after {
      FirstReachableSpec(after[envVar], reachable);
    }
  }

  /** "all database hosts are unreachable" is reported exactly when the pool
      was in place (existing or just built) and none of its connections answers. */
  lemma ConnectUnreachable(pools: map<string, seq<Conn>>, envVar: string, env: map<string, string>,
                           opens: string -> bool, reachable: Conn -> bool)
    ensures var (r, after) := Connect(pools, envVar, env, opens, reachable);
            r == Err(AllUnreachable(envVar)) <==>
              envVar in after && |after[envVar]| > 0 && forall k :: 0 <= k < |after[envVar]| ==> !reachable(after[envVar][k])
  {
    var after := Connect(pools, envVar, env, opens, reachable).1;
    if envVar in after {
      FirstReachableSpec(after[envVar], reachable);
    }
    if envVar !in pools || |pools[envVar]| == 0 {
      if InitPool(envVar, env, opens).Err? {
        assert after == pools;
      }
    }
  }

  /** Once a pool exists the environment is no longer read and no connection
      is reopened: the outcome depends only on the pool and on which
      connections answer now. */
  lemma ConnectReusesPool(pools: map<string, seq<Conn>>, envVar: string, env: map<string, string>, env': map<string, string>,
                          opens: string -> bool, opens': string -> bool, reachable: Conn -> bool)
    requires envVar in pools && |pools[envVar]| > 0
    ensures Connect(pools, envVar, env, opens, reachable) == Connect(pools, envVar, env', opens', reachable)
    ensures Connect(pools, envVar, env, opens, reachable).1 == pools
  {
  }

  /** After a call that built the pool, the next call reuses it whatever the
      environment then says. */
  lemma ConnectInitialisesOnce(pools: map<string, seq<Conn>>, envVar: string, env: map<string, string>, env': map<string, string>,
                               opens: string -> bool, opens': string -> bool, reachable: Conn -> bool, reachable': Conn -> bool)
    requires InitPool(envVar, env, opens).Ok?
    ensures var after := Connect(pools, envVar, env, opens, reachable).1;
            && envVar in after && |after[envVar]| > 0
            && Connect(after, envVar, env', opens', reachable').1 == after
  {
  }

  /** The package-level pool map of connection/Connection.go. */
  class PoolManager {
    var pools: map<string, seq<Conn>>

    constructor()
      ensures pools == map[]
    {
      pools := map[];
    }

    /** initializePool: on success the variable's pool is replaced; on failure nothing changes. */
    method InitializePool(envVar: string, env: map<string, string>, opens: string -> bool) returns (err: Option<InitError>)
      modifies this
      ensures InitPool(envVar, env, opens).Ok? ==> err.None? && pools == old(pools)[envVar := InitPool(envVar, env, opens).value]
      ensures InitPool(envVar, env, opens).Err? ==> err == Some(InitPool(envVar, env, opens).error) && pools == old(pools)
    {
      var parsed := ParseMultiHostDSN(envVar, env);
      if parsed.Err? {
        return Some(ParseFailed(envVar, parsed.error));
      }
      var hosts, params := parsed.value.hosts, parsed.value.params;
      var newDbs := OpenAll(hosts, params, opens);
      if |newDbs| == 0 {
        return Some(NoConnections(envVar));
      }
      assert InitPool(envVar, env, opens) == Ok(newDbs);
      pools := pools[envVar := newDbs];
      return None;
    }

    /** connectManager: build the pool if it is missing or empty, then hand out
        the first connection that answers. */
    method ConnectManager(envVar: string, env: map<string, string>, opens: string -> bool, reachable: Conn -> bool)
      returns (r: Result<Conn, PoolError>)
      modifies this
      ensures (r, pools) == Connect(old(pools), envVar, env, opens, reachable)
    {
      if envVar !in pools || |pools[envVar]| == 0 {
        var err := InitializePool(envVar, env, opens);
        if err.Some? {
          return Err(InitFailed(err.value));
        }
      }
      var picked := SelectHost(pools[envVar], reachable);
      if picked.None? {
        return Err(AllUnreachable(envVar));
      }
      return Ok(picked.value);
    }

    /** connectMetadata and connectConverter: the two variables the service uses. */
    method ConnectMetadata(env: map<string, string>, opens: string -> bool, reachable: Conn -> bool)
      returns (r: Result<Conn, PoolError>)
      modifies this
      ensures (r, pools) == Connect(old(pools), MetadataEnvVar, env, opens, reachable)
    {
      r := ConnectManager(MetadataEnvVar, env, opens, reachable);
    }

    method ConnectConverter(env: map<string, string>, opens: string -> bool, reachable: Conn -> bool)
      returns (r: Result<Conn, PoolError>)
      modifies this
      ensures (r, pools) == Connect(old(pools), ConverterEnvVar, env, opens, reachable)
    {
      r := ConnectManager(ConverterEnvVar, env, opens, reachable);
    }
  }

  /** gorm.Open with its automatic ping left on, as connection/ConverterDB.go
      opens: the driver accepts the address and the host answers at once. */
  function OpensPinged(opens: string -> bool, answers: string -> bool): (o: string -> bool)
    ensures forall dsn :: o(dsn) == (opens(dsn) && answers(dsn))
  {
    (dsn: string) => opens(dsn) && answers(dsn)
  }

  /** Opening with the ping keeps, in order, those connections opened without
      it whose host also answers at open time. */
  lemma {:induction false} OpenedPinged(hosts: seq<string>, params: string, opens: string -> bool, answers: string -> bool)
    ensures Opened(hosts, params, OpensPinged(opens, answers)) == Filter(Opened(hosts, params, opens), (c: Conn) => answers(c.dsn))
    decreases |hosts|
  {
    if hosts != [] {
      var init, h := hosts[..|hosts| - 1], hosts[|hosts| - 1];
      assert hosts == init + [h];
      OpenedPinged(init, params, opens, answers);
      OpenedSnoc(init, h, params, OpensPinged(opens, answers));
      OpenedSnoc(init, h, params, opens);
      FilterSnoc(Opened(init, params, opens), Conn(h, HostDsn(h, params)), (c: Conn) => answers(c.dsn));
      if !opens(HostDsn(h, params)) {
        assert Opened(init, params, opens) + [] == Opened(init, params, opens);
      }
    }
  }

  /** initializeconverterDbs's effect on the old single pool: the pool is
      emptied as soon as the DSN parses, and refilled with what opens and
      answers the automatic ping. */
  function ReinitConverter(dbs: seq<Conn>, env: map<string, string>, opens: string -> bool, answers: string -> bool)
    : (out: (Option<InitError>, seq<Conn>))
    ensures out.0.None? ==> |out.1| > 0
    ensures InitializeConverterHosts(env).Err? ==> out == (Some(ParseFailed(ConverterEnvVar, InitializeConverterHosts(env).error)), dbs)
  {
    match InitializeConverterHosts(env)
    case Err(e) => (Some(ParseFailed(ConverterEnvVar, e)), dbs)
    case Ok(hp) =>
      var ps := Opened(hp.hosts, hp.params, OpensPinged(opens, answers));
      if ps == [] then (Some(NoConnections(ConverterEnvVar)), []) else (None, ps)
  }

  /** The older pool yields what the keyed manager would with an open that
      also demands an answer. */
  lemma ReinitConverterAgrees(dbs: seq<Conn>, env: map<string, string>, opens: string -> bool, answers: string -> bool)
    ensures var pinged := OpensPinged(opens, answers);
            && (ReinitConverter(dbs, env, opens, answers).0.None? <==> InitPool(ConverterEnvVar, env, pinged).Ok?)
            && (InitPool(ConverterEnvVar, env, pinged).Ok? ==>
                  ReinitConverter(dbs, env, opens, answers).1 == InitPool(ConverterEnvVar, env, pinged).value)
            && (InitPool(ConverterEnvVar, env, pinged) == Err(NoConnections(ConverterEnvVar)) ==>
                  ReinitConverter(dbs, env, opens, answers).1 == [])
  {
    ConverterHostsAgree(env);
  }

  /** Against initializePool on the same hosts: the older pool is the
      keyed pool less the hosts that do not answer at open time, so it
      succeeds only where initializePool does, and agrees with it when every
      host answers. */
  lemma ReinitConverterWithinInitPool(dbs: seq<Conn>, env: map<string, string>, opens: string -> bool, answers: string -> bool)
    ensures ReinitConverter(dbs, env, opens, answers).0.None? ==>
              && InitPool(ConverterEnvVar, env, opens).Ok?
              && ReinitConverter(dbs, env, opens, answers).1 == Filter(InitPool(ConverterEnvVar, env, opens).value, (c: Conn) => answers(c.dsn))
              && Subsequence(ReinitConverter(dbs, env, opens, answers).1, InitPool(ConverterEnvVar, env, opens).value)
    ensures (forall dsn :: answers(dsn)) ==>
              && (ReinitConverter(dbs, env, opens, answers).0.None? <==> InitPool(ConverterEnvVar, env, opens).Ok?)
              && (InitPool(ConverterEnvVar, env, opens).Ok? ==>
                    ReinitConverter(dbs, env, opens, answers).1 == InitPool(ConverterEnvVar, env, opens).value)
  {
    ConverterHostsAgree(env);
    var parsed := ParseMultiHostDSN(ConverterEnvVar, env);
    if parsed.Ok? {
      var hp := parsed.value;
      var kept := Opened(hp.hosts, hp.params, opens);
      OpenedPinged(hp.hosts, hp.params, opens, answers);
      FilterSpec(kept, (c: Conn) => answers(c.dsn));
      if kept == [] {
        assert Filter(kept, (c: Conn) => answers(c.dsn)) == [];
      }
      if forall dsn :: answers(dsn) {
        forall k | 0 <= k < |kept| ensures answers(kept[k].dsn) {
        }
        FilterAll(kept, (c: Conn) => answers(c.dsn));
      }
    }
  }

  /** The package-level converterDbs slice of connection/ConverterDB.go. */
  class ConverterPool {
    var dbs: seq<Conn>

    constructor()
      ensures dbs == []
    {
      dbs := [];
    }

    method InitializeConverterDbs(env: map<string, string>, opens: string -> bool, answers: string -> bool)
      returns (err: Option<InitError>)
      modifies this
      ensures (err, dbs) == ReinitConverter(old(dbs), env, opens, answers)
    {
      var parsed := InitializeConverterHosts(env);
      if parsed.Err? {
        return Some(ParseFailed(ConverterEnvVar, parsed.error));
      }
      var hosts, params := parsed.value.hosts, parsed.value.params;
      // the old handles are dropped before any new one is opened
      dbs := OpenAll(hosts, params, OpensPinged(opens, answers));
      if |dbs| == 0 {
        return Some(NoConnections(ConverterEnvVar));
      }
      return None;
    }

    /** ConnectConverterOLD: initialise when the pool is empty, then hand out
        the first connection that answers. */
    method ConnectConverterOld(env: map<string, string>, opens: string -> bool, answers: string -> bool, reachable: Conn -> bool)
      returns (r: Result<Conn, PoolError>)
      modifies this
      ensures |old(dbs)| > 0 ==> dbs == old(dbs) && r == Pick(ConverterEnvVar, dbs, reachable)
      ensures |old(dbs)| == 0 ==>
                var (err, after) := ReinitConverter(old(dbs), env, opens, answers);
                dbs == after && r == (if err.Some? then Err(InitFailed(err.value)) else Pick(ConverterEnvVar, after, reachable))
    {
      if |dbs| == 0 {
        var err := InitializeConverterDbs(env, opens, answers);
        if err.Some? {
          return Err(InitFailed(err.value));
        }
      }
      var picked := SelectHost(dbs, reachable);
      if picked.None? {
        return Err(AllUnreachable(ConverterEnvVar));
      }
      return Ok(picked.value);
    }
  }
}
