/** The multi-host connection-string parser: parseMultiHostDSN in
    connection/Connection.go and its older copy initializeConverterHosts in
    connection/ConverterDB.go. The process environment is a map parameter. */
module Dsn {
  import opened Base
  import opened Strings

  const JdbcPrefix := "jdbc:"
  const MetadataEnvVar := "METADATA_CATALOGUE_CONNECTION_STRING"
  const ConverterEnvVar := "CONVERTER_CATALOGUE_CONNECTION_STRING"

  datatype DsnError =
    | EnvNotSet(name: string)   // "<name> is not set"
    | MissingSchemeSlashes      // "invalid connection string format: missing '//'"
    | MissingHostSlash          // "invalid connection string format: missing '/' after hosts"

  datatype HostsAndParams = HostsAndParams(hosts: seq<string>, params: string)

  // The deletion pattern is the regular expression
  //   (&?(targetServerType|loadBalanceHosts)=[^&]+)
  // Both key names are 16 characters long, so "key=" is 17.

  /** m is "targetServerType=v" or "loadBalanceHosts=v" with v non-empty and free of '&'. */
  predicate IsUnsupportedAssignment(m: string)
  {
    |m| > 17 && (m[..17] == "targetServerType=" || m[..17] == "loadBalanceHosts=")
    && '&' !in m[17..]
  }

  /** m is a whole match of the deletion pattern. */
  predicate IsParamMatch(m: string)
  {
    IsUnsupportedAssignment(m) || (|m| > 0 && m[0] == '&' && IsUnsupportedAssignment(m[1..]))
  }

  /** The greedy [^&]+ run: the length of the leading stretch without '&'. */
  function ValueRun(s: string): (n: nat)
    ensures n <= |s| && '&' !in s[..n] && (n == |s| || s[n] == '&')
  {
    if s == [] || s[0] == '&' then 0
    else
      var n := 1 + ValueRun(s[1..]);
      assert s[..n] == [s[0]] + s[1..][..n - 1];
      n
  }

  /** Length of the assignment the pattern matches at the start of s (without '&'), or 0. */
  function AssignmentLen(s: string): nat
  {
    if |s| >= 17 && (s[..17] == "targetServerType=" || s[..17] == "loadBalanceHosts=") then
      var v := ValueRun(s[17..]);
      if v == 0 then 0 else 17 + v
    else 0
  }

  /** Length of the match of the deletion pattern at the start of s, or 0 when
      there is none: the optional '&' is taken when it can be. */
  function MatchLen(s: string): (n: nat)
    ensures n <= |s|
  {
    AssignmentLenBound(s);
    if |s| > 0 && s[0] == '&' && AssignmentLen(s[1..]) > 0 then
      AssignmentLenBound(s[1..]);
      1 + AssignmentLen(s[1..])
    else AssignmentLen(s)
  }

  lemma AssignmentLenBound(s: string)
    ensures AssignmentLen(s) <= |s|
  {
  }

  /** AssignmentLen finds the longest assignment at the start of s. */
  lemma AssignmentLenIsLongest(s: string)
    ensures var n := AssignmentLen(s);
            && (n > 0 ==> IsUnsupportedAssignment(s[..n]) && (n == |s| || s[n] == '&'))
            && forall k :: n < k <= |s| ==> !IsUnsupportedAssignment(s[..k])
  {
    var n := AssignmentLen(s);
    if n > 0 {
      var v := ValueRun(s[17..]);
      assert s[..n][..17] == s[..17];
      assert s[..n][17..] == s[17..][..v];
    }
    forall k | n < k <= |s| ensures !IsUnsupportedAssignment(s[..k]) {
      if k > 17 && (s[..k][..17] == "targetServerType=" || s[..k][..17] == "loadBalanceHosts=") {
        assert s[..k][..17] == s[..17];
        var v := ValueRun(s[17..]);
        assert v < k - 17;
        assert s[..k][17..][v] == s[17..][v];
      }
    }
  }

  /** MatchLen is the regular expression's match at position 0: a whole match
      that ends where the value stops, and no longer prefix of s matches. */
  lemma MatchLenIsLongestMatch(s: string)
    ensures var n := MatchLen(s);
            && (n > 0 ==> IsParamMatch(s[..n]) && (n == |s| || s[n] == '&'))
            && forall k :: n < k <= |s| ==> !IsParamMatch(s[..k])
  {
    var n := MatchLen(s);
    AssignmentLenIsLongest(s);
    if |s| > 0 {
      AssignmentLenIsLongest(s[1..]);
    }
    if |s| > 0 && s[0] == '&' {
      assert AssignmentLen(s) == 0;
      forall k | 0 < k <= |s| ensures !IsUnsupportedAssignment(s[..k]) {
        assert s[..k][0] == '&';
      }
      forall k | 0 < k <= |s| ensures s[..k][1..] == s[1..][..k - 1] {
      }
      if n > 0 {
        assert s[..n][1..] == s[1..][..n - 1];
      }
    } else {
      forall k | 0 < k <= |s| ensures !(s[..k][0] == '&') {
      }
    }
  }

  /** A match never contains '&' after its first character. */
  lemma ParamMatchHasNoInnerAmpersand(m: string, i: int)
    requires IsParamMatch(m)
    requires 1 <= i < |m|
    ensures m[i] != '&'
  {
    if IsUnsupportedAssignment(m) {
      if i >= 17 {
        assert m[i] == m[17..][i - 17];
      } else {
        assert m[i] == m[..17][i];
      }
    } else {
      var t := m[1..];
      if i - 1 >= 17 {
        assert m[i] == t[17..][i - 18];
      } else {
        assert m[i] == t[..17][i - 1];
      }
    }
  }

  /** regexp.ReplaceAllString with the deletion pattern: scan left to right and
      delete each match, resuming after it. */
  function StripUnsupported(s: string): (r: string)
    ensures |r| <= |s|
    decreases |s|
  {
    if s == [] then []
    else
      var n := MatchLen(s);
      if n > 0 then StripUnsupported(s[n..]) else [s[0]] + StripUnsupported(s[1..])
  }

  /** No match of the deletion pattern starts at any of the first k positions of s. */
  predicate NoMatchIn(s: string, k: nat)
    requires k <= |s|
    decreases k
  {
    k == 0 || (MatchLen(s) == 0 && NoMatchIn(s[1..], k - 1))
  }

  /** Text in which no match starts is kept verbatim. */
  lemma {:induction false} StripKeepsPlainText(s: string)
    requires NoMatchIn(s, |s|)
    ensures StripUnsupported(s) == s
    decreases |s|
  {
    if s != [] {
      StripKeepsPlainText(s[1..]);
    }
  }

  /** Text before the first match is kept verbatim. */
  lemma {:induction false} StripKeepsPlainPrefix(p: string, t: string)
    requires NoMatchIn(p + t, |p|)
    ensures StripUnsupported(p + t) == p + StripUnsupported(t)
    decreases |p|
  {
    if p == [] {
      assert p + t == t;
    } else {
      var s := p + t;
      assert s[1..] == p[1..] + t;
      StripKeepsPlainPrefix(p[1..], t);
      assert p == [p[0]] + p[1..];
    }
  }

  /** A match followed by the end or by '&' is matched whole. */
  lemma MatchLenOfMatch(m: string, q: string)
    requires IsParamMatch(m)
    requires q == [] || q[0] == '&'
    ensures MatchLen(m + q) == |m|
  {
    var s := m + q;
    MatchLenIsLongestMatch(s);
    assert s[..|m|] == m;
    var n := MatchLen(s);
    assert n >= |m|;
    if n > |m| {
      assert s[..n][|m|] == '&';
      ParamMatchHasNoInnerAmpersand(s[..n], |m|);
      assert false;
    }
  }

  /** A match preceded by plain text and followed by the end or by '&' is
      deleted, together with its leading '&' if it has one, and nothing else
      before it changes. */
  lemma StripDeletesMatch(p: string, m: string, q: string)
    requires NoMatchIn(p + m + q, |p|)
    requires IsParamMatch(m)
    requires q == [] || q[0] == '&'
    ensures StripUnsupported(p + m + q) == p + StripUnsupported(q)
  {
    assert p + m + q == p + (m + q);
    StripKeepsPlainPrefix(p, m + q);
    MatchLenOfMatch(m, q);
    assert (m + q)[|m|..] == q;
  }

  /** regexp `[?&]$`: delete one trailing '?' or '&', if there is one. */
  function TrimTrailingSeparator(s: string): (r: string)
    ensures r == s || (|s| > 0 && r + [s[|s| - 1]] == s)
    ensures r != s <==> |s| > 0 && (s[|s| - 1] == '?' || s[|s| - 1] == '&')
  {
    if |s| > 0 && (s[|s| - 1] == '?' || s[|s| - 1] == '&') then
      assert s[..|s| - 1] + [s[|s| - 1]] == s;
      s[..|s| - 1]
    else s
  }

  /** The three cleaning steps, in the source's order. */
  function CleanDsn(dsn: string): string
  {
    TrimTrailingSeparator(StripUnsupported(RemoveFirst(dsn, JdbcPrefix)))
  }

  /** Split a cleaned DSN at the first "//" and at the first '/' after it;
      the host segment is split on ','. */
  function SplitHostsAndParams(dsn: string): (r: Result<HostsAndParams, DsnError>)
    ensures r == Err(MissingSchemeSlashes) <==> Index(dsn, "//") == -1
    ensures r == Err(MissingHostSlash) <==>
              Index(dsn, "//") != -1 && Index(dsn[Index(dsn, "//") + 2..], "/") == -1
    ensures r.Ok? ==> |r.value.hosts| >= 1
  {
    var hostStart := Index(dsn, "//");
    if hostStart == -1 then Err(MissingSchemeSlashes)
    else
      var hostsAndParams := dsn[hostStart + 2..];
      var splitIndex := Index(hostsAndParams, "/");
      if splitIndex == -1 then Err(MissingHostSlash)
      else
        Ok(HostsAndParams(Split(hostsAndParams[..splitIndex], ','),
                          hostsAndParams[splitIndex + 1..]))
  }

  /** parseMultiHostDSN(envVar), with env standing for the process environment. */
  function ParseMultiHostDSN(envVar: string, env: map<string, string>): (r: Result<HostsAndParams, DsnError>)
    ensures r == Err(EnvNotSet(envVar)) <==> envVar !in env
    ensures envVar in env ==> r == SplitHostsAndParams(CleanDsn(env[envVar]))
  {
    if envVar !in env then Err(EnvNotSet(envVar))
    else SplitHostsAndParams(CleanDsn(env[envVar]))
  }

  /** initializeConverterHosts: the same pipeline, hard-wired to one variable. */
  function InitializeConverterHosts(env: map<string, string>): (r: Result<HostsAndParams, DsnError>)
    ensures r == Err(EnvNotSet(ConverterEnvVar)) <==> ConverterEnvVar !in env
  {
    if ConverterEnvVar !in env then Err(EnvNotSet(ConverterEnvVar))
    else
      var dsn := RemoveFirst(env[ConverterEnvVar], JdbcPrefix);
      var dsn' := StripUnsupported(dsn);
      SplitHostsAndParams(TrimTrailingSeparator(dsn'))
  }

  /** Both copies of the parser give the same hosts, parameters and errors. */
  lemma ConverterHostsAgree(env: map<string, string>)
    ensures InitializeConverterHosts(env) == ParseMultiHostDSN(ConverterEnvVar, env)
  {
  }

  /** A character absent from the joined string is absent from every part. */
  lemma {:induction false} JoinExcludes(parts: seq<string>, sep: char, c: char)
    requires c !in Join(parts, sep)
    ensures forall i :: 0 <= i < |parts| ==> c !in parts[i]
    decreases |parts|
  {
    if |parts| > 1 {
      var tail := Join(parts[1..], sep);
      assert Join(parts, sep) == parts[0] + [sep] + tail;
      assert forall x :: x in tail ==> x in Join(parts, sep);
      JoinExcludes(parts[1..], sep, c);
      assert forall i :: 1 <= i < |parts| ==> parts[i] == parts[1..][i - 1];
    }
  }

  /** The parsed host list joined with ',', then '/', then the parameters, is
      exactly what follows the first "//" of the cleaned DSN; no host contains
      '/' or ','. */
  lemma SplitRoundTrip(dsn: string)
    requires SplitHostsAndParams(dsn).Ok?
    ensures var hp := SplitHostsAndParams(dsn).value;
            && Join(hp.hosts, ',') + "/" + hp.params == dsn[Index(dsn, "//") + 2..]
            && forall k :: 0 <= k < |hp.hosts| ==> '/' !in hp.hosts[k] && ',' !in hp.hosts[k]
  {
    var hp := SplitHostsAndParams(dsn).value;
    var rest := dsn[Index(dsn, "//") + 2..];
    var k := Index(rest, "/");
    JoinSplit(rest[..k], ',');
    assert rest[k..k + 1] == "/";
    assert rest == rest[..k] + "/" + rest[k + 1..];
    forall t | 0 <= t < k ensures rest[..k][t] != '/' {
      assert !OccursAt(rest, "/", t);
      assert rest[t..t + 1] == [rest[t]];
    }
    JoinExcludes(hp.hosts, ',', '/');
  }

  /** The same statement for parseMultiHostDSN. */
  lemma ParseRoundTrip(envVar: string, env: map<string, string>)
    requires ParseMultiHostDSN(envVar, env).Ok?
    ensures var dsn := CleanDsn(env[envVar]);
            var hp := ParseMultiHostDSN(envVar, env).value;
            && |hp.hosts| >= 1
            && Join(hp.hosts, ',') + "/" + hp.params == dsn[Index(dsn, "//") + 2..]
            && forall k :: 0 <= k < |hp.hosts| ==> '/' !in hp.hosts[k] && ',' !in hp.hosts[k]
  {
    SplitRoundTrip(CleanDsn(env[envVar]));
  }
}
