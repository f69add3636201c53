/** Values shared by the whole model: outcome wrappers, the catalogue records
    the reconciliation engine reads and writes, and an order-preserving filter. */
module Base {

  datatype Option<+T> = None | Some(value: T)

  datatype Result<+T, +E> = Ok(value: T) | Err(error: E)

  /** An error reported by a database query. RecordNotFound is gorm's
      ErrRecordNotFound; DuplicateKey is a primary-key violation on insert. */
  datatype DbError = RecordNotFound | DuplicateKey | QueryFailed(msg: string)

  /** The outcome of fetching one row by key. */
  datatype Lookup<+T> = Found(value: T) | NotFound | OtherError(msg: string)

  /** The error a failed lookup hands to its caller. */
  function LookupError<T>(l: Lookup<T>): (e: DbError)
    requires !l.Found?
    ensures e == RecordNotFound <==> l.NotFound?
  {
    if l.NotFound? then RecordNotFound else QueryFailed(l.msg)
  }

  /** A registered plugin (a row of the converter catalogue's plugin table). */
  datatype Plugin = Plugin(
    id: string,
    softwareSourceCodeId: string,
    softwareApplicationId: string,
    version: string,
    versionType: string,
    repository: string,
    runtime: string,
    proxyType: string,
    execution: string,
    installed: bool,
    enabled: bool)

  /** The zero value of a plugin record, returned alongside an error. */
  const ZeroPlugin := Plugin("", "", "", "", "", "", "", "", "", false, false)

  /** A link from a plugin to an operation it implements. */
  datatype PluginRelation = PluginRelation(
    id: string,
    pluginId: string,
    relationId: string,
    relationType: string,
    inputFormat: string,
    outputFormat: string)

  /** Metadata-catalogue records read by the diff engine. */
  datatype SourceCode = SourceCode(instanceId: string, uid: string, softwareVersion: string)

  datatype Application = Application(instanceId: string, uid: string, requirements: string)

  datatype Operation = Operation(softwareApplicationInstanceId: string, operationInstanceId: string)

  datatype Parameter = Parameter(action: string, encodingFormat: string)

  function PluginIds(ps: seq<Plugin>): set<string>
  {
    set p | p in ps :: p.id
  }

  /** The plugin table's primary key: no two rows share an id. */
  predicate UniqueIds(ps: seq<Plugin>)
  {
    forall i, j :: 0 <= i < j < |ps| ==> ps[i].id != ps[j].id
  }

  predicate UniqueRelationIds(rs: seq<PluginRelation>)
  {
    forall i, j :: 0 <= i < j < |rs| ==> rs[i].id != rs[j].id
  }

  /** xs occurs in ys in the same order, possibly with gaps. */
  predicate Subsequence<T(==)>(xs: seq<T>, ys: seq<T>)
    decreases |ys|
  {
    if xs == [] then true
    else if ys == [] then false
    else if xs[0] == ys[0] then Subsequence(xs[1..], ys[1..])
    else Subsequence(xs, ys[1..])
  }

  /** The elements of s that satisfy keep, in their original order. */
  function Filter<T>(s: seq<T>, keep: T -> bool): (r: seq<T>)
    ensures |r| <= |s|
  {
    if s == [] then []
    else if keep(s[0]) then [s[0]] + Filter(s[1..], keep)
    else Filter(s[1..], keep)
  }

  lemma {:induction false} FilterAppend<T>(a: seq<T>, b: seq<T>, keep: T -> bool)
    ensures Filter(a + b, keep) == Filter(a, keep) + Filter(b, keep)
  {
    if a == [] {
      assert a + b == b;
    } else {
      assert (a + b)[0] == a[0];
      assert (a + b)[1..] == a[1..] + b;
      FilterAppend(a[1..], b, keep);
    }
  }

  /** Appending one element: what a loop that filters step by step relies on. */
  lemma FilterSnoc<T>(a: seq<T>, x: T, keep: T -> bool)
    ensures Filter(a + [x], keep) == Filter(a, keep) + (if keep(x) then [x] else [])
  {
    FilterAppend(a, [x], keep);
    assert [x][1..] == [];
  }

  /** Filter keeps exactly the elements that satisfy keep, and keeps their order. */
  lemma {:induction false} FilterSpec<T>(s: seq<T>, keep: T -> bool)
    ensures forall x :: x in Filter(s, keep) <==> x in s && keep(x)
    ensures Subsequence(Filter(s, keep), s)
  {
    if s != [] {
      FilterSpec(s[1..], keep);
      var rest := Filter(s[1..], keep);
      if keep(s[0]) {
        assert ([s[0]] + rest)[1..] == rest;
      } else if rest != [] {
        assert rest[0] in rest;
      }
      forall x ensures x in Filter(s, keep) <==> x in s && keep(x) {
        assert x in s <==> x == s[0] || x in s[1..];
      }
    }
  }

  /** Filtering by a condition every element meets keeps the whole sequence. */
  lemma {:induction false} FilterAll<T>(s: seq<T>, keep: T -> bool)
    requires forall k :: 0 <= k < |s| ==> keep(s[k])
    ensures Filter(s, keep) == s
  {
    if s != [] {
      assert keep(s[0]);
      forall k | 0 <= k < |s[1..]| ensures keep(s[1..][k]) {
        assert s[1..][k] == s[k + 1];
      }
      FilterAll(s[1..], keep);
      assert [s[0]] + s[1..] == s;
    }
  }
}

/** The string operations of Go's strings package that the core uses. */
module Strings {

  /** pat occurs in s starting at index i. */
  predicate OccursAt(s: string, pat: string, i: int)
  {
    0 <= i && i + |pat| <= |s| && s[i..i + |pat|] == pat
  }

  function IndexFrom(s: string, pat: string, i: nat): (r: int)
    requires i <= |s|
    ensures r == -1 || (i <= r && OccursAt(s, pat, r))
    ensures r == -1 ==> forall j :: i <= j ==> !OccursAt(s, pat, j)
    ensures r != -1 ==> forall j :: i <= j < r ==> !OccursAt(s, pat, j)
    decreases |s| - i
  {
    if i + |pat| > |s| then -1
    else if s[i..i + |pat|] == pat then i
    else IndexFrom(s, pat, i + 1)
  }

  /** strings.Index: the index of the first occurrence of pat in s, or -1. */
  function Index(s: string, pat: string): (r: int)
    ensures r == -1 || OccursAt(s, pat, r)
    ensures r == -1 ==> forall j :: !OccursAt(s, pat, j)
    ensures r != -1 ==> forall j :: 0 <= j < r ==> !OccursAt(s, pat, j)
  {
    IndexFrom(s, pat, 0)
  }

  /** strings.Replace(s, pat, "", 1): delete the first occurrence of pat. */
  function RemoveFirst(s: string, pat: string): (r: string)
    ensures Index(s, pat) == -1 ==> r == s
    ensures Index(s, pat) != -1 ==>
              var i := Index(s, pat);
              |r| == |s| - |pat| && r[..i] == s[..i] && s == r[..i] + pat + r[i..]
  {
    var i := Index(s, pat);
    if i == -1 then s
    else
      var r := s[..i] + s[i + |pat|..];
      assert r[..i] == s[..i] && r[i..] == s[i + |pat|..];
      assert s == s[..i] + s[i..i + |pat|] + s[i + |pat|..];
      r
  }

  /** strings.Replace(s, pat, "", -1): delete every occurrence of pat,
      scanning left to right without overlap. */
  function RemoveAll(s: string, pat: string): (r: string)
    requires pat != []
    ensures |r| <= |s|
    decreases |s|
  {
    if s == [] then []
    else if |pat| <= |s| && s[..|pat|] == pat then RemoveAll(s[|pat|..], pat)
    else [s[0]] + RemoveAll(s[1..], pat)
  }

  /** A string in which pat never occurs is left alone. */
  lemma {:induction false} RemoveAllAbsent(s: string, pat: string)
    requires pat != []
    requires forall j :: !OccursAt(s, pat, j)
    ensures RemoveAll(s, pat) == s
  {
    if s != [] {
      assert !OccursAt(s, pat, 0);
      forall j ensures !OccursAt(s[1..], pat, j) {
        assert !OccursAt(s, pat, j + 1);
        if 0 <= j && j + |pat| <= |s| - 1 {
          assert s[1..][j..j + |pat|] == s[j + 1..j + 1 + |pat|];
        }
      }
      RemoveAllAbsent(s[1..], pat);
    }
  }

  /** A leading occurrence of pat is deleted. */
  lemma RemoveAllLeading(pat: string, s: string)
    requires pat != []
    ensures RemoveAll(pat + s, pat) == RemoveAll(s, pat)
  {
    assert (pat + s)[..|pat|] == pat;
    assert (pat + s)[|pat|..] == s;
  }

  /** Text in which no occurrence of pat starts is kept, and the scan resumes
      right after it. */
  lemma {:induction false} RemoveAllPlainPrefix(p: string, s: string, pat: string)
    requires pat != []
    requires forall j :: 0 <= j < |p| ==> !OccursAt(p + s, pat, j)
    ensures RemoveAll(p + s, pat) == p + RemoveAll(s, pat)
    decreases |p|
  {
    if p != [] {
      var ps := p + s;
      var q := p[1..] + s;
      assert q == ps[1..];
      forall j | 0 <= j < |p[1..]| ensures !OccursAt(q, pat, j) {
        assert !OccursAt(ps, pat, j + 1);
        if j + |pat| <= |q| {
          assert q[j..j + |pat|] == ps[j + 1..j + 1 + |pat|];
        }
      }
      RemoveAllPlainPrefix(p[1..], s, pat);
      assert !OccursAt(ps, pat, 0);
      assert !(|pat| <= |ps| && ps[..|pat|] == pat) by {
        if |pat| <= |ps| { assert ps[..|pat|] == ps[0..0 + |pat|]; }
      }
      calc {
        RemoveAll(ps, pat);
        [ps[0]] + RemoveAll(q, pat);
        [p[0]] + (p[1..] + RemoveAll(s, pat));
        { assert [p[0]] + p[1..] == p; }
        p + RemoveAll(s, pat);
      }
    } else {
      assert p + s == s;
    }
  }

  /** strings.Replace(s, pat, "", -1) deletes an occurrence of pat that
      follows text in which none starts, and keeps that text. */
  lemma RemoveAllDeletesOccurrence(p: string, t: string, pat: string)
    requires pat != []
    requires forall j :: 0 <= j < |p| ==> !OccursAt(p + pat + t, pat, j)
    ensures RemoveAll(p + pat + t, pat) == p + RemoveAll(t, pat)
  {
    assert p + pat + t == p + (pat + t);
    RemoveAllPlainPrefix(p, pat + t, pat);
    RemoveAllLeading(pat, t);
  }

  /** strings.Split(s, [sep]): the pieces between the separators; never empty. */
  function Split(s: string, sep: char): (r: seq<string>)
    ensures |r| >= 1
    ensures forall k :: 0 <= k < |r| ==> sep !in r[k]
    decreases |s|
  {
    var i := Index(s, [sep]);
    if i == -1 then
      assert forall k :: 0 <= k < |s| ==> !OccursAt(s, [sep], k) && s[k..k + 1] == [s[k]];
      [s]
    else
      assert forall k :: 0 <= k < i ==> !OccursAt(s, [sep], k) && s[k..k + 1] == [s[k]];
      assert s[i..i + 1] == [s[i]];
      [s[..i]] + Split(s[i + 1..], sep)
  }

  /** strings.Join(parts, [sep]). */
  function Join(parts: seq<string>, sep: char): string
  {
    if parts == [] then ""
    else if |parts| == 1 then parts[0]
    else parts[0] + [sep] + Join(parts[1..], sep)
  }

  /** Splitting and joining again gives back the original string. */
  lemma {:induction false} JoinSplit(s: string, sep: char)
    ensures Join(Split(s, sep), sep) == s
    decreases |s|
  {
    var i := Index(s, [sep]);
    if i != -1 {
      var rest := Split(s[i + 1..], sep);
      JoinSplit(s[i + 1..], sep);
      assert Split(s, sep) == [s[..i]] + rest;
      assert ([s[..i]] + rest)[1..] == rest;
      assert s[i..i + 1] == [sep];
      assert s == s[..i] + [sep] + s[i + 1..];
    }
  }

  /** Joining pieces free of the separator and splitting again gives back the pieces. */
  lemma {:induction false} SplitJoin(parts: seq<string>, sep: char)
    requires |parts| >= 1
    requires forall k :: 0 <= k < |parts| ==> sep !in parts[k]
    ensures Split(Join(parts, sep), sep) == parts
    decreases |parts|
  {
    var head := parts[0];
    if |parts| == 1 {
      NoSeparatorIndex(head, sep);
    } else {
      var tail := Join(parts[1..], sep);
      var s := head + [sep] + tail;
      assert Join(parts, sep) == s;
      assert OccursAt(s, [sep], |head|) by {
        assert s[|head|..|head| + 1] == [sep];
      }
      forall j | 0 <= j < |head| ensures !OccursAt(s, [sep], j) {
        assert s[j..j + 1] == [head[j]];
      }
      assert Index(s, [sep]) == |head|;
      assert s[..|head|] == head;
      assert s[|head| + 1..] == tail;
      SplitJoin(parts[1..], sep);
      assert parts == [head] + parts[1..];
    }
  }

  lemma NoSeparatorIndex(s: string, sep: char)
    requires sep !in s
    ensures Index(s, [sep]) == -1
    ensures Split(s, sep) == [s]
  {
    forall j ensures !OccursAt(s, [sep], j) {
      if 0 <= j < |s| {
        assert s[j..j + 1] == [s[j]];
        assert s[j] in s;
      }
    }
  }
}
