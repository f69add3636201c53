/** The converter catalogue's plugin and relation tables as in-memory state
    (db/Queries.go). The id column is each table's primary key; a batch insert
    is one statement, so it adds every row or, on a key clash, none. */
module Registry {
  import opened Base

  /** The first row with the given id (gorm's First), or NotFound. */
  function FindById(ps: seq<Plugin>, id: string): (r: Lookup<Plugin>)
    ensures r.Found? ==> r.value in ps && r.value.id == id
    ensures r.NotFound? <==> id !in PluginIds(ps)
    ensures !r.OtherError?
  {
    if ps == [] then NotFound
    else if ps[0].id == id then Found(ps[0])
    else
      var r := FindById(ps[1..], id);
      assert forall p :: p in ps <==> p == ps[0] || p in ps[1..];
      r
  }

  /** connection/Queries.go's variant (gorm's Find into one record): a missing
      id is not an error, the zero record comes back instead. */
  function FindOrZero(ps: seq<Plugin>, id: string): (p: Plugin)
    ensures id in PluginIds(ps) ==> p in ps && p.id == id
    ensures id !in PluginIds(ps) ==> p == ZeroPlugin
  {
    match FindById(ps, id)
    case Found(q) => q
    case _ => ZeroPlugin
  }

  /** Every row whose id is id with its installed flag set to b; nothing else differs. */
  function WithInstalled(ps: seq<Plugin>, id: string, b: bool): (r: seq<Plugin>)
    ensures |r| == |ps|
    ensures forall k :: 0 <= k < |ps| ==> r[k] == if ps[k].id == id then ps[k].(installed := b) else ps[k]
  {
    if ps == [] then []
    else [if ps[0].id == id then ps[0].(installed := b) else ps[0]] + WithInstalled(ps[1..], id, b)
  }

  /** Setting the flag keeps the key column, so the key stays unique. */
  lemma WithInstalledKeepsKeys(ps: seq<Plugin>, id: string, b: bool)
    ensures PluginIds(WithInstalled(ps, id, b)) == PluginIds(ps)
    ensures UniqueIds(ps) ==> UniqueIds(WithInstalled(ps, id, b))
  {
    var r := WithInstalled(ps, id, b);
    assert forall k :: 0 <= k < |ps| ==> r[k].id == ps[k].id;
    forall x | x in PluginIds(r) ensures x in PluginIds(ps) {
      var p :| p in r && p.id == x;
      var k :| 0 <= k < |r| && r[k] == p;
      assert ps[k] in ps;
    }
    forall x | x in PluginIds(ps) ensures x in PluginIds(r) {
      var p :| p in ps && p.id == x;
      var k :| 0 <= k < |ps| && ps[k] == p;
      assert r[k] in r;
    }
  }

  /** Setting the flag again to the same value changes nothing. */
  lemma WithInstalledIdempotent(ps: seq<Plugin>, id: string, b: bool)
    ensures WithInstalled(WithInstalled(ps, id, b), id, b) == WithInstalled(ps, id, b)
  {
    var r := WithInstalled(ps, id, b);
    assert forall k :: 0 <= k < |ps| ==> r[k].id == ps[k].id;
  }

  /** After the update the lookup by id finds the same row with the new flag. */
  lemma {:induction false} FindAfterWithInstalled(ps: seq<Plugin>, id: string, b: bool)
    requires FindById(ps, id).Found?
    ensures FindById(WithInstalled(ps, id, b), id) == Found(FindById(ps, id).value.(installed := b))
  {
    if ps[0].id != id {
      FindAfterWithInstalled(ps[1..], id, b);
      assert WithInstalled(ps, id, b)[1..] == WithInstalled(ps[1..], id, b);
    }
  }

  /** The update leaves the lookup of every other id as it was. */
  lemma {:induction false} FindOtherAfterWithInstalled(ps: seq<Plugin>, id: string, other: string, b: bool)
    requires other != id
    ensures FindById(WithInstalled(ps, id, b), other) == FindById(ps, other)
  {
    if ps != [] {
      FindOtherAfterWithInstalled(ps[1..], id, other, b);
      assert WithInstalled(ps, id, b)[1..] == WithInstalled(ps[1..], id, b);
    }
  }

  class PluginRegistry {
    var plugins: seq<Plugin>
    var relations: seq<PluginRelation>

    /** The primary keys hold. */
    predicate Valid()
      reads this
    {
      UniqueIds(plugins) && UniqueRelationIds(relations)
    }

    constructor()
      ensures Valid() && plugins == [] && relations == []
    {
      plugins, relations := [], [];
    }

    /** GetPluginById: the row with that id, or RecordNotFound (gorm's First). */
    function GetPluginById(id: string): (r: Lookup<Plugin>)
      reads this
      ensures r.Found? ==> r.value in plugins && r.value.id == id
      ensures r.NotFound? <==> id !in PluginIds(plugins)
      ensures !r.OtherError?
    {
      FindById(plugins, id)
    }

    /** SetPlugins: truncate, then insert the batch; a batch that repeats an id
        is refused and leaves the table empty. */
    method SetPlugins(ps: seq<Plugin>) returns (err: Option<DbError>)
      requires Valid()
      modifies this
      ensures Valid() && relations == old(relations)
      ensures err.None? <==> UniqueIds(ps)
      ensures err.None? ==> plugins == ps
      ensures err.Some? ==> err.value == DuplicateKey && plugins == []
    {
      plugins := [];
      if !UniqueIds(ps) {
        return Some(DuplicateKey);
      }
      plugins := ps;
      return None;
    }

    /** SetPluginsRelations: the same for the relation table. */
    method SetPluginsRelations(rs: seq<PluginRelation>) returns (err: Option<DbError>)
      requires Valid()
      modifies this
      ensures Valid() && plugins == old(plugins)
      ensures err.None? <==> UniqueRelationIds(rs)
      ensures err.None? ==> relations == rs
      ensures err.Some? ==> err.value == DuplicateKey && relations == []
    {
      relations := [];
      if !UniqueRelationIds(rs) {
        return Some(DuplicateKey);
      }
      relations := rs;
      return None;
    }

    /** InsertPlugins: append the batch after every existing row, or add nothing on a key clash. */
    method InsertPlugins(ps: seq<Plugin>) returns (err: Option<DbError>)
      requires Valid()
      modifies this
      ensures Valid() && relations == old(relations)
      ensures err.None? <==> UniqueIds(old(plugins) + ps)
      ensures err.None? ==> plugins == old(plugins) + ps
      ensures err.Some? ==> err.value == DuplicateKey && plugins == old(plugins)
    {
      if !UniqueIds(plugins + ps) {
        return Some(DuplicateKey);
      }
      plugins := plugins + ps;
      return None;
    }

    /** InsertPluginsRelations: the same for the relation table. */
    method InsertPluginsRelations(rs: seq<PluginRelation>) returns (err: Option<DbError>)
      requires Valid()
      modifies this
      ensures Valid() && plugins == old(plugins)
      ensures err.None? <==> UniqueRelationIds(old(relations) + rs)
      ensures err.None? ==> relations == old(relations) + rs
      ensures err.Some? ==> err.value == DuplicateKey && relations == old(relations)
    {
      if !UniqueRelationIds(relations + rs) {
        return Some(DuplicateKey);
      }
      relations := relations + rs;
      return None;
    }

    /** SetPluginInstalledStatus: read the row, change its installed flag and
        write every column back; an absent id is RecordNotFound and changes nothing. */
    method SetPluginInstalledStatus(id: string, installed: bool) returns (err: Option<DbError>)
      requires Valid()
      modifies this
      ensures Valid() && relations == old(relations)
      ensures err.None? <==> id in PluginIds(old(plugins))
      ensures err.Some? ==> err.value == RecordNotFound && plugins == old(plugins)
      ensures err.None? ==> plugins == WithInstalled(old(plugins), id, installed)
    {
      var existing := GetPluginById(id);
      if !existing.Found? {
        return Some(LookupError(existing));
      }
      var updated := existing.value.(installed := installed);
      WithInstalledKeepsKeys(plugins, id, installed);
      plugins := WithInstalled(plugins, updated.id, installed);
      return None;
    }
  }
}
