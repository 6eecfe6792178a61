/** The world ties the entity allocator to one column per component type, and answers queries. */
module World {
  import opened Wrappers
  import opened Entity
  import opened SparseColumn

  /** The erased component type. */
  type TypeId = nat

  /** `retain`: the members of `keep`, in their order. */
  function Retain(entities: seq<Entity>, keep: set<Entity>): seq<Entity> {
    if entities == [] then []
    else
      Retain(entities[..|entities| - 1], keep) +
      (if entities[|entities| - 1] in keep then [entities[|entities| - 1]] else [])
  }

  ghost predicate NoDuplicates(entities: seq<Entity>) {
    forall j, k :: 0 <= j < k < |entities| ==> entities[j] != entities[k]
  }

  lemma {:induction false} RetainMembers(entities: seq<Entity>, keep: set<Entity>)
    ensures forall e :: e in Retain(entities, keep) <==> e in entities && e in keep
    ensures NoDuplicates(entities) ==> NoDuplicates(Retain(entities, keep))
  {
    if entities != [] {
      var init, last := entities[..|entities| - 1], entities[|entities| - 1];
      RetainMembers(init, keep);
      assert entities == init + [last];
      if NoDuplicates(entities) {
        assert NoDuplicates(init) && last !in init;
      }
    }
  }

  /** Columns of live entities only are exact without stale generations. */
  lemma NoStaleGeneration<V>(column: Column<V>, allocator: EntityAllocator, entity: Entity)
    requires allocator.IsAlive(entity)
    requires forall e :: e in column.entities ==> allocator.IsAlive(e)
    ensures !column.StaleAt(entity)
  {
    forall d | 0 <= d < |column.entities| && column.entities[d].index == entity.index
      ensures column.entities[d] == entity
    {
      assert column.entities[d] in column.entities;
    }
  }

  class World<V> {
    const allocator: EntityAllocator
    var columns: map<TypeId, SparseColumn<V>>

    function Columns(): set<object>
      reads this
    {
      set t | t in columns :: columns[t]
    }

    ghost predicate Valid()
      reads this, allocator, Columns()
    {
      && allocator.Valid()
      && (forall t :: t in columns ==> columns[t].State().Exact())
      && (forall t, e :: t in columns && e in columns[t].entities ==> allocator.IsAlive(e))
      && (forall t, u :: t in columns && u in columns && t != u ==> columns[t] != columns[u])
    }

    /** The abstract content of the world: the component of each type that each entity has. */
    function Component(e: Entity, t: TypeId): Option<V>
      requires Valid()
      reads this, allocator, Columns()
    {
      if t in columns then columns[t].State().Get(e) else None
    }

    predicate IsAlive(e: Entity)
      reads this, allocator
    {
      allocator.IsAlive(e)
    }

    lemma OnlyLiveHaveComponents(e: Entity, t: TypeId)
      requires Valid()
      ensures Component(e, t).Some? ==> IsAlive(e)
    {
      if t in columns {
        StoredOnce(columns[t].State());
      }
    }

    /** `get_component` */
    function GetComponent(e: Entity, t: TypeId): (r: Option<V>)
      requires Valid()
      reads this, allocator, Columns()
      ensures r == Component(e, t)
    {
      OnlyLiveHaveComponents(e, t);
      if IsAlive(e) then Component(e, t) else None
    }

    constructor ()
      ensures Valid() && fresh(allocator) && columns == map[]
      ensures (forall e :: !IsAlive(e)) && forall e, t :: Component(e, t) == None
    {
      allocator := new EntityAllocator();
      columns := map[];
    }

    /** Spawn a handle that was never issued before. */
    method Spawn() returns (r: Option<Entity>)
      requires Valid()
      modifies allocator
      ensures Valid()
      ensures r.None? <==> old(allocator.freeIndices) == [] && |old(allocator.slots)| == U32_COUNT
      ensures r.Some? ==> r.value !in old(allocator.issued) && allocator.issued == old(allocator.issued) + {r.value}
      ensures r.Some? ==> forall t :: Component(r.value, t) == None
      ensures forall e :: IsAlive(e) <==> old(IsAlive(e)) || r == Some(e)
      ensures forall e, t :: Component(e, t) == old(Component(e, t))
    {
      hide Column<V>.Exact;
      hide Column<V>.Get;
      forall e, t | e !in allocator.issued ensures Component(e, t) == None {
        OnlyLiveHaveComponents(e, t);
      }
      r := allocator.Allocate();
      assert forall t :: t in columns ==> columns[t].State() == old(columns[t].State());
      assert forall e, t :: Component(e, t) == old(Component(e, t));
      if r.Some? {
        forall t ensures Component(r.value, t) == None {
          assert Component(r.value, t) == old(Component(r.value, t));
        }
      }
    }

    /** The column of a type, created on first use. */
    method ColumnFor(t: TypeId) returns (column: SparseColumn<V>)
      requires Valid()
      modifies this
      ensures Valid() && t in columns && columns[t] == column
      ensures columns == old(columns)[t := column]
      ensures if t in old(columns) then column == old(columns)[t]
              else fresh(column) && column.State() == Column([], [], [])
      ensures forall e, u :: Component(e, u) == old(Component(e, u))
    {
      if t in columns {
        return columns[t];
      }
      column := new SparseColumn<V>();
      columns := columns[t := column];
    }

    method InsertComponent(e: Entity, t: TypeId, component: V) returns (ok: bool)
      requires Valid()
      modifies this, Columns()
      ensures Valid() && fresh(Columns() - old(Columns()))
      ensures ok == old(IsAlive(e))
      ensures forall x :: IsAlive(x) == old(IsAlive(x))
      ensures forall x, u :: Component(x, u) == if ok && x == e && u == t then Some(component) else old(Component(x, u))
    {
      hide Column<V>.Exact;
      hide Column<V>.Get;
      if !allocator.IsAlive(e) {
        return false;
      }
      var column := ColumnFor(t);
      InsertInto(column, t, e, component);
      return true;
    }

    method InsertInto(column: SparseColumn<V>, t: TypeId, e: Entity, component: V)
      requires Valid() && t in columns && columns[t] == column && IsAlive(e)
      modifies column
      ensures Valid()
      ensures forall x, u :: Component(x, u) == if x == e && u == t then Some(component) else old(Component(x, u))
    {
      ghost var before := column.State();
      NoStaleGeneration(before, allocator, e);
      InsertedExact(before, e, component);
      InsertedGets(before, e, component);
      StoredOnce(before);
      column.Insert(e, component);
      StoredOnce(column.State());
    }

    method RemoveComponent(e: Entity, t: TypeId) returns (r: Option<V>)
      requires Valid()
      modifies Columns()
      ensures Valid()
      ensures r == old(Component(e, t))
      ensures forall x :: IsAlive(x) == old(IsAlive(x))
      ensures forall x, u :: Component(x, u) == if x == e && u == t then None else old(Component(x, u))
    {
      hide Column<V>.Exact;
      hide Column<V>.Get;
      OnlyLiveHaveComponents(e, t);
      if !allocator.IsAlive(e) || t !in columns {
        return None;
      }
      r := RemoveFrom(columns[t], t, e);
    }

    method RemoveFrom(column: SparseColumn<V>, t: TypeId, e: Entity) returns (r: Option<V>)
      requires Valid() && t in columns && columns[t] == column
      modifies column
      ensures Valid()
      ensures r == old(Component(e, t))
      ensures forall x, u :: Component(x, u) == if x == e && u == t then None else old(Component(x, u))
    {
      ghost var before := column.State();
      RemovedExact(before, e);
      forall x ensures before.Removed(e).Get(x) == if x == e then None else before.Get(x) {
        RemovedGets(before, e, x);
      }
      StoredOnce(before);
      StoredOnce(before.Removed(e));
      hide Column<V>.Exact;
      hide Column<V>.Removed;
      r := column.Remove(e);
    }

    /** Remove every component of a live entity, then its handle. */
    method Despawn(e: Entity) returns (ok: bool)
      requires Valid()
      modifies allocator, Columns()
      ensures Valid()
      ensures ok == old(IsAlive(e)) && allocator.issued == old(allocator.issued)
      ensures forall x :: IsAlive(x) <==> old(IsAlive(x)) && x != e
      ensures forall x, u :: Component(x, u) == if x == e then None else old(Component(x, u))
    {
      hide Column<V>.Exact;
      hide Column<V>.Get;
      if !allocator.IsAlive(e) {
        forall u ensures Component(e, u) == None {
          OnlyLiveHaveComponents(e, u);
        }
        return false;
      }
      RemoveAll(e);
      InNoColumn(e);
      label Removed:
      ok := allocator.Release(e);
      assert forall t :: t in columns ==> columns[t].State() == old@Removed(columns[t].State());
      assert forall x, u :: Component(x, u) == old@Removed(Component(x, u));
    }

    lemma InNoColumn(e: Entity)
      requires Valid() && forall u :: Component(e, u) == None
      ensures forall u :: u in columns ==> e !in columns[u].entities
    {
      forall u | u in columns ensures e !in columns[u].entities {
        StoredOnce(columns[u].State());
        assert Component(e, u) == None;
      }
    }

    /** `remove_entity`: take the entity out of every column. */
    method RemoveAll(e: Entity)
      requires Valid() && IsAlive(e)
      modifies Columns()
      ensures Valid()
      ensures forall x, u :: Component(x, u) == if x == e then None else old(Component(x, u))
    {
      hide Column<V>.Exact;
      hide Column<V>.Get;
      var todo := columns.Keys;
      while todo != {}
        invariant todo <= columns.Keys
        invariant Valid()
        invariant forall x, u :: Component(x, u) == if x == e && u !in todo then None else old(Component(x, u))
        decreases todo
      {
        var t :| t in todo;
        var _ := RemoveComponent(e, t);
        todo := todo - {t};
      }
    }

    /** The entities with a component of type `t`. */
    function Holders(t: TypeId): set<Entity>
      requires Valid()
      reads this, allocator, Columns()
    {
      if t in columns then set e | e in columns[t].entities else {}
    }

    lemma HoldersHold(t: TypeId)
      requires Valid()
      ensures forall e :: e in Holders(t) <==> Component(e, t).Some?
      ensures forall e :: e in Holders(t) ==> IsAlive(e)
      ensures t in columns ==> NoDuplicates(columns[t].entities)
    {
      if t in columns {
        StoredOnce(columns[t].State());
      }
    }

    /** The entities with a component of type `t`, each once. */
    method QueryWith(t: TypeId) returns (q: QueryResult<V>)
      requires Valid()
      ensures fresh(q) && q.world == this && NoDuplicates(q.entities)
      ensures forall e :: e in q.entities <==> Component(e, t).Some?
      ensures forall e :: e in q.entities ==> IsAlive(e)
    {
      HoldersHold(t);
      q := new QueryResult(this, if t in columns then columns[t].entities else []);
    }

    /** The live entities without a component of type `t`, each once. */
    method QueryWithout(t: TypeId) returns (q: QueryResult<V>)
      requires Valid()
      ensures fresh(q) && q.world == this && NoDuplicates(q.entities)
      ensures forall e :: e in q.entities <==> IsAlive(e) && Component(e, t).None?
    {
      var alive := allocator.IterAlive();
      q := new QueryResult(this, alive);
      HoldersHold(t);
      q.Without(t);
    }
  }

  class QueryResult<V> {
    const world: World<V>
    var entities: seq<Entity>

    constructor (world: World<V>, entities: seq<Entity>)
      ensures this.world == world && this.entities == entities
    {
      this.world, this.entities := world, entities;
    }

    method With(t: TypeId)
      requires world.Valid()
      modifies this
      ensures entities == Retain(old(entities), world.Holders(t))
      ensures forall e :: e in entities <==> e in old(entities) && world.Component(e, t).Some?
      ensures NoDuplicates(old(entities)) ==> NoDuplicates(entities)
    {
      hide Column<V>.Exact;
      hide Column<V>.Get;
      hide NoDuplicates;
      ghost var before := entities;
      var kept := [];
      for i := 0 to |entities|
        invariant entities == before && kept == Retain(entities[..i], world.Holders(t))
      {
        assert entities[..i + 1][..i] == entities[..i];
        world.HoldersHold(t);
        if world.GetComponent(entities[i], t).Some? {
          kept := kept + [entities[i]];
        }
      }
      assert entities[..|entities|] == entities;
      world.HoldersHold(t);
      RetainMembers(entities, world.Holders(t));
      assert forall e :: e in kept <==> e in before && world.Component(e, t).Some?;
      entities := kept;
    }

    method Without(t: TypeId)
      requires world.Valid()
      modifies this
      ensures entities == Retain(old(entities), (set e | e in old(entities)) - world.Holders(t))
      ensures forall e :: e in entities <==> e in old(entities) && world.Component(e, t).None?
      ensures NoDuplicates(old(entities)) ==> NoDuplicates(entities)
    {
      hide Column<V>.Exact;
      hide Column<V>.Get;
      hide NoDuplicates;
      ghost var before := entities;
      ghost var others := (set e | e in entities) - world.Holders(t);
      var kept := [];
      for i := 0 to |entities|
        invariant entities == before && kept == Retain(entities[..i], others)
      {
        assert entities[..i + 1][..i] == entities[..i];
        world.HoldersHold(t);
        if world.GetComponent(entities[i], t).None? {
          kept := kept + [entities[i]];
        }
      }
      assert entities[..|entities|] == entities;
      world.HoldersHold(t);
      RetainMembers(entities, others);
      assert forall e :: e in kept <==> e in before && world.Component(e, t).None?;
      entities := kept;
    }
  }
}
