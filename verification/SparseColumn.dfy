/** Sparse-set component storage for one component type. */
module SparseColumn {
  import opened Wrappers
  import opened Entity

  /** The three arrays of a column. */
  datatype Column<V> = Column(sparse: seq<Option<nat>>, entities: seq<Entity>, components: seq<V>) {
    /** Every sparse entry points at a dense entry with its index: no operation indexes out of bounds. */
    ghost predicate Safe() {
      && |entities| == |components|
      && (forall i :: 0 <= i < |sparse| && sparse[i].Some? ==>
            sparse[i].value < |entities| && entities[sparse[i].value].index as int == i)
      && (forall d :: 0 <= d < |entities| ==> entities[d].index as int < |sparse|)
    }

    /** The sparse and dense arrays are mutually inverse. */
    ghost predicate Exact() {
      Safe() && forall d :: 0 <= d < |entities| ==> sparse[entities[d].index] == Some(d)
    }

    function DenseIndex(entity: Entity): (r: Option<nat>)
      requires Safe()
      ensures r.Some? ==> r.value < |entities| && entities[r.value] == entity && sparse[entity.index] == r
    {
      if entity.index as int < |sparse| && sparse[entity.index].Some? &&
         entities[sparse[entity.index].value].generation == entity.generation
      then sparse[entity.index] else None
    }

    function Get(entity: Entity): Option<V>
      requires Safe()
    {
      match DenseIndex(entity)
      case None => None
      case Some(dense) => Some(components[dense])
    }

    /** An entity stored with the same index and another generation. */
    ghost predicate StaleAt(entity: Entity) {
      exists d :: 0 <= d < |entities| && entities[d].index == entity.index && entities[d] != entity
    }

    function Inserted(entity: Entity, component: V): Column<V>
      requires Safe()
    {
      match DenseIndex(entity)
      case Some(dense) => this.(components := components[dense := component])
      case None =>
        var index := entity.index as int;
        var grown := if index < |sparse| then sparse else sparse + seq(index + 1 - |sparse|, _ => None);
        Column(grown[index := Some(|entities|)], entities + [entity], components + [component])
    }

    function Removed(entity: Entity): Column<V>
      requires Safe()
    {
      match DenseIndex(entity)
      case None => this
      case Some(dense) =>
        var last := |entities| - 1;
        var cleared := sparse[entity.index as int := None];
        Column(if dense < last then cleared[entities[last].index as int := Some(dense)] else cleared,
               entities[dense := entities[last]][..last],
               components[dense := components[last]][..last])
    }
  }

  /** In an exact column an entity has a component exactly when it is stored, and it is stored once. */
  lemma StoredOnce<V>(column: Column<V>)
    requires column.Exact()
    ensures forall e :: e in column.entities <==> column.Get(e).Some?
    ensures forall j, k :: 0 <= j < k < |column.entities| ==> column.entities[j] != column.entities[k]
  {
    forall e | e in column.entities ensures column.Get(e).Some? {
      var d :| 0 <= d < |column.entities| && column.entities[d] == e;
      assert column.sparse[e.index] == Some(d);
    }
    forall j, k | 0 <= j < k < |column.entities| ensures column.entities[j] != column.entities[k] {
      assert column.sparse[column.entities[j].index] == Some(j);
    }
  }

  /** Insertion stores the component; a stale generation at the index loses its own. */
  lemma InsertedGets<V>(column: Column<V>, entity: Entity, component: V)
    requires column.Safe()
    ensures var next := column.Inserted(entity, component);
            && next.Safe()
            && next.Get(entity) == Some(component)
            && forall e: Entity :: e != entity ==>
                 next.Get(e) == if e.index == entity.index then None else column.Get(e)
  {
  }

  /** Insertion keeps the arrays mutually inverse exactly when no stale generation occupies the index. */
  lemma InsertedExact<V>(column: Column<V>, entity: Entity, component: V)
    requires column.Exact()
    ensures column.Inserted(entity, component).Safe()
    ensures column.Inserted(entity, component).Exact() <==> !column.StaleAt(entity)
  {
    var next := column.Inserted(entity, component);
    InsertedGets(column, entity, component);
    if column.DenseIndex(entity).None? {
      if column.StaleAt(entity) {
        var d :| 0 <= d < |column.entities| && column.entities[d].index == entity.index && column.entities[d] != entity;
        assert next.entities[d].index == entity.index && next.sparse[next.entities[d].index] != Some(d);
      } else {
        forall d | 0 <= d < |column.entities| ensures next.sparse[next.entities[d].index] == Some(d) {
          assert column.sparse[column.entities[d].index] == Some(d);
        }
      }
    }
  }

  /** Removal never indexes out of bounds, even in a column that is not exact. */
  lemma RemovedSafe<V>(column: Column<V>, entity: Entity)
    requires column.Safe()
    ensures column.Removed(entity).Safe()
  {
    if column.DenseIndex(entity).Some? {
      var next := column.Removed(entity);
      var dense, last := column.DenseIndex(entity).value, |column.entities| - 1;
      forall d | 0 <= d < last ensures next.entities[d] == column.entities[if d == dense then last else d] {
      }
    }
  }

  /** Removal from an exact column keeps it exact and changes no other entity's component. */
  lemma RemovedExact<V>(column: Column<V>, entity: Entity)
    requires column.Exact()
    ensures column.Removed(entity).Exact()
  {
    RemovedSafe(column, entity);
    if column.DenseIndex(entity).Some? {
      var next := column.Removed(entity);
      var dense, last := column.DenseIndex(entity).value, |column.entities| - 1;
      forall d | 0 <= d < last ensures next.sparse[next.entities[d].index] == Some(d) {
        var from := if d == dense then last else d;
        assert next.entities[d] == column.entities[from] && column.sparse[column.entities[from].index] == Some(from);
      }
    }
  }

  lemma RemovedGets<V>(column: Column<V>, entity: Entity, e: Entity)
    requires column.Exact()
    ensures column.Removed(entity).Safe()
    ensures column.Removed(entity).Get(e) == if e == entity then None else column.Get(e)
  {
    RemovedExact(column, entity);
    var next := column.Removed(entity);
    if column.DenseIndex(entity).Some? {
      var dense, last := column.DenseIndex(entity).value, |column.entities| - 1;
      if e == entity {
        assert next.sparse[entity.index].None?;
      } else if column.DenseIndex(e).Some? {
        var d := column.DenseIndex(e).value;
        var to := if d == last then dense else d;
        assert next.entities[to] == e && next.components[to] == column.components[d];
        assert next.sparse[e.index] == Some(to);
      }
    }
  }

  class SparseColumn<V> {
    var sparse: seq<Option<nat>>
    var entities: seq<Entity>
    var components: seq<V>

    function State(): Column<V>
      reads this
    {
      Column(sparse, entities, components)
    }

    constructor ()
      ensures State() == Column([], [], [])
    {
      sparse, entities, components := [], [], [];
    }

    method Insert(entity: Entity, component: V)
      requires State().Safe()
      modifies this
      ensures State() == old(State()).Inserted(entity, component)
    {
      var found := State().DenseIndex(entity);
      if found.Some? {
        components := components[found.value := component];
        return;
      }
      var index := entity.index as int;
      if index >= |sparse| {
        sparse := sparse + seq(index + 1 - |sparse|, _ => None);
      }
      sparse := sparse[index := Some(|entities|)];
      entities := entities + [entity];
      components := components + [component];
    }

    /** Take a component out; the last dense entry moves into its place. */
    method Remove(entity: Entity) returns (r: Option<V>)
      requires State().Safe()
      modifies this
      ensures r == old(State()).Get(entity)
      ensures State() == old(State()).Removed(entity)
    {
      var found := State().DenseIndex(entity);
      if found.None? {
        return None;
      }
      var dense, last := found.value, |entities| - 1;
      r := Some(components[dense]);
      sparse := sparse[entity.index as int := None];
      entities := entities[dense := entities[last]][..last];
      components := components[dense := components[last]][..last];
      if dense < |entities| {
        sparse := sparse[entities[dense].index as int := Some(dense)];
      }
    }
  }
}
