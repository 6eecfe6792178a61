/** Generational entity handles and their allocator. */
module Entity {
  import opened Wrappers

  const U32_COUNT: nat := 0x1_0000_0000

  newtype u32 = x: int | 0 <= x < 0x1_0000_0000
  newtype u64 = x: int | 0 <= x < 0x1_0000_0000_0000_0000

  /** A handle: the two halves of the packed 64-bit value. */
  datatype Entity = Entity(index: u32, generation: u32) {
    function Pack(): u64 {
      (generation as int * 0x1_0000_0000 + index as int) as u64
    }

    static function Unpack(bits: u64): Entity {
      Entity((bits as int % 0x1_0000_0000) as u32, (bits as int / 0x1_0000_0000) as u32)
    }
  }

  /** Packing is a bijection between handles and 64-bit values. */
  lemma PackRoundTrip(entity: Entity, bits: u64)
    ensures Entity.Unpack(entity.Pack()) == entity
    ensures Entity.Unpack(bits).Pack() == bits
  {
    var i, g := entity.index as int, entity.generation as int;
    assert (g * 0x1_0000_0000 + i) / 0x1_0000_0000 == g;
  }

  /** The index is the low half and the generation the high half, so handles order by generation first. */
  lemma PackLayout(entity: Entity, other: Entity)
    ensures entity.Pack() as int % 0x1_0000_0000 == entity.index as int
    ensures entity.Pack() as int / 0x1_0000_0000 == entity.generation as int
    ensures entity.Pack() < other.Pack() <==>
              entity.generation < other.generation ||
              (entity.generation == other.generation && entity.index < other.index)
  {
    var i, g := entity.index as int, entity.generation as int;
    assert (g * 0x1_0000_0000 + i) / 0x1_0000_0000 == g;
  }

  datatype EntitySlot = EntitySlot(generation: u32, alive: bool)

  function AliveIn(slots: seq<EntitySlot>): nat {
    if slots == [] then 0
    else AliveIn(slots[..|slots| - 1]) + (if slots[|slots| - 1].alive then 1 else 0)
  }

  lemma {:induction false} AliveInUpdate(slots: seq<EntitySlot>, i: nat, slot: EntitySlot)
    requires i < |slots|
    ensures AliveIn(slots[i := slot]) + (if slots[i].alive then 1 else 0) ==
            AliveIn(slots) + (if slot.alive then 1 else 0)
  {
    var last := |slots| - 1;
    if i == last {
      assert slots[i := slot][..last] == slots[..last];
    } else {
      assert slots[i := slot][..last] == slots[..last][i := slot];
      AliveInUpdate(slots[..last], i, slot);
    }
  }

  class EntityAllocator {
    var slots: seq<EntitySlot>
    var freeIndices: seq<u32>
    var aliveCount: nat
    /** Every handle issued so far. */
    ghost var issued: set<Entity>

    ghost predicate Valid()
      reads this
    {
      && |slots| <= U32_COUNT
      && (forall k :: 0 <= k < |freeIndices| ==> freeIndices[k] as int < |slots| && !slots[freeIndices[k]].alive)
      && (forall j, k :: 0 <= j < k < |freeIndices| ==> freeIndices[j] != freeIndices[k])
      && aliveCount == AliveIn(slots)
      && (forall e :: e in issued ==> e.index as int < |slots| && Spent(e))
      && (forall e :: IsAlive(e) ==> e in issued)
    }

    /** The slot of an issued handle has moved past it, or still belongs to it, or is retired. */
    ghost predicate Spent(e: Entity)
      requires e.index as int < |slots|
      reads this
    {
      var slot := slots[e.index];
      e.generation < slot.generation || (e.generation == slot.generation && (slot.alive || e.index !in freeIndices))
    }

    predicate IsAlive(e: Entity)
      reads this
    {
      e.index as int < |slots| && slots[e.index].alive && slots[e.index].generation == e.generation
    }

    constructor ()
      ensures Valid() && issued == {} && forall e :: !IsAlive(e)
      ensures aliveCount == 0
    {
      slots, freeIndices, aliveCount, issued := [], [], 0, {};
    }

    /** A handle never issued before, or `None` where the original panics: all indices are in use or retired. */
    method Allocate() returns (r: Option<Entity>)
      requires Valid()
      modifies this
      ensures Valid()
      ensures r.None? <==> old(freeIndices) == [] && |old(slots)| == U32_COUNT
      ensures r.None? ==> issued == old(issued) && aliveCount == old(aliveCount)
      ensures r.None? ==> forall e :: IsAlive(e) == old(IsAlive(e))
      ensures r.Some? ==> r.value !in old(issued) && issued == old(issued) + {r.value}
      ensures r.Some? ==> (forall e :: IsAlive(e) <==> old(IsAlive(e)) || e == r.value)
      ensures r.Some? ==> aliveCount == old(aliveCount) + 1
      ensures r.Some? && old(freeIndices) != [] ==>
                old(freeIndices) == freeIndices + [r.value.index]
      ensures r.Some? && old(freeIndices) == [] ==>
                freeIndices == [] && r.value.index as int == old(|slots|) && r.value.generation == 0
    {
      var index: u32;
      if freeIndices != [] {
        index := freeIndices[|freeIndices| - 1];
        freeIndices := freeIndices[..|freeIndices| - 1];
        AliveInUpdate(slots, index as int, slots[index].(alive := true));
        slots := slots[index as int := slots[index].(alive := true)];
      } else {
        if |slots| == U32_COUNT {
          return None;
        }
        index := |slots| as u32;
        ghost var before := slots;
        slots := slots + [EntitySlot(0, true)];
        assert slots[..|slots| - 1] == before;
      }
      aliveCount := aliveCount + 1;
      var entity := Entity(index, slots[index].generation);
      issued := issued + {entity};
      return Some(entity);
    }

    /** Exactly the live handles can be released; the index is reused with the next generation, if any. */
    method Release(entity: Entity) returns (ok: bool)
      requires Valid()
      modifies this
      ensures Valid() && issued == old(issued)
      ensures ok == old(IsAlive(entity))
      ensures forall e :: IsAlive(e) <==> old(IsAlive(e)) && e != entity
      ensures aliveCount == old(aliveCount) - (if ok then 1 else 0)
      ensures !ok || entity.generation as int == U32_COUNT - 1 ==> freeIndices == old(freeIndices)
      ensures ok && entity.generation as int < U32_COUNT - 1 ==> freeIndices == old(freeIndices) + [entity.index]
    {
      if !IsAlive(entity) {
        return false;
      }
      var slot := slots[entity.index].(alive := false);
      if slot.generation as int + 1 < U32_COUNT {
        slot := slot.(generation := slot.generation + 1);
        freeIndices := freeIndices + [entity.index];
      }
      AliveInUpdate(slots, entity.index as int, slot);
      aliveCount := aliveCount - 1;
      slots := slots[entity.index as int := slot];
      hide AliveIn;
      assert forall e :: e in issued ==> Spent(e);
      return true;
    }

    /** The live handles, each once, by increasing index. */
    method IterAlive() returns (entities: seq<Entity>)
      requires Valid()
      ensures forall e :: e in entities <==> IsAlive(e)
      ensures forall j, k :: 0 <= j < k < |entities| ==> entities[j].index < entities[k].index
      ensures |entities| == aliveCount
    {
      entities := [];
      for i := 0 to |slots|
        invariant forall k :: 0 <= k < |entities| ==> IsAlive(entities[k]) && entities[k].index as int < i
        invariant forall e :: IsAlive(e) && e.index as int < i ==> e in entities
        invariant forall j, k :: 0 <= j < k < |entities| ==> entities[j].index < entities[k].index
        invariant |entities| == AliveIn(slots[..i])
      {
        assert slots[..i + 1][..i] == slots[..i];
        if slots[i].alive {
          entities := entities + [Entity(i as u32, slots[i].generation)];
        }
      }
      assert slots[..|slots|] == slots;
    }
  }
}
