/** src/engine/scene/scene.c: the entity arrays, adding entities and
    renderables, and the pass that turns renderables into render objects. */
module Scene {
  import opened Wrappers
  import opened RendererTypes

  const ECS_CAPACITY: nat := 50

  /** The all-zero matrix calloc leaves in an unused component. */
  const ZERO_TRANSFORM: Transform := Matrix(0)

  /** struct RenderComponent; a NULL mesh pointer is None. */
  datatype RenderComponent = RenderComponent(mesh: Option<Mesh>, transformation: Transform)

  const EMPTY_COMPONENT: RenderComponent := RenderComponent(None, ZERO_TRANSFORM)

  /** The render object for one surface of a component's mesh: the
      component's transformation moved by (0, 1, 1), the default material,
      the mesh's vertex address and index buffer, and the surface's index
      range. */
  function ObjectFor(transformation: Transform, mesh: Mesh, surface: GeoSurface): (r: RenderObject)
    ensures r.material == DefaultMaterialInstance
    ensures r.transform == Translated(transformation, 0, 1, 1)
    ensures r.indexCount == surface.count && r.firstIndex == surface.startIndex
    ensures r.vertexBufferAddress == mesh.meshBuffers.vertexBufferAddress
    ensures r.indexBuffer == mesh.meshBuffers.indexBuffer.buffer
  {
    RenderObject(Translated(transformation, 0, 1, 1), DefaultMaterialInstance,
                 mesh.meshBuffers.vertexBufferAddress, mesh.meshBuffers.indexBuffer.buffer,
                 surface.count, surface.startIndex)
  }

  /** What one visit of the inner surface loop leaves in the slot: every
      surface overwrites the same slot, so the last surface wins, and a
      mesh without surfaces leaves the slot as it was. */
  function SlotAfterSurfaces(transformation: Transform, mesh: Mesh, previous: RenderObject): RenderObject {
    if |mesh.surfaces| == 0 then previous
    else ObjectFor(transformation, mesh, mesh.surfaces[|mesh.surfaces| - 1])
  }

  /** The number of components with a mesh. */
  function MeshCount(comps: seq<RenderComponent>): (r: nat)
    ensures r <= |comps|
  {
    if |comps| == 0 then 0
    else MeshCount(comps[..|comps| - 1]) + (if comps[|comps| - 1].mesh.Some? then 1 else 0)
  }

  /** ecs_renderable_collect as written, over the first `|comps|`
      components and the caller's output array: for the k-th component
      with a mesh it reads component k (the loop's counter), not the
      component it tested, and None is the NULL dereference when component
      k has no mesh. The result is the final counter and output. */
  function CollectAsWritten(comps: seq<RenderComponent>, out: seq<RenderObject>): (r: Option<(nat, seq<RenderObject>)>)
    requires |comps| <= |out|
    ensures r.Some? ==> r.value.0 == MeshCount(comps) && |r.value.1| == |out|
  {
    if |comps| == 0 then Some((0, out))
    else match CollectAsWritten(comps[..|comps| - 1], out)
      case None => None
      case Some((counter, o)) =>
        var c := comps[|comps| - 1];
        if c.mesh.None? then Some((counter, o))
        else if comps[counter].mesh.None? then None
        else Some((counter + 1, o[counter := SlotAfterSurfaces(comps[counter].transformation, comps[counter].mesh.value,
                                                                o[counter])]))
  }

  /** The collect pass as evidently intended: the k-th component with a
      mesh fills slot k from that same component. */
  function CollectIntended(comps: seq<RenderComponent>, out: seq<RenderObject>): (r: (nat, seq<RenderObject>))
    requires |comps| <= |out|
    ensures r.0 == MeshCount(comps) && |r.1| == |out|
  {
    if |comps| == 0 then (0, out)
    else
      var (counter, o) := CollectIntended(comps[..|comps| - 1], out);
      var c := comps[|comps| - 1];
      if c.mesh.None? then (counter, o)
      else (counter + 1, o[counter := SlotAfterSurfaces(c.transformation, c.mesh.value, o[counter])])
  }

  /** A collect that has failed stays failed as more components are
      visited. */
  lemma {:induction false} AsWrittenFailureStays(comps: seq<RenderComponent>, out: seq<RenderObject>, i: nat)
    requires i <= |comps| <= |out|
    requires CollectAsWritten(comps[..i], out).None?
    ensures CollectAsWritten(comps, out).None?
    decreases |comps| - i
  {
    if i < |comps| {
      assert comps[..i + 1][..i] == comps[..i];
      AsWrittenFailureStays(comps, out, i + 1);
    } else {
      assert comps[..i] == comps;
    }
  }

  /** When every component has a mesh (as when entities are added only
      through ecs_add_renderable), the counter always equals the loop
      index, so the collect as written never fails and agrees with the
      intended one. */
  lemma {:induction false} AsWrittenAgreesWhenAllRenderable(comps: seq<RenderComponent>, out: seq<RenderObject>)
    requires |comps| <= |out|
    requires forall i :: 0 <= i < |comps| ==> comps[i].mesh.Some?
    ensures CollectAsWritten(comps, out) == Some(CollectIntended(comps, out))
    ensures CollectIntended(comps, out).0 == |comps|
  {
    if |comps| > 0 {
      var prefix := comps[..|comps| - 1];
      AsWrittenAgreesWhenAllRenderable(prefix, out);
    }
  }

  /** The intended collect puts each component's object in its own slot:
      a component with a non-empty mesh, at position i, lands in slot
      MeshCount(comps[..i]) as the object for its mesh's last surface. */
  lemma {:induction false} IntendedSlotsHoldOwnObjects(comps: seq<RenderComponent>, out: seq<RenderObject>, i: nat)
    requires |comps| <= |out| && i < |comps|
    requires comps[i].mesh.Some? && |comps[i].mesh.value.surfaces| > 0
    ensures var m := comps[i].mesh.value;
      CollectIntended(comps, out).1[MeshCount(comps[..i])] ==
        ObjectFor(comps[i].transformation, m, m.surfaces[|m.surfaces| - 1])
    decreases |comps|
  {
    var prefix := comps[..|comps| - 1];
    if i == |comps| - 1 {
      assert comps[..i] == prefix;
    } else {
      assert prefix[..i] == comps[..i];
      MeshCountPassesMesh(prefix, i);
      IntendedSlotsHoldOwnObjects(prefix, out, i);
      IntendedLeavesEarlierSlots(prefix, out, comps[|comps| - 1], MeshCount(comps[..i]));
      assert prefix + [comps[|comps| - 1]] == comps;
    }
  }

  /** A component with a mesh is counted: fewer meshes come before it
      than up to and including it. */
  lemma {:induction false} MeshCountPassesMesh(comps: seq<RenderComponent>, i: nat)
    requires i < |comps| && comps[i].mesh.Some?
    ensures MeshCount(comps[..i]) < MeshCount(comps)
    decreases |comps|
  {
    var prefix := comps[..|comps| - 1];
    if i < |comps| - 1 {
      assert prefix[..i] == comps[..i];
      MeshCountPassesMesh(prefix, i);
    } else {
      assert comps[..i] == prefix;
    }
  }

  /** Visiting one more component writes only the slot at the current
      counter. */
  lemma IntendedLeavesEarlierSlots(prefix: seq<RenderComponent>, out: seq<RenderObject>, c: RenderComponent, k: nat)
    requires |prefix| + 1 <= |out| && k < MeshCount(prefix)
    ensures CollectIntended(prefix + [c], out).1[k] == CollectIntended(prefix, out).1[k]
  {
    assert (prefix + [c])[..|prefix|] == prefix;
  }

  /** The input that shows the bug: entity 0 was added without a mesh
      and entity 1 with one; when the loop reaches entity 1 its counter is
      still 0, so it reads entity 0's NULL mesh. */
  lemma AsWrittenDereferencesNull(m: Mesh, t: Transform, out: seq<RenderObject>)
    requires |out| >= 2
    ensures CollectAsWritten([RenderComponent(None, ZERO_TRANSFORM), RenderComponent(Some(m), t)], out).None?
    ensures CollectIntended([RenderComponent(None, ZERO_TRANSFORM), RenderComponent(Some(m), t)], out).0 == 1
  {
    var comps := [RenderComponent(None, ZERO_TRANSFORM), RenderComponent(Some(m), t)];
    assert comps[..1] == [RenderComponent(None, ZERO_TRANSFORM)];
    assert comps[..1][..0] == [];
  }

  /** struct ECS: `entities` holds the ids, `renderComponents` the
      components, both of length `capacity`; the first `count` are in use. */
  class Ecs {
    var entities: array<nat>
    var renderComponents: array<RenderComponent>
    var count: nat
    var capacity: nat

    /** Entity i has id i, and every component past the used ones is still
        the zeroed one calloc made. */
    predicate Valid()
      reads this, entities, renderComponents
    {
      entities.Length == capacity && renderComponents.Length == capacity && count <= capacity &&
      (forall i :: 0 <= i < count ==> entities[i] == i) &&
      (forall i :: count <= i < capacity ==> renderComponents[i] == EMPTY_COMPONENT)
    }

    /** The components in use. */
    function Components(): seq<RenderComponent>
      reads this, renderComponents
      requires count <= renderComponents.Length
    {
      renderComponents[..count]
    }

    /** Every component in use has a mesh, as when entities are added
        only through ecs_add_renderable. */
    predicate AllRenderable()
      reads this, renderComponents
      requires count <= renderComponents.Length
    {
      forall i :: 0 <= i < count ==> renderComponents[i].mesh.Some?
    }

    /** ecs_intitialise: capacity 50, no entities, every component's mesh
        NULL. The entity array's initial contents are not specified by
        malloc; the model starts it at zeros. */
    constructor ()
      ensures Valid() && fresh(entities) && fresh(renderComponents)
      ensures capacity == ECS_CAPACITY && count == 0 && AllRenderable()
      ensures forall i :: 0 <= i < capacity ==> renderComponents[i].mesh.None?
    {
      capacity := ECS_CAPACITY;
      entities := new nat[ECS_CAPACITY](_ => 0);
      renderComponents := new RenderComponent[ECS_CAPACITY](_ => EMPTY_COMPONENT);
      count := 0;
    }

    /** ecs_add_entity: the new entity's id is the old count, it is
        stored at that position, and the count grows by one. The source
        does not check the capacity; the model requires room. */
    method AddEntity() returns (id: nat)
      requires Valid() && count < capacity
      modifies this, entities
      ensures Valid()
      ensures id == old(count) && count == old(count) + 1
      ensures entities == old(entities) && renderComponents == old(renderComponents) && capacity == old(capacity)
      ensures entities[..] == old(entities[..])[id := id]
      ensures Components() == old(Components()) + [EMPTY_COMPONENT]
      ensures !AllRenderable()
    {
      id := count;
      entities[count] := id;
      count := count + 1;
      assert renderComponents[..count] == renderComponents[..count - 1] + [renderComponents[count - 1]];
    }

    /** ecs_add_renderable: a new entity whose component holds the mesh
        and a copy of the transformation; no other component changes. */
    method AddRenderable(mesh: Mesh, transformation: Transform)
      requires Valid() && count < capacity
      modifies this, entities, renderComponents
      ensures Valid()
      ensures count == old(count) + 1
      ensures entities == old(entities) && renderComponents == old(renderComponents) && capacity == old(capacity)
      ensures Components() == old(Components()) + [RenderComponent(Some(mesh), transformation)]
      ensures renderComponents[..] == old(renderComponents[..])[old(count) := RenderComponent(Some(mesh), transformation)]
      ensures old(AllRenderable()) ==> AllRenderable()
    {
      var e := AddEntity();
      renderComponents[e] := RenderComponent(Some(mesh), transformation);
      assert renderComponents[..count] == old(renderComponents[..count]) + [renderComponents[e]];
    }

    /** ecs_renderable_collect as written: None when it dereferences a
        NULL mesh, otherwise the final counter (stored as the context's n),
        with the output array left as CollectAsWritten says. */
    method RenderableCollect(out: array<RenderObject>) returns (n: Option<nat>)
      requires Valid() && count <= out.Length
      modifies out
      ensures n.None? <==> CollectAsWritten(Components(), old(out[..])).None?
      ensures n.Some? ==> CollectAsWritten(Components(), old(out[..])) == Some((n.value, out[..]))
      ensures AllRenderable() ==> n == Some(count) && (count, out[..]) == CollectIntended(Components(), old(out[..]))
    {
      ghost var comps := Components();
      ghost var before := out[..];
      var counter := 0;
      for i := 0 to count
        invariant CollectAsWritten(comps[..i], before) == Some((counter, out[..]))
      {
        AsWrittenStep(comps, before, i, counter, out[..]);
        if renderComponents[i].mesh.None? {
          continue;
        }
        if renderComponents[counter].mesh.None? {
          AsWrittenFailureStays(comps, before, i + 1);
          assert comps[..count] == comps;
          return None;
        }
        assert comps[counter] == renderComponents[counter];
        FillSlot(out, counter, renderComponents[counter].transformation, renderComponents[counter].mesh.value);
        counter := counter + 1;
      }
      assert comps[..count] == comps;
      if AllRenderable() {
        AsWrittenAgreesWhenAllRenderable(comps, before);
      }
      n := Some(counter);
    }
  }

  /** One iteration of the pass as written, on a prefix that did not fail. */
  lemma AsWrittenStep(comps: seq<RenderComponent>, out: seq<RenderObject>, i: nat, counter: nat, o: seq<RenderObject>)
    requires i < |comps| <= |out|
    requires CollectAsWritten(comps[..i], out) == Some((counter, o))
    ensures counter <= i && |o| == |out|
    ensures CollectAsWritten(comps[..i + 1], out) ==
      if comps[i].mesh.None? then Some((counter, o))
      else if comps[counter].mesh.None? then None
      else Some((counter + 1, o[counter := SlotAfterSurfaces(comps[counter].transformation, comps[counter].mesh.value,
                                                              o[counter])]))
  {
    assert comps[..i + 1][..i] == comps[..i];
    assert comps[..i + 1][i] == comps[i];
    assert counter == MeshCount(comps[..i]) <= i;
    assert comps[..i + 1][counter] == comps[counter];
  }

  /** The inner loop of ecs_renderable_collect: every surface of the mesh
      writes its render object into the same slot, so the slot ends with
      the last surface's object, and no other slot changes. */
  method FillSlot(out: array<RenderObject>, slot: nat, transformation: Transform, mesh: Mesh)
    requires slot < out.Length
    modifies out
    ensures out[..] == old(out[..])[slot := SlotAfterSurfaces(transformation, mesh, old(out[slot]))]
  {
    ghost var o := out[..];
    for j := 0 to |mesh.surfaces|
      invariant out[..] == o[slot := if j == 0 then o[slot] else ObjectFor(transformation, mesh, mesh.surfaces[j - 1])]
    {
      out[slot] := ObjectFor(transformation, mesh, mesh.surfaces[j]);
    }
  }
}
