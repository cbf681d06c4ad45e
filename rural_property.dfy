/** A rural property (a farm) of a producer, and the area invariant checked when it is built. */
module RuralPropertyEntity {
  import opened Wrappers
  import opened Errors
  import opened HarvestEntity

  const AreaMessage: string := "A soma das áreas agricultáveis e de vegetação não pode exceder a área total."

  /**
   * A rural property. `harvests` is not a field of the entity: the create use case attaches it
   * to the object after construction, so it is absent on every other property.
   */
  datatype RuralProperty = RuralProperty(
    id: string,
    name: string,
    state: string,
    city: string,
    totalArea: real,
    arableArea: real,
    vegetationArea: real,
    producerId: string,
    harvests: Option<seq<Harvest>>)

  /** The invariant the constructor enforces: arable plus vegetation area fit in the total area. */
  predicate AreasConsistent(p: RuralProperty) {
    p.arableArea + p.vegetationArea <= p.totalArea
  }

  /**
   * `new RuralProperty(...)`: fails with the fixed message exactly when the arable and vegetation
   * areas together exceed the total area; no other field is checked and all are stored as given.
   */
  function NewRuralProperty(
    id: string, name: string, state: string, city: string,
    totalArea: real, arableArea: real, vegetationArea: real, producerId: string): (r: Result<RuralProperty, Error>)
    ensures r.Success? <==> arableArea + vegetationArea <= totalArea
    ensures r.Failure? ==> r.error == Error(Plain, AreaMessage)
    ensures r.Success? ==> AreasConsistent(r.value) && r.value.harvests == None
    ensures r.Success? ==> r.value.id == id && r.value.name == name && r.value.state == state && r.value.city == city
    ensures r.Success? ==> r.value.totalArea == totalArea && r.value.arableArea == arableArea
    ensures r.Success? ==> r.value.vegetationArea == vegetationArea && r.value.producerId == producerId
  {
    if arableArea + vegetationArea > totalArea then Failure(Error(Plain, AreaMessage))
    else Success(RuralProperty(id, name, state, city, totalArea, arableArea, vegetationArea, producerId, None))
  }

  /**
   * The first harvest of a property: present when the `harvests` array is present and has a
   * first element.
   */
  function FirstHarvestOf(p: RuralProperty): Option<Harvest> {
    if p.harvests.Some? && |p.harvests.value| > 0 then Some(p.harvests.value[0]) else None
  }

  /** The objects read to find a property's first-harvest crops: its first harvest, if any. */
  function FirstHarvestFrame(p: RuralProperty): set<Harvest> {
    if FirstHarvestOf(p).Some? then {FirstHarvestOf(p).value} else {}
  }

  /**
   * The crop names of a property's first harvest, in order; empty when there is no `harvests`
   * array or no first harvest. Later harvests are never looked at.
   */
  function FirstHarvestCrops(p: RuralProperty): (names: seq<string>)
    reads FirstHarvestFrame(p)
    ensures FirstHarvestOf(p).None? ==> names == []
    ensures FirstHarvestOf(p).Some? ==>
      var crops := FirstHarvestOf(p).value.plantedCrops;
      |names| == |crops| && forall i :: 0 <= i < |crops| ==> names[i] == crops[i].name
  {
    match FirstHarvestOf(p)
    case Some(h) => CropNames(h.plantedCrops)
    case None => []
  }

  /** The first harvests of a list of properties: everything their first-harvest crops read. */
  function FirstHarvests(farms: seq<RuralProperty>): set<Harvest> {
    set f, h | f in farms && h in FirstHarvestFrame(f) :: h
  }
}
