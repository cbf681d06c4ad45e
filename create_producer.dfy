/**
 * `CreateRuralProducerUseCase.execute`: checks the document, builds the producer with one
 * property per requested farm (and, for a farm that names crops, one harvest of the current
 * year planting them), and hands the producer to the store.
 *
 * Identifiers come from `uuid`: the n-th call of the generator returns `uuid(n)`. The producer
 * takes call 0; then each farm, in order, takes one call for the property, one per crop, and one
 * for the harvest. The current year is the parameter `year`.
 */
module CreateProducer {
  import opened Wrappers
  import opened Errors
  import opened HarvestEntity
  import opened RuralPropertyEntity
  import opened RuralProducerEntity
  import opened ProducerRepository

  /** One requested farm. `city` and `crops` may be absent from the payload. */
  datatype FarmInput = FarmInput(
    name: string,
    state: string,
    city: Option<string>,
    totalArea: real,
    arableArea: real,
    vegetationArea: real,
    crops: Option<seq<string>>)

  /** The create payload; `farms` may be absent. */
  datatype CreateInput = CreateInput(name: string, document: string, farms: Option<seq<FarmInput>>)

  /** The farms to build: none when the payload has no farm list. */
  function FarmsOf(data: CreateInput): seq<FarmInput> {
    if data.farms.Some? then data.farms.value else []
  }

  /** The city stored for a farm: the given one, or the empty string. */
  function CityOf(farm: FarmInput): string {
    if farm.city.Some? then farm.city.value else ""
  }

  /** The crop names a farm asks to plant: none when the list is absent. */
  function RequestedCrops(farm: FarmInput): seq<string> {
    if farm.crops.Some? then farm.crops.value else []
  }

  /** How many identifiers building one farm draws: the property's, and the crops' and harvest's when it names crops. */
  function UuidsUsed(farm: FarmInput): nat {
    if |RequestedCrops(farm)| > 0 then 1 + |RequestedCrops(farm)| + 1 else 1
  }

  /**
   * The first identifier each farm of the list draws when building starts at `next`: the farms
   * draw their identifiers one after another, in list order.
   */
  function Starts(farms: seq<FarmInput>, next: nat): (s: seq<nat>)
    ensures |s| == |farms|
    ensures |farms| > 0 ==> s[0] == next
  {
    if farms == [] then [] else [next] + Starts(farms[1..], next + UuidsUsed(farms[0]))
  }

  /** Each farm starts right after the identifiers the one before it drew. */
  lemma {:induction false} StartsStep(farms: seq<FarmInput>, next: nat, i: nat)
    requires i + 1 < |farms|
    ensures Starts(farms, next)[i + 1] == Starts(farms, next)[i] + UuidsUsed(farms[i])
  {
    if i > 0 {
      StartsStep(farms[1..], next + UuidsUsed(farms[0]), i - 1);
    }
  }

  /**
   * The identifiers of different farms never overlap: every farm starts after all the
   * identifiers of the farms before it, and none starts before `next`.
   */
  lemma {:induction false} StartsOrdered(farms: seq<FarmInput>, next: nat, i: nat, j: nat)
    requires i < j < |farms|
    ensures next <= Starts(farms, next)[i]
    ensures Starts(farms, next)[i] + UuidsUsed(farms[i]) <= Starts(farms, next)[j]
  {
    if i == 0 {
      if j > 1 {
        StartsOrdered(farms[1..], next + UuidsUsed(farms[0]), 0, j - 1);
      }
    } else {
      StartsOrdered(farms[1..], next + UuidsUsed(farms[0]), i - 1, j - 1);
    }
  }

  /** Every farm of the list passes the area check of the property constructor. */
  predicate AllAreasConsistent(farms: seq<FarmInput>) {
    forall i :: 0 <= i < |farms| ==> farms[i].arableArea + farms[i].vegetationArea <= farms[i].totalArea
  }

  /**
   * The planted crops of a new harvest: one per name, in order, with identifiers drawn from
   * `next` on, area zero and no harvest id.
   */
  function PlantedCropsFor(names: seq<string>, uuid: nat -> string, next: nat): (crops: seq<PlantedCrop>)
    ensures |crops| == |names|
    ensures forall i :: 0 <= i < |names| ==> crops[i] == PlantedCrop(uuid(next + i), names[i], 0.0, None)
  {
    seq(|names|, i requires 0 <= i < |names| => PlantedCrop(uuid(next + i), names[i], 0.0, None))
  }

  /** Reading back the names of the planted crops gives the requested names. */
  lemma PlantedCropNames(names: seq<string>, uuid: nat -> string, next: nat)
    ensures CropNames(PlantedCropsFor(names, uuid, next)) == names
  {
  }

  /**
   * `p` is the property built for `farm` with identifiers drawn from `next` on: the input's
   * fields, the given or empty city, no producer id yet, and a single harvest of `year` planting
   * the requested crops exactly when the farm names at least one crop.
   */
  ghost predicate Built(farm: FarmInput, p: RuralProperty, uuid: nat -> string, next: nat, year: int)
    reads FirstHarvestFrame(p)
  {
    var crops := RequestedCrops(farm);
    && p.id == uuid(next)
    && p.name == farm.name
    && p.state == farm.state
    && p.city == CityOf(farm)
    && p.totalArea == farm.totalArea
    && p.arableArea == farm.arableArea
    && p.vegetationArea == farm.vegetationArea
    && p.producerId == ""
    && if crops == [] then p.harvests == None
       else
         && p.harvests.Some? && |p.harvests.value| == 1
         && p.harvests.value[0].id == uuid(next + 1 + |crops|)
         && p.harvests.value[0].year == year
         && p.harvests.value[0].propertyId == p.id
         && p.harvests.value[0].plantedCrops == PlantedCropsFor(crops, uuid, next + 1)
  }

  /** `props` are the properties built for `farms`, in order, with identifiers drawn from `next` on. */
  ghost predicate BuiltAll(farms: seq<FarmInput>, props: seq<RuralProperty>, uuid: nat -> string, next: nat, year: int)
    reads FirstHarvests(props)
  {
    && |props| == |farms|
    && forall i :: 0 <= i < |farms| ==>
      assert FirstHarvestFrame(props[i]) <= FirstHarvests(props);
      Built(farms[i], props[i], uuid, Starts(farms, next)[i], year)
  }

  /**
   * The callback of `farms.map` for one farm: builds the property (whose constructor may fail the
   * area check) and, when the farm names crops, attaches a new harvest of `year` planting them.
   */
  method BuildProperty(farm: FarmInput, uuid: nat -> string, next: nat, year: int) returns (r: Result<RuralProperty, Error>)
    ensures r.Failure? <==> farm.arableArea + farm.vegetationArea > farm.totalArea
    ensures r.Failure? ==> r.error == Error(Plain, AreaMessage)
    ensures r.Success? ==> Built(farm, r.value, uuid, next, year) && AreasConsistent(r.value)
    ensures r.Success? ==> fresh(FirstHarvestFrame(r.value))
  {
    var built := NewRuralProperty(uuid(next), farm.name, farm.state, CityOf(farm),
      farm.totalArea, farm.arableArea, farm.vegetationArea, "");
    if built.Failure? {
      return Failure(built.error);
    }
    var property := built.value;
    var crops := RequestedCrops(farm);
    if |crops| > 0 {
      var plantedCrops := PlantedCropsFor(crops, uuid, next + 1);
      var harvest := new Harvest(uuid(next + 1 + |crops|), year, property.id, plantedCrops);
      property := property.(harvests := Some([harvest]));
    }
    return Success(property);
  }

  /** Appending the property built for the next farm extends a built prefix by one. */
  lemma BuiltSnoc(farms: seq<FarmInput>, props: seq<RuralProperty>, p: RuralProperty, uuid: nat -> string, starts: seq<nat>, year: int)
    requires |props| < |farms| == |starts|
    requires forall j {:trigger props[j]} :: 0 <= j < |props| ==> Built(farms[j], props[j], uuid, starts[j], year)
    requires Built(farms[|props|], p, uuid, starts[|props|], year)
    ensures forall j {:trigger (props + [p])[j]} :: 0 <= j < |props| + 1 ==> Built(farms[j], (props + [p])[j], uuid, starts[j], year)
  {
    forall j | 0 <= j < |props| + 1
      ensures Built(farms[j], (props + [p])[j], uuid, starts[j], year)
    {
      if j < |props| {
        assert (props + [p])[j] == props[j];
      }
    }
  }

  /**
   * One turn of the `farms.map(...)` callback: builds the property for the farm after the prefix
   * `props`, drawing identifiers from `n`, and appends it.
   */
  method BuildNext(farms: seq<FarmInput>, props: seq<RuralProperty>, uuid: nat -> string, n: nat, ghost starts: seq<nat>, year: int)
    returns (r: Result<seq<RuralProperty>, Error>)
    requires |props| < |farms| == |starts| && n == starts[|props|]
    requires forall j {:trigger props[j]} :: 0 <= j < |props| ==> Built(farms[j], props[j], uuid, starts[j], year)
    ensures r.Failure? <==> farms[|props|].arableArea + farms[|props|].vegetationArea > farms[|props|].totalArea
    ensures r.Failure? ==> r.error == Error(Plain, AreaMessage)
    ensures r.Success? ==> |r.value| == |props| + 1
    ensures r.Success? ==> forall j {:trigger r.value[j]} :: 0 <= j < |r.value| ==> Built(farms[j], r.value[j], uuid, starts[j], year)
  {
    var built := BuildProperty(farms[|props|], uuid, n, year);
    if built.Failure? {
      return Failure(built.error);
    }
    assert forall j {:trigger props[j]} :: 0 <= j < |props| ==> Built(farms[j], props[j], uuid, starts[j], year);
    BuiltSnoc(farms, props, built.value, uuid, starts, year);
    return Success(props + [built.value]);
  }

  /**
   * `farms.map(...)`: builds the properties in order and stops at the first farm whose areas do
   * not pass the check, so the whole list fails exactly when one farm does.
   */
  method BuildProperties(farms: seq<FarmInput>, uuid: nat -> string, next: nat, year: int)
    returns (r: Result<seq<RuralProperty>, Error>)
    ensures r.Failure? <==> !AllAreasConsistent(farms)
    ensures r.Failure? ==> r.error == Error(Plain, AreaMessage)
    ensures r.Success? ==> BuiltAll(farms, r.value, uuid, next, year)
  {
    var props: seq<RuralProperty> := [];
    var n := next;
    ghost var starts := Starts(farms, next);
    for i := 0 to |farms|
      invariant i < |farms| ==> n == starts[i]
      invariant forall j :: 0 <= j < i ==> farms[j].arableArea + farms[j].vegetationArea <= farms[j].totalArea
      invariant |props| == i
      invariant forall j {:trigger props[j]} :: 0 <= j < i ==> Built(farms[j], props[j], uuid, starts[j], year)
    {
      var step := BuildNext(farms, props, uuid, n, starts, year);
      if step.Failure? {
        return Failure(step.error);
      }
      if i + 1 < |farms| {
        StartsStep(farms, next, i);
      }
      props := step.value;
      n := n + UuidsUsed(farms[i]);
    }
    return Success(props);
  }

  /**
   * The part of `CreateRuralProducerUseCase.execute` before the store is called: checks the
   * document, then builds the properties and the producer, whose id is the first identifier drawn.
   */
  method Prepare(data: CreateInput, uuid: nat -> string, year: int) returns (r: Result<RuralProducer, Error>)
    ensures !IsValidDocument(data.document) ==> r == Failure(Error(Plain, InvalidDocumentMessage))
    ensures IsValidDocument(data.document) && !AllAreasConsistent(FarmsOf(data)) ==>
      r == Failure(Error(Plain, AreaMessage))
    ensures IsValidDocument(data.document) && AllAreasConsistent(FarmsOf(data)) ==>
      && r.Success? && fresh(r.value)
      && r.value.id == uuid(0) && r.value.name == data.name && r.value.document == data.document
      && BuiltAll(FarmsOf(data), r.value.properties, uuid, 1, year)
  {
    var check := ValidateDocument(data.document);
    if check.Fail? {
      return Failure(check.error);
    }
    var id := uuid(0);
    var props := BuildProperties(FarmsOf(data), uuid, 1, year);
    if props.Failure? {
      return Failure(props.error);
    }
    var producer := new RuralProducer(id, data.name, data.document, props.value);
    return Success(producer);
  }

  /**
   * `CreateRuralProducerUseCase.execute`. An invalid document or a farm failing the area check
   * fails before the store is called. Otherwise exactly one `create` call is made with the new
   * producer, whose id is the first identifier drawn, and whatever the store reports is passed on
   * unchanged; on success the new producer is returned and its row is stored, and on failure no
   * row changes.
   */
  method Execute(repo: Repository, data: CreateInput, uuid: nat -> string, year: int) returns (r: Result<RuralProducer, Error>)
    modifies repo`rows, repo`calls
    ensures !IsValidDocument(data.document) ==>
      r == Failure(Error(Plain, InvalidDocumentMessage)) && unchanged(repo)
    ensures IsValidDocument(data.document) && !AllAreasConsistent(FarmsOf(data)) ==>
      r == Failure(Error(Plain, AreaMessage)) && unchanged(repo)
    ensures IsValidDocument(data.document) && AllAreasConsistent(FarmsOf(data)) ==>
      && |repo.calls| == |old(repo.calls)| + 1
      && repo.calls[..|old(repo.calls)|] == old(repo.calls)
      && repo.calls[|old(repo.calls)|].CreateCall?
      && var p := repo.calls[|old(repo.calls)|].producer;
      && fresh(p)
      && p.id == uuid(0) && p.name == data.name && p.document == data.document
      && BuiltAll(FarmsOf(data), p.properties, uuid, 1, year)
      && var o := CreateOutcome(old(repo.rows), repo.writeFault, p.id, p.document);
      && (o.Pass? ==> r == Success(p) && repo.rows == old(repo.rows)[p.id := Row(p.name, p.document, p.properties)])
      && (o.Fail? ==> r == Failure(o.error) && repo.rows == old(repo.rows))
  {
    var prepared := Prepare(data, uuid, year);
    if prepared.Failure? {
      return Failure(prepared.error);
    }
    var producer := prepared.value;
    var stored := repo.Create(producer);
    if stored.Fail? {
      return Failure(stored.error);
    }
    return Success(producer);
  }
}
