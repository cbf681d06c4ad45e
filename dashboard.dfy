/**
 * The dashboard aggregation: one pass over every producer's properties that counts the farms,
 * sums their areas, and counts farms per state and crop names per first harvest.
 */
module Dashboard {
  import opened Wrappers
  import opened Errors
  import opened HarvestEntity
  import opened RuralPropertyEntity
  import opened RuralProducerEntity
  import opened OrderedCount

  datatype LandUse = LandUse(kind: string, total: real)

  /** The dashboard result: totals, per-state and per-crop counts, and the two land-use sums. */
  datatype DashboardData = DashboardData(
    totalFarms: nat,
    totalHectares: real,
    byState: seq<Entry>,
    byCrop: seq<Entry>,
    landUse: seq<LandUse>)

  /** Every property of every producer, producer by producer, in list order. */
  function Farms(all: seq<RuralProducer>): seq<RuralProperty>
    reads all
  {
    if all == [] then [] else Farms(all[..|all| - 1]) + all[|all| - 1].properties
  }

  /** The state of each farm, in order. */
  function States(farms: seq<RuralProperty>): seq<string> {
    if farms == [] then [] else States(farms[..|farms| - 1]) + [farms[|farms| - 1].state]
  }

  /** The crop names the dashboard counts: each farm's first-harvest crops, farm after farm. */
  function CropsOf(farms: seq<RuralProperty>): seq<string>
    reads FirstHarvests(farms)
  {
    if farms == [] then []
    else
      var last := farms[|farms| - 1];
      assert FirstHarvestFrame(last) <= FirstHarvests(farms);
      CropsOf(farms[..|farms| - 1]) + FirstHarvestCrops(last)
  }

  datatype AreaKind = TotalArea | ArableArea | VegetationArea

  function AreaOf(farm: RuralProperty, kind: AreaKind): real {
    match kind
    case TotalArea => farm.totalArea
    case ArableArea => farm.arableArea
    case VegetationArea => farm.vegetationArea
  }

  /** The sum of one kind of area over a list of farms. */
  function SumArea(farms: seq<RuralProperty>, kind: AreaKind): real {
    if farms == [] then 0.0 else SumArea(farms[..|farms| - 1], kind) + AreaOf(farms[|farms| - 1], kind)
  }

  /** The reference result of the aggregation over a list of farms. */
  function Summary(farms: seq<RuralProperty>): (d: DashboardData)
    reads FirstHarvests(farms)
    ensures d.totalFarms == |farms| && Total(d.byState) == |farms|
    ensures Total(d.byCrop) == |CropsOf(farms)|
    ensures |d.landUse| == 2 && d.landUse[0].kind == "arable" && d.landUse[1].kind == "vegetation"
  {
    StatesIndex(farms);
    TallyTotal(States(farms));
    TallyTotal(CropsOf(farms));
    DashboardData(
      |farms|,
      SumArea(farms, TotalArea),
      Tally(States(farms)),
      Tally(CropsOf(farms)),
      [LandUse("arable", SumArea(farms, ArableArea)), LandUse("vegetation", SumArea(farms, VegetationArea))])
  }

  /** The running values of the aggregation loop, in the order the source declares them. */
  datatype Totals = Totals(
    totalFarms: nat,
    totalHectares: real,
    stateMap: Counter,
    cropMap: Counter,
    arable: real,
    vegetation: real)

  /** The running values before the first farm: zero counts, zero sums, empty maps. */
  const Start := Totals(0, 0.0, Counter([], map[]), Counter([], map[]), 0.0, 0.0)

  /**
   * The running values after `farms`, whose first-harvest crop names are `crops`: the counters,
   * the two maps and the three area sums agree with the reference result over `farms`.
   */
  ghost predicate Aggregates(farms: seq<RuralProperty>, crops: seq<string>, t: Totals) {
    && t.totalFarms == |farms|
    && t.totalHectares == SumArea(farms, TotalArea)
    && t.arable == SumArea(farms, ArableArea)
    && t.vegetation == SumArea(farms, VegetationArea)
    && t.stateMap.Counts(States(farms))
    && t.cropMap.Counts(crops)
  }

  /** Nothing aggregated yet: the starting values aggregate the empty list of farms. */
  lemma AggregatesNothing()
    ensures Aggregates([], [], Start)
  {
    EmptyCounts();
  }

  /**
   * One loop step: adding a farm's areas, counting its state, and counting the crop names of
   * its first harvest aggregates one more farm.
   */
  lemma AggregateFarm(
    farms: seq<RuralProperty>, crops: seq<string>, farm: RuralProperty, farmCrops: seq<string>,
    t: Totals, cropMap': Counter)
    requires Aggregates(farms, crops, t)
    requires cropMap'.Counts(crops + farmCrops)
    ensures Aggregates(farms + [farm], crops + farmCrops, Totals(
      t.totalFarms + 1,
      t.totalHectares + farm.totalArea,
      t.stateMap.Increment(farm.state),
      cropMap',
      t.arable + farm.arableArea,
      t.vegetation + farm.vegetationArea))
  {
    FarmStep(farms, farm);
    IncrementCounts(t.stateMap, States(farms), farm.state);
  }

  /** One more farm extends each per-farm list and sum by that farm's contribution. */
  lemma FarmStep(farms: seq<RuralProperty>, farm: RuralProperty)
    ensures States(farms + [farm]) == States(farms) + [farm.state]
    ensures CropsOf(farms + [farm]) == CropsOf(farms) + FirstHarvestCrops(farm)
    ensures forall kind :: SumArea(farms + [farm], kind) == SumArea(farms, kind) + AreaOf(farm, kind)
  {
    assert (farms + [farm])[..|farms|] == farms;
  }

  /** The farms of one more producer follow the farms of the producers before it. */
  lemma ProducerStep(all: seq<RuralProducer>, i: nat)
    requires i < |all|
    ensures Farms(all[..i + 1]) == Farms(all[..i]) + all[i].properties
  {
    assert all[..i + 1][..i] == all[..i];
  }

  /** Counting one more name of `names` extends the counted sequence by that name, at every step. */
  lemma CountEachCrop(counted: seq<string>, names: seq<string>)
    ensures forall c: Counter, k :: 0 <= k < |names| && c.Counts(counted + names[..k]) ==>
      c.Increment(names[k]).Counts(counted + names[..k + 1])
  {
    forall c: Counter, k | 0 <= k < |names| && c.Counts(counted + names[..k])
      ensures c.Increment(names[k]).Counts(counted + names[..k + 1])
    {
      IncrementCounts(c, counted + names[..k], names[k]);
      assert counted + names[..k + 1] == counted + names[..k] + [names[k]];
    }
  }

  /** The i-th counted state is the i-th farm's state. */
  lemma {:induction false} StatesIndex(farms: seq<RuralProperty>)
    ensures |States(farms)| == |farms|
    ensures forall i :: 0 <= i < |farms| ==> States(farms)[i] == farms[i].state
  {
    if farms != [] {
      StatesIndex(farms[..|farms| - 1]);
    }
  }

  /**
   * `byState` lists each state that some farm is in exactly once, in order of first appearance,
   * and its counts add up to the number of farms.
   */
  lemma ByStateCoversFarms(farms: seq<RuralProperty>)
    ensures Total(Summary(farms).byState) == Summary(farms).totalFarms
    ensures NoDuplicates(Keys(Summary(farms).byState))
    ensures forall i :: 0 <= i < |farms| ==> farms[i].state in Keys(Summary(farms).byState)
    ensures forall k :: k in Keys(Summary(farms).byState) ==> exists i :: 0 <= i < |farms| && farms[i].state == k
  {
    StatesIndex(farms);
    TallyTotal(States(farms));
    TallyKeys(States(farms));
    forall k | k in Keys(Summary(farms).byState)
      ensures exists i :: 0 <= i < |farms| && farms[i].state == k
    {
      var i :| 0 <= i < |States(farms)| && States(farms)[i] == k;
      assert farms[i].state == k;
    }
  }

  /**
   * `byCrop` lists each counted crop name exactly once, and its counts add up to the number of
   * crops planted in the farms' first harvests.
   */
  lemma ByCropCoversFirstHarvests(farms: seq<RuralProperty>)
    ensures Total(Summary(farms).byCrop) == |CropsOf(farms)|
    ensures NoDuplicates(Keys(Summary(farms).byCrop))
    ensures forall k :: k in Keys(Summary(farms).byCrop) <==> k in CropsOf(farms)
  {
    TallyTotal(CropsOf(farms));
    TallyKeys(CropsOf(farms));
  }

  /**
   * Only the first harvest of a farm is counted: harvests appended after it change nothing in
   * the crop names the dashboard counts for that farm.
   */
  lemma LaterHarvestsIgnored(farm: RuralProperty, later: seq<Harvest>)
    requires farm.harvests.Some? && |farm.harvests.value| > 0
    ensures CropsOf([farm.(harvests := Some(farm.harvests.value + later))]) == CropsOf([farm])
  {
    var farm' := farm.(harvests := Some(farm.harvests.value + later));
    assert FirstHarvestOf(farm') == FirstHarvestOf(farm);
    assert [farm'][..0] == [farm][..0] == [];
  }

  /** When every area sum of each farm is within its total area, so is the sum over the farms. */
  lemma {:induction false} SumAreasWithinTotal(farms: seq<RuralProperty>)
    requires forall f :: f in farms ==> AreasConsistent(f)
    ensures SumArea(farms, ArableArea) + SumArea(farms, VegetationArea) <= SumArea(farms, TotalArea)
  {
    if farms != [] {
      SumAreasWithinTotal(farms[..|farms| - 1]);
      assert AreasConsistent(farms[|farms| - 1]);
    }
  }

  /**
   * When every farm was built through the checked constructor, the two land-use totals together
   * never exceed `totalHectares`.
   */
  lemma LandUseWithinHectares(farms: seq<RuralProperty>)
    requires forall f :: f in farms ==> AreasConsistent(f)
    ensures Summary(farms).landUse[0].total + Summary(farms).landUse[1].total <= Summary(farms).totalHectares
  {
    SumAreasWithinTotal(farms);
  }

  /** The summary of three farms without harvests, spelled out field by field. */
  lemma SummaryOfThree(f1: RuralProperty, f2: RuralProperty, f3: RuralProperty)
    requires f1.harvests == None && f2.harvests == None && f3.harvests == None
    ensures Summary([f1, f2, f3]) == DashboardData(
      3,
      f1.totalArea + f2.totalArea + f3.totalArea,
      Tally([f1.state, f2.state, f3.state]),
      [],
      [LandUse("arable", f1.arableArea + f2.arableArea + f3.arableArea),
       LandUse("vegetation", f1.vegetationArea + f2.vegetationArea + f3.vegetationArea)])
  {
    assert [f1, f2, f3][..2] == [f1, f2] && [f1, f2][..1] == [f1] && [f1][..0] == [];
    assert FirstHarvestCrops(f1) == [] && FirstHarvestCrops(f2) == [] && FirstHarvestCrops(f3) == [];
    assert States([]) == [] && CropsOf([]) == [];
    assert States([f1]) == [f1.state] && CropsOf([f1]) == [];
    assert States([f1, f2]) == [f1.state, f2.state] && CropsOf([f1, f2]) == [];
    assert States([f1, f2, f3]) == [f1.state, f2.state, f3.state] && CropsOf([f1, f2, f3]) == [];
    assert Tally([]) == [];
    forall kind ensures SumArea([f1, f2, f3], kind) == AreaOf(f1, kind) + AreaOf(f2, kind) + AreaOf(f3, kind) {
      assert SumArea([f1], kind) == AreaOf(f1, kind);
      assert SumArea([f1, f2], kind) == AreaOf(f1, kind) + AreaOf(f2, kind);
    }
  }

  /**
   * The three farms of the aggregation example, two in GO and one in MT, give 3 farms, 230
   * hectares, GO counted twice before MT once, and land use 140 arable and 90 vegetation.
   */
  lemma AggregationExample()
    ensures var farms := [
              RuralProperty("1", "A", "GO", "", 100.0, 60.0, 40.0, "", None),
              RuralProperty("2", "B", "MT", "", 50.0, 30.0, 20.0, "", None),
              RuralProperty("3", "C", "GO", "", 80.0, 50.0, 30.0, "", None)];
            var d := Summary(farms);
            && d.totalFarms == 3 && d.totalHectares == 230.0
            && d.byState == [Entry("GO", 2), Entry("MT", 1)]
            && d.landUse == [LandUse("arable", 140.0), LandUse("vegetation", 90.0)]
  {
    SummaryOfThree(
      RuralProperty("1", "A", "GO", "", 100.0, 60.0, 40.0, "", None),
      RuralProperty("2", "B", "MT", "", 50.0, 30.0, 20.0, "", None),
      RuralProperty("3", "C", "GO", "", 80.0, 50.0, 30.0, "", None));
    CountExamples();
  }

  /**
   * The crop names of the aggregation example's first harvests, Soja and Milho, then Soja, then
   * Milho, count Soja twice before Milho twice; its states, GO, MT and GO, count GO twice before
   * MT once.
   */
  lemma CountExamples()
    ensures Tally(["GO", "MT", "GO"]) == [Entry("GO", 2), Entry("MT", 1)]
    ensures Tally(["Soja", "Milho", "Soja", "Milho"]) == [Entry("Soja", 2), Entry("Milho", 2)]
  {
    TallyRepeatFirst("GO", "MT");
    TallyRepeatFirst("Soja", "Milho");
  }

  /**
   * The body of the loop over a producer's properties: counts the farm, adds its areas, counts
   * its state, and then counts each crop of its first harvest, when it has one.
   */
  method AddFarm(t: Totals, farm: RuralProperty, ghost seen: seq<RuralProperty>) returns (t': Totals)
    requires Aggregates(seen, CropsOf(seen), t)
    ensures Aggregates(seen + [farm], CropsOf(seen + [farm]), t')
  {
    var totalFarms := t.totalFarms + 1;
    var totalHectares := t.totalHectares + farm.totalArea;
    var stateMap := t.stateMap.Increment(farm.state);
    var arable := t.arable + farm.arableArea;
    var vegetation := t.vegetation + farm.vegetationArea;
    var cropMap := t.cropMap;
    ghost var crops := CropsOf(seen);
    ghost var farmCrops: seq<string> := [];
    if farm.harvests.Some? && |farm.harvests.value| > 0 {
      var plantedCrops := farm.harvests.value[0].plantedCrops;
      farmCrops := CropNames(plantedCrops);
      // The crop loop calls no lemma, so that the heap the invariants read stays the same.
      CountEachCrop(crops, farmCrops);
      assert crops + farmCrops[..0] == crops;
      for k := 0 to |plantedCrops|
        invariant cropMap.Counts(crops + farmCrops[..k])
      {
        cropMap := cropMap.Increment(plantedCrops[k].name);
      }
      assert farmCrops[..|plantedCrops|] == farmCrops;
    } else {
      assert crops + farmCrops == crops;
    }
    assert farmCrops == FirstHarvestCrops(farm);
    AggregateFarm(seen, crops, farm, farmCrops, t, cropMap);
    FarmStep(seen, farm);
    t' := Totals(totalFarms, totalHectares, stateMap, cropMap, arable, vegetation);
  }

  /** Aggregating one more property of a producer extends the aggregate of its properties so far. */
  lemma AggregatePrefixStep(seen: seq<RuralProperty>, properties: seq<RuralProperty>, j: nat, t: Totals)
    requires j < |properties|
    requires Aggregates(seen + properties[..j] + [properties[j]], CropsOf(seen + properties[..j] + [properties[j]]), t)
    ensures Aggregates(seen + properties[..j + 1], CropsOf(seen + properties[..j + 1]), t)
  {
    assert seen + properties[..j + 1] == seen + properties[..j] + [properties[j]];
  }

  /** The body of the loop over the producers: aggregates each of one producer's properties in turn. */
  method AddProducer(t: Totals, producer: RuralProducer, ghost seen: seq<RuralProperty>) returns (t': Totals)
    requires Aggregates(seen, CropsOf(seen), t)
    ensures Aggregates(seen + producer.properties, CropsOf(seen + producer.properties), t')
  {
    t' := t;
    var properties := producer.properties;
    assert seen + properties[..0] == seen;
    for j := 0 to |properties|
      invariant Aggregates(seen + properties[..j], CropsOf(seen + properties[..j]), t')
    {
      t' := AddFarm(t', properties[j], seen + properties[..j]);
      AggregatePrefixStep(seen, properties, j, t');
    }
    assert properties[..|properties|] == properties;
  }

  method AggregateAll(all: seq<RuralProducer>) returns (t: Totals)
    ensures Aggregates(Farms(all), CropsOf(Farms(all)), t)
  {
    t := Start;
    ghost var seen: seq<RuralProperty> := [];
    AggregatesNothing();
    for i := 0 to |all|
      invariant seen == Farms(all[..i])
      invariant Aggregates(seen, CropsOf(seen), t)
    {
      t := AddProducer(t, all[i], seen);
      ProducerStep(all, i);
      seen := seen + all[i].properties;
    }
    assert all[..|all|] == all;
  }

  /**
   * `DashboardUseCase.execute`, given what `findAll` returned: a failure is passed on unchanged
   * with no partial result; otherwise the aggregation of all farms of all producers.
   */
  method Execute(fetched: Result<seq<RuralProducer>, Error>) returns (r: Result<DashboardData, Error>)
    ensures fetched.Failure? ==> r == Failure(fetched.error)
    ensures fetched.Success? ==> r == Success(Summary(Farms(fetched.value)))
  {
    if fetched.Failure? {
      return Failure(fetched.error);
    }
    var t := AggregateAll(fetched.value);
    ghost var farms := Farms(fetched.value);
    EntriesTally(t.stateMap, States(farms));
    EntriesTally(t.cropMap, CropsOf(farms));
    r := Success(DashboardData(
      t.totalFarms,
      t.totalHectares,
      t.stateMap.Entries(),
      t.cropMap.Entries(),
      [LandUse("arable", t.arable), LandUse("vegetation", t.vegetation)]));
  }
}
