/** A harvest of a rural property and the crops planted in it. */
module HarvestEntity {
  import opened Wrappers

  /**
   * One crop planted in a harvest. `harvestId` is absent for the crops the create use case
   * builds, which carry only an id, a name and an area.
   */
  datatype PlantedCrop = PlantedCrop(id: string, name: string, area: real, harvestId: Option<string>)

  /** The names of a list of planted crops, in order (`crops.map(crop => crop.name)`). */
  function CropNames(crops: seq<PlantedCrop>): (names: seq<string>)
    ensures |names| == |crops|
    ensures forall i :: 0 <= i < |crops| ==> names[i] == crops[i].name
  {
    if crops == [] then [] else [crops[0].name] + CropNames(crops[1..])
  }

  /**
   * A harvest. The constructor checks nothing: any year and any property id are accepted,
   * and the planted crops default to the empty list.
   */
  class Harvest {
    const id: string
    var year: int
    var propertyId: string
    var plantedCrops: seq<PlantedCrop>

    constructor (id: string, year: int, propertyId: string, plantedCrops: seq<PlantedCrop> := [])
      ensures this.id == id && this.year == year && this.propertyId == propertyId
      ensures this.plantedCrops == plantedCrops
    {
      this.id := id;
      this.year := year;
      this.propertyId := propertyId;
      this.plantedCrops := plantedCrops;
    }

    /** Appends a crop at the end of the planted crops; nothing else changes. */
    method AddPlantedCrop(crop: PlantedCrop)
      modifies this`plantedCrops
      ensures plantedCrops == old(plantedCrops) + [crop]
      ensures |plantedCrops| == |old(plantedCrops)| + 1
      ensures plantedCrops[..|old(plantedCrops)|] == old(plantedCrops)
      ensures year == old(year) && propertyId == old(propertyId)
    {
      plantedCrops := plantedCrops + [crop];
    }
  }
}
