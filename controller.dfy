/**
 * `RuralProducerController`: the HTTP handlers for creating, reading, updating and deleting a
 * producer, the mapping of a producer to its response body (`mapProducerToResponse`), and the
 * rules that turn a thrown error into an `HttpException` with a status.
 */
module ProducerController {
  import opened Wrappers
  import opened Errors
  import opened RuralPropertyEntity
  import opened RuralProducerEntity
  import opened ProducerRepository
  import CreateProducer
  import UpdateProducer
  import DeleteProducer

  const DeletedMessage: string := "Produtor rural removido com sucesso."

  /** One farm of a response body. */
  datatype FarmResponse = FarmResponse(
    id: string,
    name: string,
    state: string,
    totalArea: real,
    arableArea: real,
    vegetationArea: real,
    crops: seq<string>)

  /** The response body for a producer. */
  datatype ProducerResponse = ProducerResponse(id: string, name: string, document: string, farms: seq<FarmResponse>)

  /**
   * The callback of `properties.map` in `mapProducerToResponse`: the property's own fields, and
   * as crops the names of its first harvest's planted crops (none without a first harvest). The
   * city, the producer id and every later harvest are dropped.
   */
  function FarmToResponse(farm: RuralProperty): (f: FarmResponse)
    reads FirstHarvestFrame(farm)
    ensures f.id == farm.id && f.name == farm.name && f.state == farm.state
    ensures f.totalArea == farm.totalArea && f.arableArea == farm.arableArea && f.vegetationArea == farm.vegetationArea
    ensures f.crops == FirstHarvestCrops(farm)
  {
    FarmResponse(farm.id, farm.name, farm.state, farm.totalArea, farm.arableArea, farm.vegetationArea,
      FirstHarvestCrops(farm))
  }

  /** `mapProducerToResponse`: id, name and document as they are, and one farm per property, in order. */
  function MapProducerToResponse(producer: RuralProducer): (r: ProducerResponse)
    reads producer, FirstHarvests(producer.properties)
    ensures r.id == producer.id && r.name == producer.name && r.document == producer.document
    ensures |r.farms| == |producer.properties|
    ensures forall i :: 0 <= i < |producer.properties| ==>
      assert FirstHarvestFrame(producer.properties[i]) <= FirstHarvests(producer.properties);
      r.farms[i] == FarmToResponse(producer.properties[i])
  {
    var farms := producer.properties;
    ProducerResponse(producer.id, producer.name, producer.document,
      seq(|farms|, i requires 0 <= i < |farms| reads FirstHarvests(farms) =>
        assert FirstHarvestFrame(farms[i]) <= FirstHarvests(farms);
        FarmToResponse(farms[i])))
  }

  /**
   * The response for a property that the create use case built from `farm` gives back what the
   * request asked for: the farm's name, state and areas, and its crop names in order. The id is
   * the first identifier the farm drew.
   */
  lemma BuiltFarmEchoesRequest(farm: CreateProducer.FarmInput, p: RuralProperty, uuid: nat -> string, next: nat, year: int)
    requires CreateProducer.Built(farm, p, uuid, next, year)
    ensures FarmToResponse(p) == FarmResponse(uuid(next), farm.name, farm.state,
      farm.totalArea, farm.arableArea, farm.vegetationArea, CreateProducer.RequestedCrops(farm))
  {
    var crops := CreateProducer.RequestedCrops(farm);
    if crops != [] {
      CreateProducer.PlantedCropNames(crops, uuid, next + 1);
    }
  }

  /**
   * The status rule of the `create` handler: an error whose numeric `status` is 409 becomes a
   * 409 `HttpException`, every other error a 400 one; the message is kept.
   */
  function MapCreateError(e: Error): (mapped: Error)
    ensures mapped.message == e.message
    ensures mapped.kind == Http(CONFLICT) <==> StatusOf(e) == Some(CONFLICT)
    ensures mapped.kind == Http(CONFLICT) || mapped.kind == Http(BAD_REQUEST)
  {
    if StatusOf(e) == Some(CONFLICT) then Error(Http(CONFLICT), e.message)
    else Error(Http(BAD_REQUEST), e.message)
  }

  /**
   * The status rule of the `update` handler: a 404 `HttpException` is rethrown as it is; every
   * other error, including a plain object with status 404, becomes a 400 one with its message.
   */
  function MapUpdateError(e: Error): (mapped: Error)
    ensures mapped.message == e.message
    ensures e.kind == Http(NOT_FOUND) ==> mapped == e
    ensures e.kind != Http(NOT_FOUND) ==> mapped.kind == Http(BAD_REQUEST)
  {
    if e.kind == Http(NOT_FOUND) then e else Error(Http(BAD_REQUEST), e.message)
  }

  /**
   * What a client of `PUT /producers/:id` sees for an error raised inside the use case: status
   * 404 exactly when the error carries the not-found message or already is a 404 `HttpException`,
   * status 400 otherwise, with the message kept in both cases.
   */
  lemma UpdateErrorStatus(e: Error)
    ensures MapUpdateError(UpdateProducer.CatchUpdateError(e)).message == e.message
    ensures MapUpdateError(UpdateProducer.CatchUpdateError(e)).kind ==
      if e.message == UpdateProducer.NotFoundMessage || e.kind == Http(NOT_FOUND) then Http(NOT_FOUND) else Http(BAD_REQUEST)
  {
  }

  /**
   * `POST /producers`. Every failure of the use case reaches the client through the create status
   * rule, so a bad document or area check is a 400 (with no store call) and a duplicate document a
   * 409. Otherwise exactly one `create` call is made with a fresh producer whose farms are built
   * from the request as the use case builds them; on success its row is stored and the
   * response echoes the request: the new id, the name and document, and per farm, in order, its
   * id, name, state, areas and crop names. A failed store call changes no row.
   */
  method Create(repo: Repository, body: CreateProducer.CreateInput, uuid: nat -> string, year: int)
    returns (r: Result<ProducerResponse, Error>)
    modifies repo`rows, repo`calls
    ensures !IsValidDocument(body.document) ==>
      r == Failure(Error(Http(BAD_REQUEST), InvalidDocumentMessage)) && unchanged(repo)
    ensures IsValidDocument(body.document) && !CreateProducer.AllAreasConsistent(CreateProducer.FarmsOf(body)) ==>
      r == Failure(Error(Http(BAD_REQUEST), AreaMessage)) && unchanged(repo)
    ensures IsValidDocument(body.document) && CreateProducer.AllAreasConsistent(CreateProducer.FarmsOf(body)) ==>
      && |repo.calls| == |old(repo.calls)| + 1
      && repo.calls[..|old(repo.calls)|] == old(repo.calls)
      && repo.calls[|old(repo.calls)|].CreateCall?
      && var p := repo.calls[|old(repo.calls)|].producer;
      && fresh(p)
      && p.id == uuid(0) && p.name == body.name && p.document == body.document
      && CreateProducer.BuiltAll(CreateProducer.FarmsOf(body), p.properties, uuid, 1, year)
      && var o := CreateOutcome(old(repo.rows), repo.writeFault, uuid(0), body.document);
      && (o.Fail? ==> r == Failure(MapCreateError(o.error)) && repo.rows == old(repo.rows))
      && (o.Pass? ==>
            && r.Success? && EchoesRequest(r.value, body, uuid)
            && repo.rows == old(repo.rows)[p.id := Row(p.name, p.document, p.properties)])
  {
    var created := CreateProducer.Execute(repo, body, uuid, year);
    if created.Failure? {
      return Failure(MapCreateError(created.error));
    }
    var producer := created.value;
    var response := MapProducerToResponse(producer);
    CreatedResponseEchoesRequest(producer, body, uuid, year);
    return Success(response);
  }

  /**
   * `response` answers the create request `body`: the producer's id is the first identifier
   * drawn, name and document are the requested ones, and there is one farm per requested farm,
   * in order, with the requested fields and crop names and the farm's first identifier as id.
   */
  ghost predicate EchoesRequest(response: ProducerResponse, body: CreateProducer.CreateInput, uuid: nat -> string) {
    var farms := CreateProducer.FarmsOf(body);
    var starts := CreateProducer.Starts(farms, 1);
    && response.id == uuid(0) && response.name == body.name && response.document == body.document
    && |response.farms| == |farms|
    && forall i :: 0 <= i < |farms| ==>
      response.farms[i] == FarmResponse(uuid(starts[i]), farms[i].name, farms[i].state,
        farms[i].totalArea, farms[i].arableArea, farms[i].vegetationArea, CreateProducer.RequestedCrops(farms[i]))
  }

  /** The response of a producer the create use case built from `body` echoes the request. */
  lemma CreatedResponseEchoesRequest(producer: RuralProducer, body: CreateProducer.CreateInput, uuid: nat -> string, year: int)
    requires producer.id == uuid(0) && producer.name == body.name && producer.document == body.document
    requires CreateProducer.BuiltAll(CreateProducer.FarmsOf(body), producer.properties, uuid, 1, year)
    ensures EchoesRequest(MapProducerToResponse(producer), body, uuid)
  {
    var farms := CreateProducer.FarmsOf(body);
    var starts := CreateProducer.Starts(farms, 1);
    var response := MapProducerToResponse(producer);
    forall i | 0 <= i < |farms|
      ensures response.farms[i] == FarmResponse(uuid(starts[i]), farms[i].name, farms[i].state,
        farms[i].totalArea, farms[i].arableArea, farms[i].vegetationArea, CreateProducer.RequestedCrops(farms[i]))
    {
      BuiltFarmEchoesRequest(farms[i], producer.properties[i], uuid, starts[i], year);
    }
  }

  /**
   * `GET /producers/:id`. A failed lookup is passed on unchanged; a missing producer is a 404
   * with the not-found message; otherwise the mapped producer read from its row.
   */
  method FindById(repo: Repository, id: string) returns (r: Result<ProducerResponse, Error>)
    modifies repo`calls
    ensures repo.calls == old(repo.calls) + [FindByIdCall(id)]
    ensures repo.readFault.Some? ==> r == Failure(repo.readFault.value)
    ensures repo.readFault.None? && id !in repo.rows ==>
      r == Failure(Error(Http(NOT_FOUND), UpdateProducer.NotFoundMessage))
    ensures repo.readFault.None? && id in repo.rows && !IsValidDocument(repo.rows[id].document) ==>
      r == Failure(Error(Plain, InvalidDocumentMessage))
    ensures repo.readFault.None? && id in repo.rows && IsValidDocument(repo.rows[id].document) ==>
      && r.Success?
      && r.value.id == id && r.value.name == repo.rows[id].name && r.value.document == repo.rows[id].document
      && |r.value.farms| == |repo.rows[id].properties|
      && forall i :: 0 <= i < |r.value.farms| ==>
        assert FirstHarvestFrame(repo.rows[id].properties[i]) <= FirstHarvests(repo.rows[id].properties);
        r.value.farms[i] == FarmToResponse(repo.rows[id].properties[i])
  {
    var found := repo.FindById(id);
    if found.Failure? {
      return Failure(found.error);
    }
    if found.value.None? {
      return Failure(Error(Http(NOT_FOUND), UpdateProducer.NotFoundMessage));
    }
    return Success(MapProducerToResponse(found.value.value));
  }

  /** The body of an update request: the fields to overwrite, each optional. */
  datatype UpdateBody = UpdateBody(name: Option<string>, document: Option<string>)

  /**
   * `PUT /producers/:id`. Failures reach the client through the use case's catch block and then
   * the update status rule, so a missing producer is a 404 and every other error a 400. The
   * lookup is always made; only a stored producer with a valid document is written back, with one
   * `update` call. On success the updated entity itself is returned, not a mapped response.
   */
  method Update(repo: Repository, id: string, body: UpdateBody) returns (r: Result<RuralProducer, Error>)
    modifies repo`rows, repo`calls
    ensures repo.readFault.Some? ==>
      && r == Failure(MapUpdateError(UpdateProducer.CatchUpdateError(repo.readFault.value)))
      && repo.calls == old(repo.calls) + [FindByIdCall(id)] && repo.rows == old(repo.rows)
    ensures repo.readFault.None? && id !in old(repo.rows) ==>
      && r == Failure(Error(Http(NOT_FOUND), UpdateProducer.NotFoundMessage))
      && repo.calls == old(repo.calls) + [FindByIdCall(id)] && repo.rows == old(repo.rows)
    ensures repo.readFault.None? && id in old(repo.rows) && !IsValidDocument(old(repo.rows)[id].document) ==>
      && r == Failure(Error(Http(BAD_REQUEST), InvalidDocumentMessage))
      && repo.calls == old(repo.calls) + [FindByIdCall(id)] && repo.rows == old(repo.rows)
    ensures repo.readFault.None? && id in old(repo.rows) && IsValidDocument(old(repo.rows)[id].document) ==>
      var patched := UpdateProducer.Patch(old(repo.rows)[id], UpdateProducer.UpdateInput(id, body.name, body.document));
      && |repo.calls| == |old(repo.calls)| + 2
      && repo.calls[..|old(repo.calls)| + 1] == old(repo.calls) + [FindByIdCall(id)]
      && repo.calls[|old(repo.calls)| + 1].UpdateCall?
      && var p := repo.calls[|old(repo.calls)| + 1].producer;
      && p.id == id && Row(p.name, p.document, p.properties) == patched
      && (repo.writeFault.None? ==>
            && r.Success? && r.value.id == id
            && Row(r.value.name, r.value.document, r.value.properties) == patched
            && repo.rows == old(repo.rows)[id := patched])
      && (repo.writeFault.Some? ==>
            r == Failure(MapUpdateError(UpdateProducer.CatchUpdateError(repo.writeFault.value))) && repo.rows == old(repo.rows))
  {
    var updated := UpdateProducer.Execute(repo, UpdateProducer.UpdateInput(id, body.name, body.document));
    if updated.Failure? {
      return Failure(MapUpdateError(updated.error));
    }
    return Success(updated.value);
  }

  /**
   * `DELETE /producers/:id`. A store error is passed on unchanged (there is no catch block) and
   * then no row changes; otherwise the row is removed, every other row is kept, and the answer is
   * the fixed confirmation message.
   */
  method Delete(repo: Repository, id: string) returns (r: Result<string, Error>)
    modifies repo`rows, repo`calls
    ensures repo.calls == old(repo.calls) + [DeleteCall(id)]
    ensures r == Success(DeletedMessage) <==> repo.writeFault.None? && id in old(repo.rows)
    ensures repo.writeFault.Some? ==> r == Failure(repo.writeFault.value)
    ensures repo.writeFault.None? && id !in old(repo.rows) ==> r == Failure(repo.missing)
    ensures r.Success? ==> id !in repo.rows && repo.rows.Keys == old(repo.rows).Keys - {id}
    ensures forall k :: k in repo.rows ==> k in old(repo.rows) && repo.rows[k] == old(repo.rows)[k]
    ensures r.Failure? ==> repo.rows == old(repo.rows)
  {
    var deleted := DeleteProducer.Execute(repo, id);
    if deleted.Fail? {
      return Failure(deleted.error);
    }
    return Success(DeletedMessage);
  }

  /**
   * Two create requests with the same valid document on an empty, working store: the first is
   * stored under its new id, the second is answered with a 409 and leaves that one row alone.
   */
  method DuplicateCreateIsConflict(
    repo: Repository, first: CreateProducer.CreateInput, second: CreateProducer.CreateInput,
    uuid1: nat -> string, uuid2: nat -> string, year: int)
    returns (r1: Result<ProducerResponse, Error>, r2: Result<ProducerResponse, Error>)
    modifies repo`rows, repo`calls
    requires repo.writeFault.None? && repo.rows == map[]
    requires IsValidDocument(first.document) && second.document == first.document
    requires CreateProducer.AllAreasConsistent(CreateProducer.FarmsOf(first))
    requires CreateProducer.AllAreasConsistent(CreateProducer.FarmsOf(second))
    ensures r1.Success? && r1.value.id == uuid1(0) && r1.value.document == first.document
    ensures r2 == Failure(Error(Http(CONFLICT), ConflictMessage))
    ensures repo.rows.Keys == {uuid1(0)} && repo.rows[uuid1(0)].document == first.document
    ensures |repo.rows[uuid1(0)].properties| == |CreateProducer.FarmsOf(first)|
  {
    r1 := Create(repo, first, uuid1, year);
    assert repo.rows[uuid1(0)].document == second.document;
    r2 := Create(repo, second, uuid2, year);
  }

  /**
   * Deleting a stored producer and then reading it back: the delete is confirmed and the read is
   * answered with a 404.
   */
  method DeleteThenFindByIdIsNotFound(repo: Repository, id: string)
    returns (deleted: Result<string, Error>, found: Result<ProducerResponse, Error>)
    modifies repo`rows, repo`calls
    requires repo.readFault.None? && repo.writeFault.None? && id in repo.rows
    ensures deleted == Success(DeletedMessage)
    ensures found == Failure(Error(Http(NOT_FOUND), UpdateProducer.NotFoundMessage))
    ensures id !in repo.rows
  {
    deleted := Delete(repo, id);
    found := FindById(repo, id);
  }
}
