/**
 * `UpdateRuralProducerUseCase.execute`: looks the producer up, overwrites the name and the
 * document with the supplied values that are truthy (present and not the empty string), and
 * writes the producer back. A missing producer becomes a 404 `HttpException`; every other error
 * is rethrown as it is.
 *
 * The new document is not checked: `document` is a plain public field of the entity and only its
 * constructor validates it, so an update can store a document the entity would have rejected.
 */
module UpdateProducer {
  import opened Wrappers
  import opened Errors
  import opened RuralProducerEntity
  import opened ProducerRepository

  const NotFoundMessage: string := "Produtor rural não encontrado."

  /** The update payload: the producer's id and the fields to overwrite, each optional. */
  datatype UpdateInput = UpdateInput(id: string, name: Option<string>, document: Option<string>)

  /** A supplied string is applied only when it is truthy: present and not empty. */
  predicate Truthy(value: Option<string>) {
    value.Some? && value.value != ""
  }

  /** The value a field holds after the update: the supplied one when truthy, else the current one. */
  function Applied(current: string, value: Option<string>): string {
    if Truthy(value) then value.value else current
  }

  /**
   * The stored row after a successful update: name and document patched, properties kept.
   * Nothing is validated.
   */
  function Patch(row: Row, data: UpdateInput): (patched: Row)
    ensures patched.properties == row.properties
    ensures Truthy(data.name) ==> patched.name == data.name.value
    ensures !Truthy(data.name) ==> patched.name == row.name
    ensures Truthy(data.document) ==> patched.document == data.document.value
    ensures !Truthy(data.document) ==> patched.document == row.document
  {
    row.(name := Applied(row.name, data.name), document := Applied(row.document, data.document))
  }

  /** Applying the same update twice stores the same row as applying it once. */
  lemma PatchIdempotent(row: Row, data: UpdateInput)
    ensures Patch(Patch(row, data), data) == Patch(row, data)
  {
  }

  /** An update whose fields are all absent or empty leaves the row as it was. */
  lemma EmptyPatchKeepsRow(row: Row, data: UpdateInput)
    requires !Truthy(data.name) && !Truthy(data.document)
    ensures Patch(row, data) == row
  {
  }

  /**
   * The document is not re-validated: updating a producer holding a valid 11-character document
   * with the 3-character document "123" stores "123", which the entity's check rejects.
   */
  lemma PatchKeepsInvalidDocument()
    ensures var row := Row("João", "12345678901", []);
            var patched := Patch(row, UpdateInput("1", None, Some("123")));
            IsValidDocument(row.document) && patched.document == "123" && !IsValidDocument(patched.document)
  {
  }

  /**
   * The catch block: an error whose message is the not-found message becomes a 404
   * `HttpException` with that message; any other error is rethrown unchanged.
   */
  function CatchUpdateError(e: Error): (caught: Error)
    ensures caught.message == e.message
    ensures e.message == NotFoundMessage ==> caught.kind == Http(NOT_FOUND)
    ensures e.message != NotFoundMessage ==> caught == e
  {
    if e.message == NotFoundMessage then Error(Http(NOT_FOUND), NotFoundMessage) else e
  }

  /**
   * `UpdateRuralProducerUseCase.execute`. A failed lookup is rethrown through the catch block.
   * A missing producer gives the 404 error with no `update` call. Otherwise the looked-up producer
   * is patched in place, `update` is called once with it, and on success it is returned; a failed
   * write is rethrown through the catch block.
   */
  method Execute(repo: Repository, data: UpdateInput) returns (r: Result<RuralProducer, Error>)
    modifies repo`rows, repo`calls
    ensures |repo.calls| >= |old(repo.calls)| + 1
    ensures repo.calls[..|old(repo.calls)| + 1] == old(repo.calls) + [FindByIdCall(data.id)]
    ensures repo.readFault.Some? ==>
      && r == Failure(CatchUpdateError(repo.readFault.value))
      && repo.calls == old(repo.calls) + [FindByIdCall(data.id)] && repo.rows == old(repo.rows)
    ensures repo.readFault.None? && data.id !in old(repo.rows) ==>
      && r == Failure(Error(Http(NOT_FOUND), NotFoundMessage))
      && repo.calls == old(repo.calls) + [FindByIdCall(data.id)] && repo.rows == old(repo.rows)
    ensures repo.readFault.None? && data.id in old(repo.rows) && !IsValidDocument(old(repo.rows)[data.id].document) ==>
      && r == Failure(Error(Plain, InvalidDocumentMessage))
      && repo.calls == old(repo.calls) + [FindByIdCall(data.id)] && repo.rows == old(repo.rows)
    ensures repo.readFault.None? && data.id in old(repo.rows) && IsValidDocument(old(repo.rows)[data.id].document) ==>
      && |repo.calls| == |old(repo.calls)| + 2
      && repo.calls[|old(repo.calls)| + 1].UpdateCall?
      && var p := repo.calls[|old(repo.calls)| + 1].producer;
      && fresh(p)
      && p.id == data.id
      && Row(p.name, p.document, p.properties) == Patch(old(repo.rows)[data.id], data)
      && (repo.writeFault.None? ==> r == Success(p) && repo.rows == old(repo.rows)[data.id := Patch(old(repo.rows)[data.id], data)])
      && (repo.writeFault.Some? ==> r == Failure(CatchUpdateError(repo.writeFault.value)) && repo.rows == old(repo.rows))
  {
    var found := repo.FindById(data.id);
    if found.Failure? {
      return Failure(CatchUpdateError(found.error));
    }
    if found.value.None? {
      return Failure(CatchUpdateError(Error(Plain, NotFoundMessage)));
    }
    var producer := found.value.value;
    if Truthy(data.name) {
      producer.name := data.name.value;
    }
    if Truthy(data.document) {
      producer.document := data.document.value;
    }
    var written := repo.Update(producer);
    if written.Fail? {
      return Failure(CatchUpdateError(written.error));
    }
    return Success(producer);
  }
}
