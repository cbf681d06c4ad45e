/**
 * The persistence port the use cases depend on (`create`, `findById`, `update`, `delete`), as an
 * abstract store of producer rows keyed by id. Which calls fail is decided by the store's contents
 * and by three inputs: a fault that makes every read fail, a fault that makes every write fail,
 * and the error the database reports for a row that does not exist.
 */
module ProducerRepository {
  import opened Wrappers
  import opened Errors
  import opened RuralPropertyEntity
  import opened RuralProducerEntity

  const ConflictMessage: string := "Já existe um produtor com este CPF/CNPJ"

  /** A persisted producer; its properties, harvests and crops are owned by the row and go with it. */
  datatype Row = Row(name: string, document: string, properties: seq<RuralProperty>)

  /** One call made through the port, with its argument. */
  datatype Call =
    | CreateCall(producer: RuralProducer)
    | FindByIdCall(id: string)
    | UpdateCall(producer: RuralProducer)
    | DeleteCall(id: string)

  /** Some stored producer already has this document. */
  predicate DocumentTaken(rows: map<string, Row>, document: string) {
    exists id :: id in rows && rows[id].document == document
  }

  /**
   * What `create` reports: the write fault, a uniqueness conflict (status 409) when the id or the
   * document is already stored, or success.
   */
  function CreateOutcome(rows: map<string, Row>, fault: Option<Error>, id: string, document: string): (o: Outcome<Error>)
    ensures o.Pass? <==> fault.None? && id !in rows && !DocumentTaken(rows, document)
    ensures fault.Some? ==> o == Fail(fault.value)
    ensures fault.None? && (id in rows || DocumentTaken(rows, document)) ==> o == Fail(Error(Status(CONFLICT), ConflictMessage))
  {
    if fault.Some? then Fail(fault.value)
    else if id in rows || DocumentTaken(rows, document) then Fail(Error(Status(CONFLICT), ConflictMessage))
    else Pass
  }

  /** What `update` and `delete` report: the write fault, the missing-row error, or success. */
  function WriteOutcome(rows: map<string, Row>, fault: Option<Error>, missing: Error, id: string): (o: Outcome<Error>)
    ensures o.Pass? <==> fault.None? && id in rows
    ensures fault.Some? ==> o == Fail(fault.value)
    ensures fault.None? && id !in rows ==> o == Fail(missing)
  {
    if fault.Some? then Fail(fault.value)
    else if id !in rows then Fail(missing)
    else Pass
  }

  class Repository {
    var rows: map<string, Row>
    const readFault: Option<Error>
    const writeFault: Option<Error>
    const missing: Error
    ghost var calls: seq<Call>

    constructor (rows: map<string, Row>, readFault: Option<Error>, writeFault: Option<Error>, missing: Error)
      ensures this.rows == rows && this.readFault == readFault && this.writeFault == writeFault
      ensures this.missing == missing && calls == []
    {
      this.rows := rows;
      this.readFault := readFault;
      this.writeFault := writeFault;
      this.missing := missing;
      calls := [];
    }

    /** Persists a new producer, unless the store is down or its id or document is taken. */
    method Create(producer: RuralProducer) returns (o: Outcome<Error>)
      modifies this`rows, this`calls
      ensures calls == old(calls) + [CreateCall(producer)]
      ensures o == CreateOutcome(old(rows), writeFault, producer.id, producer.document)
      ensures o.Pass? ==> rows == old(rows)[producer.id := Row(producer.name, producer.document, producer.properties)]
      ensures o.Fail? ==> rows == old(rows)
    {
      calls := calls + [CreateCall(producer)];
      o := CreateOutcome(rows, writeFault, producer.id, producer.document);
      if o.Pass? {
        rows := rows[producer.id := Row(producer.name, producer.document, producer.properties)];
      }
    }

    /**
     * Looks a producer up by id and rebuilds the entity from its row. The rebuilt producer goes
     * through the entity's constructor, so a stored document that is not valid fails the read.
     */
    method FindById(id: string) returns (r: Result<Option<RuralProducer>, Error>)
      modifies this`calls
      ensures calls == old(calls) + [FindByIdCall(id)]
      ensures readFault.Some? ==> r == Failure(readFault.value)
      ensures readFault.None? && id !in rows ==> r == Success(None)
      ensures readFault.None? && id in rows && !IsValidDocument(rows[id].document) ==>
        r == Failure(Error(Plain, InvalidDocumentMessage))
      ensures readFault.None? && id in rows && IsValidDocument(rows[id].document) ==> r.Success? && r.value.Some?
      ensures r.Success? && r.value.Some? ==>
        var p := r.value.value;
        fresh(p) && id in rows && p.id == id && Row(p.name, p.document, p.properties) == rows[id]
    {
      calls := calls + [FindByIdCall(id)];
      if readFault.Some? {
        return Failure(readFault.value);
      }
      if id !in rows {
        return Success(None);
      }
      var row := rows[id];
      var built := NewRuralProducer(id, row.name, row.document, row.properties);
      if built.Failure? {
        return Failure(built.error);
      }
      return Success(Some(built.value));
    }

    /** Writes a producer's name and document over its stored row. */
    method Update(producer: RuralProducer) returns (o: Outcome<Error>)
      modifies this`rows, this`calls
      ensures calls == old(calls) + [UpdateCall(producer)]
      ensures o == WriteOutcome(old(rows), writeFault, missing, producer.id)
      ensures o.Pass? ==> rows == old(rows)[producer.id := old(rows)[producer.id].(name := producer.name, document := producer.document)]
      ensures o.Fail? ==> rows == old(rows)
    {
      calls := calls + [UpdateCall(producer)];
      o := WriteOutcome(rows, writeFault, missing, producer.id);
      if o.Pass? {
        rows := rows[producer.id := rows[producer.id].(name := producer.name, document := producer.document)];
      }
    }

    /** Removes a producer's row, and with it everything the row owns. */
    method Delete(id: string) returns (o: Outcome<Error>)
      modifies this`rows, this`calls
      ensures calls == old(calls) + [DeleteCall(id)]
      ensures o == WriteOutcome(old(rows), writeFault, missing, id)
      ensures o.Pass? ==> rows == old(rows) - {id}
      ensures o.Fail? ==> rows == old(rows)
    {
      calls := calls + [DeleteCall(id)];
      o := WriteOutcome(rows, writeFault, missing, id);
      if o.Pass? {
        rows := rows - {id};
      }
    }
  }
}
