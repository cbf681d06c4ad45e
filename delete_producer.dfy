/**
 * `DeleteRuralProducerUseCase.execute`: asks the store to delete the producer and rethrows, as it
 * is, whatever error the store reports. It resolves with no value.
 */
module DeleteProducer {
  import opened Wrappers
  import opened Errors
  import opened ProducerRepository

  /**
   * Exactly one call reaches the store, `delete` with the given id. On success the row is gone
   * and every other row is as it was; on failure the store's error is returned unchanged and no
   * row changes.
   */
  method Execute(repo: Repository, id: string) returns (o: Outcome<Error>)
    modifies repo`rows, repo`calls
    ensures repo.calls == old(repo.calls) + [DeleteCall(id)]
    ensures o.Pass? <==> repo.writeFault.None? && id in old(repo.rows)
    ensures repo.writeFault.Some? ==> o == Fail(repo.writeFault.value)
    ensures repo.writeFault.None? && id !in old(repo.rows) ==> o == Fail(repo.missing)
    ensures o.Pass? ==> id !in repo.rows && repo.rows.Keys == old(repo.rows).Keys - {id}
    ensures forall k :: k in repo.rows ==> k in old(repo.rows) && repo.rows[k] == old(repo.rows)[k]
    ensures o.Fail? ==> repo.rows == old(repo.rows)
  {
    o := repo.Delete(id);
  }
}
