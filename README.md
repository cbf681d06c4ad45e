# Rural producer service: a verified Dafny model

This project models the core of a NestJS service that registers rural producers (farmers and
companies, identified by a CPF or CNPJ document), their rural properties (farms), each farm's
harvests, and the crops planted in a harvest. The model covers:

- the domain entities and the checks their constructors make;
- the create, update and delete use cases, run against the repository port;
- the dashboard aggregation over every producer's farms;
- the controller's response mapping and the rules that turn errors into HTTP statuses.

Each module corresponds to one source file, except `OrderedCount`, which models the JavaScript `Map` used inside src/core/producer/use-cases/dashboard.usecase.ts:

| module | models |
|---|---|
| `HarvestEntity` | `Harvest` (a class: `addPlantedCrop` appends in place) and `PlantedCrop` (a value) |
| `RuralPropertyEntity` | `RuralProperty` (a value) and its area check; the `harvests` list that create attaches |
| `RuralProducerEntity` | `RuralProducer` (a class with mutable public fields) and its document check |
| `ProducerRepository` | the repository port, as an in-memory store class with a ghost log of calls |
| `OrderedCount` | a JavaScript `Map<string, number>` used as an insertion-ordered counter, and its read-out |
| `Dashboard` | `DashboardUseCase.execute`: the nested aggregation loop and the reference result `Summary` |
| `CreateProducer` | `CreateRuralProducerUseCase.execute`: building the producer graph, then `repository.create` |
| `UpdateProducer` | `UpdateRuralProducerUseCase.execute`: the truthy partial update and its catch block |
| `DeleteProducer` | `DeleteRuralProducerUseCase.execute` |
| `ProducerController` | `mapProducerToResponse` and the `create`, `findById`, `update` and `delete` handlers |

`Wrappers` holds `Option`, `Result` and `Outcome`. `Errors` models a thrown value as `Error(kind,
message)`, where `kind` is one of:

- `Plain`: an ordinary `Error`;
- `Status(code)`: an object that carries a numeric `status`, such as the store's conflict;
- `Http(code)`: an `HttpException`.

A method that can throw returns a `Result` or an `Outcome` in place of the exception.

The store keeps one `Row(name, document, properties)` per producer id. Two errors are fixed when
the store is built:

- `readFault`: what a failing `findById` reports;
- `writeFault`: what a failing `create`, `update` or `delete` reports.

`missing` is what the database reports when `update` or `delete` is given an id it does not hold.
`create` fails with status 409, with the duplicate-document message, when the document or the id is already stored. `findById` rebuilds the entity
through its validating constructor, as the database adapter does, so a stored invalid document
makes the read throw.

Each use case method is proved against its specification. The create flow ties every built
property to its input farm (`CreateProducer.Built`); the update flow ties the written row to the
pure `UpdateProducer.Patch`. The dashboard loop is proved to compute `Dashboard.Summary`, and the
lemmas beside `Summary` prove what it promises: the counts add up, the keys are distinct and come
in first-occurrence order, and land use never exceeds the total area when every farm passed the area check.

## Where the model follows the code rather than the expectation

- **The update use case does not re-validate the document.** `document` is a plain public field
  (src/core/producer/domain/rural-producer.entity.ts:5) and only the constructor checks it
  (line 10). The comment at src/core/producer/use-cases/update-rural-producer.usecase.ts:24 says
  the check happens in a setter, and no setter exists. The unit test at
  src/core/producer/use-cases/update-rural-producer.usecase.spec.ts:42-52 expects an update to
  "123" to throw. The code as written stores "123" and reports success. `UpdateProducer.Execute`
  models the code; `UpdateProducer.PatchKeepsInvalidDocument` proves the test's own input is
  stored. The stored document is only rejected later, when the next `findById` rebuilds the
  entity.
- **Dashboard crop counts read only the first harvest** of each property
  (src/core/producer/use-cases/dashboard.usecase.ts:38-45). `Dashboard.LaterHarvestsIgnored`
  proves that adding later harvests changes nothing. `mapProducerToResponse` reads only the first
  harvest in the same way.

## Model

| member | source | states |
|---|---|---|
| Errors.StatusOf | src/core/producer/use-cases/create-rural-producer.usecase.ts:85-91 | a thrown value has a numeric status exactly when it is not a plain `Error`; an object with a numeric `status` and an `HttpException` both report their own code |
| HarvestEntity.CropNames | src/presentation/producer/controllers/rural-producer.controller.ts:406 | one name per planted crop, the i-th name being the i-th crop's, in order |
| HarvestEntity.Harvest.constructor | src/core/producer/domain/harvest.entity.ts:2-9 | every field is stored as given with no check; the planted crops default to none |
| HarvestEntity.Harvest.AddPlantedCrop | src/core/producer/domain/harvest.entity.ts:11-13 | the crop is appended: length grows by one, earlier crops are kept, year and property id are untouched |
| RuralPropertyEntity.FirstHarvestCrops | src/core/producer/use-cases/dashboard.usecase.ts:38-45 | the crop names of the first harvest's planted crops, one per crop, in order; none without a first harvest |
| RuralPropertyEntity.NewRuralProperty | src/core/producer/domain/rural-property.entity.ts:2-23 | construction fails, with the fixed message, exactly when arable plus vegetation area exceeds the total (equality is accepted); every field is stored as given and nothing else is checked |
| RuralProducerEntity.Utf16Length | src/core/producer/domain/rural-producer.entity.ts:21 | JavaScript's `length`: the number of UTF-16 code units, between the number of characters and twice that |
| RuralProducerEntity.Utf16LengthBmp | src/core/producer/domain/rural-producer.entity.ts:21 | for a string of Basic Multilingual Plane characters, the JavaScript length is the number of characters |
| RuralProducerEntity.Utf16LengthAstral | src/core/producer/domain/rural-producer.entity.ts:21 | for a string of characters outside the Basic Multilingual Plane, the JavaScript length is twice the number of characters |
| RuralProducerEntity.IsValidCPF | src/core/producer/domain/rural-producer.entity.ts:19-22 | the individual check accepts a JavaScript length of exactly 11, which for Basic Multilingual Plane text is exactly 11 characters |
| RuralProducerEntity.IsValidCNPJ | src/core/producer/domain/rural-producer.entity.ts:24-27 | the company check accepts a JavaScript length of exactly 14, which for Basic Multilingual Plane text is exactly 14 characters |
| RuralProducerEntity.ValidateDocument | src/core/producer/domain/rural-producer.entity.ts:13-27 | passes exactly for JavaScript lengths 11 and 14; otherwise fails with the fixed invalid-document message |
| RuralProducerEntity.AstralDigitsPassAsCNPJ | src/core/producer/domain/rural-producer.entity.ts:24-27 | seven mathematical digits from outside the Basic Multilingual Plane have JavaScript length 14 and pass as a company document |
| RuralProducerEntity.PayloadRuleIsWider | src/presentation/producer/dtos/create-rural-producer.dto.ts:57-59 | every document the entity accepts passes the payload's 11-to-14 length rule, and that rule lets through exactly lengths 12 and 13 that the entity then rejects |
| RuralProducerEntity.RuralProducer.constructor | src/core/producer/domain/rural-producer.entity.ts:2-11 | with a valid document, the fields are stored as given and the properties default to none |
| RuralProducerEntity.RuralProducer.AddProperty | src/core/producer/domain/rural-producer.entity.ts:29-31 | the property is appended: length grows by one, earlier properties are kept, name and document are untouched (`id` is a constant) |
| RuralProducerEntity.NewRuralProducer | src/core/producer/domain/rural-producer.entity.ts:2-27 | construction succeeds exactly for JavaScript lengths 11 and 14, with a fresh producer holding the given fields; otherwise it throws the fixed message |
| ProducerRepository.CreateOutcome | src/core/producer/ports/rural-producer.repository.ts:4 | `create` succeeds exactly when there is no fault, the id is new and the document is not stored yet; a taken id or document is a status-409 conflict |
| ProducerRepository.WriteOutcome | src/core/producer/ports/rural-producer.repository.ts:6-7 | `update` and `delete` succeed exactly when there is no fault and the id is stored; a missing id gives the database's error |
| ProducerRepository.Repository.constructor | src/core/producer/ports/rural-producer.repository.ts:3-9 | a store holding the given rows and faults, with no calls made |
| ProducerRepository.Repository.Create | src/core/producer/ports/rural-producer.repository.ts:4 | logs one `create` call; on success adds the producer's row under its id, on failure changes no row |
| ProducerRepository.Repository.FindById | src/core/producer/ports/rural-producer.repository.ts:5 | logs one `findById` call; a fault is returned as is, an unknown id gives no producer, and a known id gives a fresh entity holding the stored row, or the invalid-document error when the constructor rejects the stored document |
| ProducerRepository.Repository.Update | src/core/producer/ports/rural-producer.repository.ts:6 | logs one `update` call; on success overwrites the stored name and document, on failure changes no row |
| ProducerRepository.Repository.Delete | src/core/producer/ports/rural-producer.repository.ts:7 | logs one `delete` call; on success removes the row, on failure changes no row |
| OrderedCount.Counter.Increment | src/core/producer/use-cases/dashboard.usecase.ts:32 | `map.set(k, get(k) + 1)`: a known key keeps its place and its count grows by one, a new key is appended with count 1, and no other count changes |
| OrderedCount.Counter.Entries | src/core/producer/use-cases/dashboard.usecase.ts:53-60 | the entries list the keys in insertion order, each with the count stored under it |
| OrderedCount.IncrementCounts | src/core/producer/use-cases/dashboard.usecase.ts:32 | setting a key to its stored count plus one (zero when absent) turns a map that counts `s` into one that counts `s + [k]` |
| OrderedCount.EntriesTally | src/core/producer/use-cases/dashboard.usecase.ts:53-60 | reading out the entries of a map that counts `s` gives the tally of `s`: first occurrences in order, each with its number of occurrences |
| OrderedCount.FirstOccurrencesDistinct | src/core/producer/use-cases/dashboard.usecase.ts:23-24 | the map's keys are exactly the counted elements, with no duplicates |
| OrderedCount.TallyKeys | src/core/producer/use-cases/dashboard.usecase.ts:53-60 | the tally's keys are the distinct elements of the input, each once |
| OrderedCount.TallyCountsPositive | src/core/producer/use-cases/dashboard.usecase.ts:32 | every entry's count is the number of occurrences of its key, and at least one |
| OrderedCount.TallyOrder | src/core/producer/use-cases/dashboard.usecase.ts:53-60 | keys come in the order of their first occurrence in the input |
| OrderedCount.TallyTotal | src/core/producer/use-cases/dashboard.usecase.ts:53-60 | the counts of the tally add up to the length of the input |
| OrderedCount.TallyRepeatFirst | src/core/producer/use-cases/dashboard.usecase.spec.ts:56-67 | for distinct `a` and `b`, counting `a, b, a` gives `a` twice before `b` once, and counting `a, b, a, b` gives each twice, `a` first |
| Dashboard.Summary | src/core/producer/use-cases/dashboard.usecase.ts:50-65 | the reference result: `totalFarms` is the number of farms and also the sum of the per-state counts, the per-crop counts add up to the number of first-harvest crop names, and land use lists arable then vegetation |
| Dashboard.AggregatesNothing | src/core/producer/use-cases/dashboard.usecase.ts:21-26 | the starting values aggregate the empty list of farms |
| Dashboard.AggregateFarm | src/core/producer/use-cases/dashboard.usecase.ts:30-45 | one loop step (count the farm, add its areas, count its state, count its crops) keeps the running values equal to the aggregate of the farms seen |
| Dashboard.AddFarm | src/core/producer/use-cases/dashboard.usecase.ts:30-46 | the inner loop body: from the aggregate of the farms seen, gives the aggregate with one more farm, its first harvest's crops counted one by one |
| Dashboard.AddProducer | src/core/producer/use-cases/dashboard.usecase.ts:29-47 | the loop over one producer's properties extends the aggregate by all of them, in order |
| Dashboard.AggregateAll | src/core/producer/use-cases/dashboard.usecase.ts:28-48 | the nested loops leave the running values equal to the aggregate of every producer's properties |
| Dashboard.Execute | src/core/producer/use-cases/dashboard.usecase.ts:17-74 | a failed `findAll` is rethrown unchanged; otherwise the result is `Summary` of every producer's properties, in order |
| Dashboard.ByStateCoversFarms | src/core/producer/use-cases/dashboard.usecase.ts:32-56 | `byState` has one entry per distinct state of a farm, no other key, and its counts add up to `totalFarms` |
| Dashboard.ByCropCoversFirstHarvests | src/core/producer/use-cases/dashboard.usecase.ts:38-60 | `byCrop`'s keys are exactly the crop names of the first harvests, each once, and its counts add up to the number of those names |
| Dashboard.LaterHarvestsIgnored | src/core/producer/use-cases/dashboard.usecase.ts:38-45 | harvests after the first add no crop to the count |
| Dashboard.SumAreasWithinTotal | src/core/producer/use-cases/dashboard.usecase.ts:31-34 | when every farm passed the area check, the arable and vegetation sums together stay within the total area sum |
| Dashboard.LandUseWithinHectares | src/core/producer/use-cases/dashboard.usecase.ts:50-65 | when every farm passed the area check, the two land-use totals together never exceed `totalHectares` |
| Dashboard.SummaryOfThree | src/core/producer/use-cases/dashboard.usecase.ts:50-65 | for three farms without harvests: 3 farms, the summed areas, states counted in first-occurrence order, no crops, and land use listed arable then vegetation |
| Dashboard.AggregationExample | src/core/producer/use-cases/dashboard.usecase.spec.ts:19-74 | the test's three farms (GO, MT, GO) give 3 farms, 230 hectares, GO twice before MT once, and land use 140 arable then 90 vegetation |
| Dashboard.CountExamples | src/core/producer/use-cases/dashboard.usecase.spec.ts:56-67 | the test's states count GO 2 then MT 1, and its crops Soja, Milho, Soja, Milho count Soja 2 then Milho 2 |
| CreateProducer.Starts | src/core/producer/use-cases/create-rural-producer.usecase.ts:40-75 | one first identifier per farm, the first farm starting at the given index |
| CreateProducer.StartsStep | src/core/producer/use-cases/create-rural-producer.usecase.ts:40-75 | each farm starts right after the identifiers its predecessor drew |
| CreateProducer.StartsOrdered | src/core/producer/use-cases/create-rural-producer.usecase.ts:40-75 | farms draw disjoint, increasing runs of identifiers after the producer's |
| CreateProducer.PlantedCropsFor | src/core/producer/use-cases/create-rural-producer.usecase.ts:55-61 | one planted crop per requested name, in order, each with a new identifier and area zero |
| CreateProducer.PlantedCropNames | src/core/producer/use-cases/create-rural-producer.usecase.ts:55-61 | the names of the planted crops are exactly the requested names |
| CreateProducer.BuildProperty | src/core/producer/use-cases/create-rural-producer.usecase.ts:41-74 | fails with the area message exactly when the farm's areas are inconsistent; otherwise the property echoes the farm, the city defaults to empty and the producer id is empty, with one harvest of the given year planting the crops exactly when crops were requested |
| CreateProducer.BuildNext | src/core/producer/use-cases/create-rural-producer.usecase.ts:40-75 | one turn of `farms.map`: fails exactly when the next farm fails the area check, and otherwise extends the properties built so far by the property built for that farm |
| CreateProducer.BuildProperties | src/core/producer/use-cases/create-rural-producer.usecase.ts:40-75 | fails with the area message exactly when some farm's areas are inconsistent; otherwise builds one property per farm, in input order |
| CreateProducer.Prepare | src/core/producer/use-cases/create-rural-producer.usecase.ts:30-78 | an invalid document is rejected first, then an area violation; otherwise a fresh producer with the first identifier, the given name and document, and one built property per farm (none when `farms` is absent) |
| CreateProducer.Execute | src/core/producer/use-cases/create-rural-producer.usecase.ts:25-103 | a rejected input leaves the store untouched; otherwise `create` is called exactly once with the built producer; on success that producer is returned and its row stored; the store's error, a conflict included, is rethrown unchanged and no row changes |
| UpdateProducer.Patch | src/core/producer/use-cases/update-rural-producer.usecase.ts:22-23 | name and document are replaced exactly when the supplied value is truthy; properties are kept |
| UpdateProducer.PatchIdempotent | src/core/producer/use-cases/update-rural-producer.usecase.ts:22-23 | applying the same update twice stores the same row as applying it once |
| UpdateProducer.EmptyPatchKeepsRow | src/core/producer/use-cases/update-rural-producer.usecase.ts:22-23 | an update whose fields are absent or empty leaves the row unchanged |
| UpdateProducer.PatchKeepsInvalidDocument | src/core/producer/use-cases/update-rural-producer.usecase.spec.ts:42-52 | updating a producer with the valid document "12345678901" to the document "123" stores "123", which the entity rejects |
| UpdateProducer.CatchUpdateError | src/core/producer/use-cases/update-rural-producer.usecase.ts:28-37 | the not-found message becomes a 404 `HttpException` with that message; every other error is rethrown unchanged |
| UpdateProducer.Execute | src/core/producer/use-cases/update-rural-producer.usecase.ts:15-39 | `findById` is called first; a missing producer gives the 404 error with no `update` call; otherwise `update` is called once with the patched producer (same id, same properties) and that producer is returned; errors pass through the catch block and failures change no row |
| DeleteProducer.Execute | src/core/producer/use-cases/delete-rural-producer.usecase.ts:8-20 | exactly one `delete` call with the given id; on success the row is gone and every other row is kept; the store's error is rethrown unchanged and then no row changes |
| ProducerController.FarmToResponse | src/presentation/producer/controllers/rural-producer.controller.ts:381-407 | a farm's response copies its id, name, state and areas, and lists its first harvest's crop names (none without a first harvest) |
| ProducerController.MapProducerToResponse | src/presentation/producer/controllers/rural-producer.controller.ts:376-410 | id, name and document are copied, and there is one farm per property, in order |
| ProducerController.BuiltFarmEchoesRequest | src/presentation/producer/controllers/rural-producer.controller.ts:381-407 | the response farm of a property built from a request farm echoes that farm's fields and crop names, with the property's new identifier |
| ProducerController.MapCreateError | src/presentation/producer/controllers/rural-producer.controller.ts:158-177 | the message is kept; the status is 409 exactly when the error carries numeric status 409, and 400 otherwise |
| ProducerController.MapUpdateError | src/presentation/producer/controllers/rural-producer.controller.ts:329-344 | a 404 `HttpException` passes through unchanged; anything else becomes a 400 with the same message |
| ProducerController.UpdateErrorStatus | src/presentation/producer/controllers/rural-producer.controller.ts:329-344 | after the use case's catch block, a failed update answers 404 exactly for the not-found message or a 404 `HttpException`, and 400 otherwise, always with the original message |
| ProducerController.Create | src/presentation/producer/controllers/rural-producer.controller.ts:151-179 | an invalid document or an area violation answers 400 with its message and leaves the store untouched; otherwise one `create` call is made with a fresh producer whose farms are built from the request, each tied to its input farm; a store failure answers through the create error rule and changes no row; on success that producer's row is stored and the response echoes the request with the new identifiers |
| ProducerController.DuplicateCreateIsConflict | src/presentation/producer/controllers/rural-producer.controller.ts:158-169 | on an empty store, a second create with the same document answers 409 with the duplicate-document message and leaves the first producer's row, with one property per requested farm, as the only one |
| ProducerController.CreatedResponseEchoesRequest | src/presentation/producer/controllers/rural-producer.controller.ts:154-157 | the response for a producer built from a request carries the request's name, document, farms and crops, with the drawn identifiers |
| ProducerController.FindById | src/presentation/producer/controllers/rural-producer.controller.ts:220-231 | an unknown id answers 404 with the not-found message; a read failure propagates unchanged; otherwise the mapped producer of the stored row is returned |
| ProducerController.Update | src/presentation/producer/controllers/rural-producer.controller.ts:324-345 | the lookup is always logged and only a stored producer with a valid document gets one `update` call, with the patched fields; on success the patched producer is returned and its row stored; a missing producer answers 404; a stored invalid document answers 400; a store failure goes through the use case's catch block and then the update error rule, and changes no row |
| ProducerController.Delete | src/presentation/producer/controllers/rural-producer.controller.ts:369-373 | a successful delete removes the row, keeps every other row and answers with the fixed removal message; a store error propagates unchanged and changes no row |
| ProducerController.DeleteThenFindByIdIsNotFound | src/presentation/producer/controllers/rural-producer.controller.ts:220-231 | after a successful delete, reading the same id back answers 404 with the not-found message |

## Left out

- The database adapter (src/infrastructure/producer/persistence/prisma-rural-producer.repository.ts) is not part of this model; the port is modelled as an abstract store. The adapter's own quirks are therefore absent: its `create` writes only the producer row (lines 14-24), so the farms of a new producer are not stored; its `findById` returns an empty property list (line 33); its `findAll` builds properties without harvests.
- The repository's `findAll` is left out: the dashboard use case takes its result as its input. The controller's `dashboard` handler only passes the use case's result through, and its `findAll` handler maps each producer through the modelled `ProducerController.MapProducerToResponse`.
- Timestamps (`createdAt`, `updatedAt`, `new Date()`) are left out. The current year and the identifiers from `uuidv4()` are parameters: `uuid(n)` is the identifier returned by the n-th call, in the order of evaluation.
- Areas are exact `real` numbers, not floating point. The dashboard's `|| 0` fallback only differs from the plain value for `undefined` or `NaN`, which a `real` cannot be.
- `farms`, `crops` and `harvests`, which the source checks with `Array.isArray`, are modelled as present or absent; a non-array value is treated as absent. A harvest's `plantedCrops` is always a list, because the constructor defaults it to empty; where the source falls back to no crops for a missing `plantedCrops` list, an empty list gives the same result, so the model does not distinguish the two. An undefined `properties` list cannot occur, because the constructor defaults it to empty.
- `Logger` and `console` output, Swagger decorators, the NestJS module wiring and bootstrap are left out.
- The DTO validators are class-validator decorators and are left out. `RuralProducerEntity.PayloadRuleIsWider` states the one consequence that matters for documents.
- RuralProducerEntity.PayloadRuleIsWider: measures the payload's 11-to-14 rule in UTF-16 code units, like the entity; how the validator library itself counts characters outside the Basic Multilingual Plane is not modelled.
- `async`/`await` is modelled as plain sequential calls; there is no concurrency.
- Dashboard.AggregationExample: the test's farms carry harvests; the lemma states the result for the same farms without them, and `Dashboard.CountExamples` states the test's crop counts separately.
