# Metadata delivery pipeline: a Dafny model

A data-plane agent scrapes sources, batches what it finds and pushes it to a control plane, which fans every batch out
to a relational store (the system of record), a graph, a search index and an audit log. This project models that
pipeline from one scrape cycle to the stores, together with the search-query rewriting and the lineage query that read
them, and proves what the pipeline is built to guarantee.

## How it is laid out

| file | what it holds |
|---|---|
| Types, Catalog, Ingest, Agent | the values that travel, and the effect of every operation as a function: one store write, one entity, one request, one source run, one cycle |
| Stores, Service, Cursors, Connectors, Batching, Pushing, Validation, Disk, Runner | the same operations as they run - objects whose fields change, loops, exits by exception - each proved against those functions |
| Projections, GraphFold, Reapply, Faults, SearchCatalog | the graph and search projections as a cache of the relational store |
| Contents, Origins | what the stores show of each record, field by field, and which request everything in them goes back to |
| Tenancy, Delivery | tenants, and exactly-once delivery of one batch |
| NothingLost, Conservation, Moves, Sources | what every run of the agent keeps and counts, its runs as sequences of pushes, and the two connectors |
| Wire, Together | agent, network and server as one system: one push exactly, and whole runs |
| Convergence, EndToEnd, Hazards | convergence of the catalog to the sources, and what its hypotheses are for |
| Query, Boosting, Popularity, Ranking | query trees, what they match, and their rewriting |
| Lineage, SourceStatus | the two read paths of the catalog API that compute something |

Exceptions are results: `Throw`, `Raised`, `None` or a `raised` flag carry the state the exception leaves behind.
Clock readings, random draws, fresh ids, the outcome of a post, the point at which a source raises and the store write
that raises are parameters, so a statement for all parameters is a statement for every environment. The agent's
environment (`Agent.World`) answers its posts; on a network (`Wire.WorldOn`) the answer is what the server, after everything
that reached it before, replies, if request and response come through. Nothing else is assumed about pushes.

## Hypotheses

The code does not give its guarantees unconditionally. Each hypothesis below is explicit in the lemmas that need it, and
where the code breaks without it a lemma says so.

- Dead letters are retried in file-name order and the stores do not compare extraction times: convergence starts from an
  empty dead-letter directory (`Hazards.ListingOrderDecides`, `Hazards.RetryRevivesDeletedUrn`).
- A source that raises halfway has pushed entities its saved cursor does not hold: convergence asks for runs that complete
  from some point on, and says exactly which rows earlier runs have spoiled (`Hazards.RaisingRunLeaks`,
  `Hazards.LeakedUrnHealsIffFound`, `EndToEnd.CatalogFollowsSources`).
- From that point on pushes get through in the end (`Wire.PushedIffThrough`), and what a scrape emits is valid and
  accepted (`Hazards.RejectedFindIsMissing`).
- Each urn belongs to one source (`Hazards.SharedUrnIsDeleted`) and keeps one entity type (`Faults.SharedUrnBreaksAgreement`);
  table and column urns are disjoint (`Sources.UrnsCollideWithDots`, `Connectors.InterleavingIsHarmlessIff`).
- Others on the wire, of any tenant, do not use this agent's idempotency keys, and for a statement about one row do not send
  entities of that row. Other tenants never do, when no tenant id holds a colon (`Wire.ForeignTenantsKeepOff`,
  `Types.KeysCollideIff`).
- Batch ids are fresh, the server starts without a record under any of them, and the posts of one batch fall within the TTL
  (`Ingest.ReprocessedIffExpired`). Conservation and convergence of a later stretch need this for single pushes at most.
- Exactly-once fan-out asks that the server can store whatever its validation accepts (`Reapply.AlwaysDoneIffStorable`).
- A projection write that raises after the relational write is skipped on retry (`Faults.RetryRepairsProjections`); equal
  content hashes mean equal payloads.

Two promises of the documentation are not met by the code, and the model follows the code. The relevance hook is handed a
whole request body and wraps that body, not its query, in `function_score`, so with any positive popularity score the
result holds no `query` (`Ranking.WrappedBodyRunsIff`). Field boosting of a `multi_match` whose `fields` is one string
takes the string apart into characters, and one given as an object is replaced by its keys (`Boosting.ClauseKeptIff`).

## Model

| member | source | states |
|---|---|---|
| EndToEnd.CatalogFollowsSources | data-plane/agent/runner.py:57-118 | After any history of cycles - pushes failing and raising, sources raising anywhere, messages lost and repeated, other requests of any tenant on the wire - once a retry phase leaves no dead letter and from there on runs complete and pushes get through: every push succeeds, no dead letter is left, each source's saved cursor is exactly its last scrape, and a row mirrors that scrape (live under the hash of the payload last found, or not live) if and only if one of the complete runs found its urn, or the cursor knew it at the start, or the row was not live. |
| EndToEnd.NewCatalogMirrorsSources | data-plane/agent/runner.py:57-118 | In particular, when every cycle of a new tenant's agent is complete, no dead letter is left and every row of a source mirrors its last scrape. |
| EndToEnd.HistoryIsReady | data-plane/agent/runner.py:57-118 | Any history whose scrapes are lawful, however its pushes and runs ended, leaves lawful cursors and no idempotency record under an id still to be drawn. |
| EndToEnd.CompleteRunShape | data-plane/agent/runner.py:89-118 | A complete source run pushes successfully exactly what its scrape emits and then the lineage edges; that fans out onto a row, in that order and once, and the saved cursor is the one the scrape left. |
| EndToEnd.RunHolds | data-plane/agent/runner.py:89-118 | It moves each row of its source and the source's cursor through the scrape, and leaves the rows and cursors of other sources as they were. |
| EndToEnd.OneTableArrives | data-plane/agent/runner.py:89-118 | An instance: the hypotheses of the convergence theorem can be met together, and one table found once is live under its payload's hash. |
| Convergence.ScrapeConverges | data-plane/connectors/core/types.py:291-307 | After a complete scrape a row agrees with the cursor if and only if the scrape found the urn under its kind, or the cursor it started from knew it, or the row was not live - for every kind and urn, whatever the row held. |
| Convergence.ScrapesConverge | data-plane/connectors/core/types.py:291-307 | Over any number of complete scrapes: the row agrees with the cursor if and only if some scrape found its urn, or cursor or tombstone accounted for the row at the start. |
| Convergence.LastRecordDecides | control-plane/storage/relational/store.py:79-126 | After any batch, the last record on a row decides: it is live exactly when that record is an upsert, then with that record's hash, and in either case carries that record's time. |
| Convergence.PushEffect | data-plane/agent/push_client.py:57-119 | A successful push over a lossy network shared with other tenants has, on everything its tenant can find in every store, audit events included, the effect of fanning the batch out once. |
| Wire.PushIsExact | data-plane/agent/push_client.py:57-119 | Any push of a batch the server can store, successful or not, on a network shared with anyone, its own tenant included: the batch is fanned out exactly once if some post arrives and no unexpired record answers for it, and otherwise not at all; the record and each row no one else writes change accordingly. |
| Wire.PushedIffThrough | data-plane/agent/push_client.py:57-119 | A non-empty batch the server can store is reported as pushed if and only if no exception ends the push and some post within the attempt limit comes through both ways, whatever the server holds. |
| Wire.SuccessIsInFull | control-plane/api/ingest/service.py:110-146 | Every successful answer, a replay included, lists as many accepted urns as entities of its batch pass the server's validation and as many rejected ones as do not - whether or not the server can store the batch and whether or not its record expired in between. |
| Wire.RequestIsTheEnvelope | data-plane/agent/push_client.py:47-55 | What the server receives for a push is what the client builds: the batch's id, type and entities in their order, read back from their documents, with the agent's data plane and the configured version. |
| Wire.ForeignTenantsKeepOff | control-plane/api/ingest/idempotency.py:37-38 | Other tenants never use this agent's idempotency keys nor write its rows, when no tenant id holds a colon. |
| Moves.MoveKeepsLogged | data-plane/agent/runner.py:101-157 | First pushes and dead-letter retries keep: an id is drawn before it is used and stands for one batch, in the history and on disk, and every outcome is the one the environment gave. |
| Together.RunsConserveAcrossPlanes | data-plane/agent/runner.py:89-118 | For every source run that completes, after any history over any network: the report's accepted figure grows by the number of entities of its answered batches that pass the server's validation, its rejected figure by the number of those that do not - two separate equations - and discovered = invalid + accepted + rejected + entities of dead-lettered batches. |
| Together.CyclesReportWhatPassed | data-plane/agent/runner.py:28-71 | For every cycle, whatever fails or raises in it: accepted and rejected are exactly the passing and the failing entities of the batches its source runs had answered; what retries had answered is not counted in them. |
| Together.BatchesAreFannedOutOnce | control-plane/api/ingest/service.py:107-152 | Over every run of agent, network and server within the TTL: a batch is fanned out once if any of its posts arrived and never otherwise, and a row no one else writes holds what one fan-out of the accepted entities wrote, batch by batch in the order of first arrival. |
| Together.SavedEntitiesAreFannedOutOnce | data-plane/agent/runner.py:73-118 | Within the TTL, with failing and raising pushes: each valid entity of a saved source run has been fanned out exactly once, in one batch, or waits on disk, and no batch has been fanned out twice. |
| Convergence.PushSucceedsIffDelivered | data-plane/agent/push_client.py:57-119 | A push of a batch the server can store succeeds if and only if some post within the attempt limit comes through both ways. |
| NothingLost.SavedEntitiesAreNeverLost | data-plane/agent/runner.py:73-118 | In every reachable state - pushes failing or raising, sources raising anywhere, dead letters unreadable, dead-lettering itself raising - each valid entity of a source run whose cursor was saved is in a batch answered 200/202 or in a dead-letter file. |
| NothingLost.NoUrnLeavesUnannounced | data-plane/agent/runner.py:106-118 | A urn that some saved cursor held and the source's current one does not was deleted by a later saved run, and that delete is acknowledged or waits on disk. |
| NothingLost.RunSourceKeepsInv | data-plane/agent/runner.py:89-118 | One source run, however it ends, keeps: dead letters under their own fresh ids, valid entities of saved runs safe, each cursor what the last saved run of its source left. |
| NothingLost.RetryKeeps | data-plane/agent/runner.py:73-87 | Retrying dead letters in any listing order, with any outcomes, leaves every entity that was acknowledged or queued acknowledged or queued: a file is removed only after its push succeeded. |
| NothingLost.CycleKeepsInv | data-plane/agent/runner.py:57-71 | A whole cycle keeps that invariant. |
| Conservation.CompletedRunConserves | data-plane/agent/runner.py:89-118 | For a completed source run the pushed batches in order are exactly the valid entities in discovery order; the report's accepted, rejected and invalid figures grow by what the answers list as accepted, by what they list as rejected, and by the invalid entities, each by itself; with the server's answers (Together.RunsConserveAcrossPlanes) every discovered entity is counted once. |
| Conservation.RunIsBooked | data-plane/agent/runner.py:89-157 | For every source run and every exit: accepted, rejected, dead-lettered and pushed-batch figures each grow by exactly what the outcomes in its slice of the history say, the retry figures stand still, and a cursor is saved exactly when the run completes. |
| Conservation.RunPushesGoodBatches | data-plane/agent/batcher.py:45-91 | Every batch a source run pushes - closed by size, by time or by the final flush, however the run ends - holds between 1 and max(1, limit) entities, all of the run's connector type. |
| Conservation.NoBatchIsPushedEarly | data-plane/agent/batcher.py:45-91 | For every source run and every clock: each pushed batch is full, or holds the valid entities between two readings that lie the interval apart, or is the last of a run whose scrape came to its end. |
| Conservation.CycleReportAddsUp | data-plane/agent/runner.py:28-87 | For every cycle, figure by figure: retried and still-failing count the two outcomes of the retry phase; pushed batches, dead letters, accepted and rejected those of the source runs; every source is counted, and those not counted as failed are exactly those whose cursor was saved. |
| Delivery.CampaignIsExactlyOnce | control-plane/api/ingest/service.py:107-152 | Over every interleaving of posts, lost requests, lost responses, dead-letter retries and other requests, a batch is processed exactly once if any request arrived and never otherwise, and every answer seen carries the lists of that one processing. |
| Delivery.SuccessMeansProcessedOnce | data-plane/agent/push_client.py:57-119 | When the client reports success - on a first push or on a dead-letter retry - the batch was processed exactly once, and the lists it reports are those of that processing. |
| Delivery.SuccessAnswersInFull | control-plane/api/ingest/service.py:116-146 | A successful answer lists every entity of the batch, as accepted or as rejected. |
| Delivery.PushFollowsReplies | data-plane/agent/push_client.py:68-119 | A post that is lost on either way or meets a server error is made again while attempts are left; the first one answered 202 or 400 ends the push, with success exactly when it is 202. A refused envelope is never posted twice. |
| Ingest.ExactlyOnce | control-plane/api/ingest/service.py:107-152 | Over every run of requests, an idempotency key is processed exactly once if asked for at all, and every reply to it has the body of the first one. |
| Ingest.StoredBatchesReplay | control-plane/api/ingest/idempotency.py:62-75 | Once a record is stored, every request with its key within the TTL is answered from it, whatever else is served in between. |
| Ingest.ReprocessedIffExpired | control-plane/api/ingest/idempotency.py:62-71 | A stored batch id is processed again if and only if more than the TTL has passed since its record was written; otherwise the request changes nothing. |
| Ingest.SplitConserves | control-plane/api/ingest/service.py:116-126 | Every entity is accepted or rejected, never both, and the accepted ones are exactly those the validation accepts. |
| Ingest.SplitKeepsOrder | control-plane/api/ingest/service.py:116-126 | Both lists keep the envelope's order, position by position: an item that passes stands behind as many as pass before it, and the verdict on one that fails behind as many as fail before it. |
| Ingest.AdmissionIsExact | control-plane/api/ingest/service.py:76-105 | An answer of 202 means a well-shaped envelope of the API key's own data plane and of the configured schema version; otherwise envelope_validation_failed, data_plane_id_mismatch or unsupported_schema_version, by the first of the three that is not met, and the server stays as it is. |
| Ingest.OnlyAdmissibleRequestsCount | control-plane/api/ingest/service.py:76-105 | Every run of requests ends as if those with a malformed envelope, a foreign data plane or another schema version had never been made, and processes each batch id as often. |
| Ingest.AnswerListsTheBatch | control-plane/api/ingest/service.py:116-152 | The body of a processed request has the batch id, the urns of the entities that pass and the verdicts on the others, in envelope order. |
| Origins.EverythingHasARequest | control-plane/api/ingest/service.py:66-152 | For every run of requests from the empty server, server errors included: each row bears an upserted entity that some admitted request carried and that passed, under that request's tenant and data plane, column by column; each event is of such an entity; each idempotency record is of an admitted request. Nothing of a foreign data plane is ever stored. |
| Origins.RequiredFieldsAreStored | data-plane/agent/validation.py:20-54 | Every field the agent demands of an entity is in the columns of its row with the entity's value, but for the connection and the source type of columns and jobs. |
| Origins.ValidEdgesAreStorable | data-plane/agent/validation.py:20-54 | A lineage edge the agent finds valid, its urns strings and its types known, is one the fan-out worker can store. |
| Origins.ValidEntitiesAreFound | data-plane/agent/validation.py:20-54 | The document of a valid table, column, dataset or job goes by its own name field and has a source type; tables and datasets have a qualified name. |
| Origins.ValidColumnsHaveTables | data-plane/agent/validation.py:20-54 | A valid column whose table urn is a string hangs off that table in the graph. |
| Contents.FieldsAreColumns | control-plane/storage/relational/models.py:140-250 | Every payload field told apart here fills a column of some entity table, but for the connection, whose column is filled from the record itself, and the first sighting, which only documents show. |
| Tenancy.NonInterference | control-plane/api/ingest/service.py:66-152 | Over every run of requests of any mix of tenants, one tenant's replies and everything it can find in every store afterwards - rows, graph, documents, idempotency records, its audit events in order - are what they would be had it been alone. |
| Tenancy.ServeFrame | control-plane/api/ingest/service.py:66-152 | One request changes no row, node, relationship, document, audit event or idempotency record of another tenant. |
| Types.ScopedKeyInjective | control-plane/api/ingest/idempotency.py:37-38 | The tenant-and-colon keys of the string-keyed stores never collide when tenant ids hold no colon. |
| Types.ScopedKeyCollidesWithColons | control-plane/storage/search/store.py:106-107 | With a colon in a tenant id they do collide. |
| Types.KeysCollideIff | control-plane/storage/search/store.py:106-107 | Exactly when: two distinct tenants have a key in common if and only if one tenant id continues the other after a colon. |
| Reapply.SkipRefinesAlwaysWrite | control-plane/workers/fanout/worker.py:159-181 | From an empty catalog, over every sequence of records, the worker that skips unchanged entities ends with the rows, graph and documents of one that always writes, up to timestamps and data plane. |
| Projections.RunRefines | control-plane/workers/fanout/worker.py:129-191 | The same from any catalog whose projections agree, batch by batch. |
| Projections.RunKeepsAgree | control-plane/workers/fanout/worker.py:146-191 | Every sequence of records keeps the agreement: a searchable row has its document and a document its row, with equal tombstone flags and the payload behind the row's hash, and a live row's payload is in the graph. |
| Reapply.DocumentsMirrorRows | control-plane/storage/search/store.py:54-71 | After every sequence of records a searchable document exists if and only if its row does, their flags agree, and the document shows the payload whose hash the row holds: description, owner, qualified name and source type as they are, its tags or none, and as its name the kind's own name field, else the qualified name, else the empty string. |
| Reapply.DocumentsShowTheirRows | control-plane/storage/search/store.py:110-136 | A live row's document shows the payload of every record with the row's hash, in the same literal sense, and no value that the row's columns do not hold. |
| Contents.CatalogShowsItsRecords | control-plane/workers/fanout/worker.py:146-191 | For every sequence of records that goes through: each live row is explained by one upsert of the sequence whose hash, origin and fields its columns, its document, its node or edge and its relationships all show, field by field; a tombstoned row's document, node and edges are all flagged. |
| Contents.NothingIsMadeUp | control-plane/workers/fanout/worker.py:146-191 | The converse, exceptions included: no edge, relationship or column value is in the stores that no upsert put there - an edge only with upstream and downstream as its record names them - and every node is an entity of the sequence or one end of a relationship or edge. |
| Contents.EdgeIs | control-plane/storage/graph/store.py:176-204 | The edge an upsert writes runs from the node its payload names as downstream to the one it names as upstream. |
| Contents.LinksAre | control-plane/storage/graph/store.py:115-174 | The relationships an upsert merges are exactly: its table has the column, the entity is owned by its owner, the producer job produces the downstream end and consumes the upstream end. |
| Contents.FirstSightingsStand | control-plane/storage/graph/store.py:134-152 | Over every sequence of records: a node keeps the time it was first seen and an edge the time it was discovered; a new node has the time of a record of its own, or none when it came as an end of something else. |
| Contents.InterruptedWriteLeaves | control-plane/storage/graph/store.py:107-267 | A graph write that raises after n of its transactions, n at least one, has left its node or edge, and of the relationships its record names exactly those committed by then: a column's table before the owner, an edge's two job relationships together. |
| Reapply.ReapplyingABatchIsIdempotent | control-plane/workers/fanout/worker.py:129-191 | Processing any batch twice leaves rows, documents and graph as after once, up to timestamps and data plane, and the audit trail grows by one event per entity each time. |
| GraphFold.GraphBatchTwice | control-plane/storage/graph/store.py:107-272 | Writing a batch to the graph a second time leaves every node, relationship and edge as after once: properties merge, relationships are only added, the last write or flag decides. |
| GraphFold.FoldNodeShape | control-plane/storage/graph/store.py:134-152 | A batch in closed form on one node: its merged properties over the old ones, the flag and source of the last merge, or a bare node for an endpoint. |
| Reapply.EveryEntityIsAudited | control-plane/workers/fanout/worker.py:177-204 | A batch that goes through appends exactly one event per entity, in order, each naming its entity and operation; an upsert is audited as unchanged exactly when its row was live under the same hash in the catalog the entities before it had left. |
| Reapply.AlwaysDoneIffStorable | control-plane/workers/fanout/worker.py:133-170 | Apart from failing stores, processing an entity raises exactly when its type is unknown or it is a lineage edge without its endpoints. |
| Faults.RetryRepairsProjections | control-plane/workers/fanout/worker.py:159-175 | When a graph write, after any of its transactions, or a search write raised after the relational write, a clean retry restores agreement if and only if the record is a delete, has no hash, or the index showed its document already and - if the graph write raised - the graph showed what was still to be merged. |
| Faults.NewEntityStaysUnsearchable | control-plane/workers/fanout/worker.py:161-175 | So a new searchable entity hit by such a fault stays out of search after the retry. |
| Faults.SharedUrnBreaksAgreement | control-plane/storage/search/store.py:54-71 | One urn used for a table and for a dataset breaks the refinement: the hypothesis of one type per urn is needed. |
| Hazards.ListingOrderDecides | data-plane/agent/dead_letter.py:44-45 | In any state of agent and server, once the retries of a listed directory have got through, a row is live if and only if the last entity on it - in file-name order, among the accepted entities of the batches whose id has no unexpired record at its retry - is an upsert; if there is none the row is untouched. |
| Hazards.DirectoriesAreListed | data-plane/agent/dead_letter.py:29-51 | After any cycles every dead letter sits under its batch's own id, drawn from the supply, as that theorem asks. |
| Hazards.RetryRevivesDeletedUrn | data-plane/agent/runner.py:73-87 | An upsert and the later delete of its urn, both dead-lettered and listed delete first: after the retries the urn is live under the upsert's hash exactly when the server holds no unexpired record of the upsert, is tombstoned when it holds one of the upsert only, and is untouched when it holds both. |
| Hazards.RaisingRunLeaks | data-plane/agent/runner.py:106-118 | A source run that raises, at any point, leaves a row live behind its cursor's back exactly when the last of what it had pushed on the row is an upsert and the saved cursor does not know the urn; a row it pushed nothing on is unchanged. |
| Hazards.RaisingRunShape | data-plane/agent/runner.py:106-118 | What it has pushed by then is a prefix of what it emitted, fanned out in order, and no cursor has been saved. |
| Hazards.RaisingRunSavesNothing | data-plane/agent/runner.py:106-118 | A source run that raises leaves every saved cursor as it was. |
| Hazards.LeakedUrnHealsIffFound | data-plane/connectors/core/types.py:291-307 | Such a row agrees with the cursor again exactly when one of the later complete scrapes finds its urn, and stays live until then. |
| Hazards.SharedUrnIsDeleted | data-plane/connectors/core/types.py:291-307 | When another source's scrape does not find a urn, the row keeps agreeing with the first source's cursor if and only if the other source's cursor did not hold the urn. |
| SearchCatalog.SearchShowsTheLiveRows | control-plane/storage/search/store.py:77-103 | After every sequence of records a search without text shows a tenant exactly its live searchable rows and nothing of anyone else's. |
| Connectors.InterleavingIsHarmlessIff | data-plane/connectors/postgres/connector.py:111-161 | Diffing the cursor that extraction keeps changing gives the items, order and final cursor of collecting everything first, if and only if no vanished entry of one kind was found again under another. |
| Connectors.ScrapeEmitsExactlyTheDrift | data-plane/connectors/postgres/connector.py:111-205 | A scrape emits an upsert per find, in order, with the find's kind, urn and payload, the time of its own extraction and the hash of its payload, and then deletes of exactly the known entries of its kinds that were not found. |
| Connectors.ScrapeLeavesTheFinds | data-plane/connectors/postgres/connector.py:195-205 | Afterwards the cursor holds exactly the finds, each as last extracted, besides entries of kinds this connector does not diff. |
| Sources.PostgresDrift | data-plane/connectors/postgres/connector.py:111-161 | A database scrape deletes exactly the tables and columns that the cursor knows and the walk did not meet. |
| Sources.S3Drift | data-plane/connectors/s3/connector.py:107-128 | A bucket scrape deletes exactly the known datasets whose prefix is no longer configured or holds no object. |
| Sources.TablesLeadTheirColumns | data-plane/connectors/postgres/connector.py:111-144 | A database walk finds each table right before its columns, tables and columns in their own order. |
| Sources.DotFreeNamesAreHarmless | data-plane/connectors/postgres/connector.py:188-193 | When no schema, table or column name holds a dot, table and column urns are disjoint, cursors stay consistent, and the moving cursor makes no difference. |
| Sources.UrnsCollideWithDots | data-plane/connectors/postgres/connector.py:188-193 | With a dot in a table name a table urn equals a column urn. |
| EndToEnd.ConnectorsAreLawful | data-plane/connectors/postgres/connector.py:111-193 | What the convergence theorem asks of a walk the connectors give: a bucket walk always, a database walk when no name holds a dot. |
| Cursors.DiffIsExact | data-plane/connectors/core/types.py:291-307 | The diff returns exactly the entries of the kind whose urn was not seen, each once. |
| Cursors.Cursor.Record | data-plane/connectors/core/types.py:256-262 | Recording overwrites in place or appends, and keeps the dictionary well-formed. |
| Cursors.Cursor.Forget | data-plane/connectors/core/types.py:264-265 | Forgetting removes the one entry, closes the gap and leaves the others in place. |
| Cursors.Cursor.Diff | data-plane/connectors/core/types.py:291-307 | The loop computes the exact diff, in the cursor's own order. |
| Connectors.Connector.Discover | data-plane/connectors/postgres/connector.py:111-161 | Resuming the generator yields the next find, or the next tombstone diffed from the cursor as it is now. |
| Connectors.Connector.Extract | data-plane/connectors/postgres/connector.py:163-205 | Extraction returns the normalised entity and changes the shared cursor accordingly. |
| Batching.AddThenPoll | data-plane/agent/batcher.py:45-91 | For any clock readings: buffer empty iff untyped iff unstarted; a closed batch has 1 to max(1, limit) entities of one connector type and is either full or the interval has passed since its first entity's reading; what is left is below both limits; no entity is lost, repeated or reordered. |
| Batching.Batcher.Add | data-plane/agent/batcher.py:45-62 | Adding refines the step function, raises exactly on a second connector type, and keeps the invariant. |
| Batching.Batcher.MaybeFlushOnInterval | data-plane/agent/batcher.py:64-71 | Polling closes the buffer exactly when it is due. |
| Batching.Batcher.Flush | data-plane/agent/batcher.py:73-77 | Flushing leaves nothing buffered. |
| Validation.ValidateEntity | data-plane/agent/validation.py:57-87 | The error list is empty exactly for valid entities; it names a missing urn, an unknown type, a missing or unprefixed hash and every required field left unfilled, each exactly when that is the case. |
| Pushing.Push | data-plane/agent/push_client.py:57-119 | Posts go on after exceptions and statuses other than 200, 202 and 4xx, and stop at the first of those or at the attempt limit and not before; the last answer decides the result, with success exactly for 200 and 202; between two posts there is one sleep, for delays that begin with the base, double each time and are cut off at the cap, plus jitter. |
| Pushing.SleepsGrowExponentially | data-plane/agent/push_client.py:128-132 | The i-th sleep lies between the base doubled i times, cut off at the cap, and 1.2 times that; while the cap cuts nothing off, n sleeps take between base * (2^n - 1) and 1.2 times that. |
| Pushing.BaseDelayNeverDecreases | data-plane/agent/push_client.py:128-132 | Capped base delays never decrease, double until they meet the cap, and stay at it. |
| Pushing.TotalSleepIsBounded | data-plane/agent/push_client.py:128-132 | The total sleep lies between the sum of the capped delays and 1.2 times that sum, where the delays double from the base up to the cap. |
| Pushing.SucceedsIff | data-plane/agent/push_client.py:68-119 | When no answer refuses the batch, a push succeeds exactly when some attempt within the limit does. |
| Disk.BatchRoundTrip | data-plane/agent/dead_letter.py:29-51 | Loading an added dead letter gives back the same batch - id, type, and every entity with its hash and timestamp. |
| Disk.DocRoundTripIff | data-plane/connectors/core/types.py:137-167 | An entity survives its document exactly when its type is spelled canonically and it carries a hash. |
| Disk.RetrySendsTheSame | data-plane/agent/push_client.py:47-55 | The envelope of a retry differs from the first one in sent_at only. |
| Disk.CursorRoundTrip | data-plane/agent/cursor_store.py:27-40 | Loading a saved cursor gives back the same entries in the same order. |
| Disk.SharedFileIff | data-plane/agent/cursor_store.py:15-25 | Two sources share a cursor file exactly when they differ only where both characters become an underscore. |
| Disk.DeadLetterQueue.Add | data-plane/agent/dead_letter.py:29-42 | Adding makes the batch readable under its id and touches no other file. |
| Disk.DeadLetterQueue.Load | data-plane/agent/dead_letter.py:47-51 | Loading returns the batch of a readable file and nothing otherwise. |
| Disk.BeforeIsLexicographic | data-plane/agent/dead_letter.py:44-45 | The order in which dead letters are retried is that of strings: by the first place where two names differ, a proper prefix first. |
| Disk.DeadLetterQueue.Remove | data-plane/agent/dead_letter.py:53-54 | Removing takes away that one file. |
| Disk.DeadLetterQueue.ListPending | data-plane/agent/dead_letter.py:44-45 | Every file is listed once, sorted by file name. |
| Disk.CursorStore.Load | data-plane/agent/cursor_store.py:27-32 | Loading gives a new cursor object with the saved entries, or an empty one. |
| Disk.CursorStore.Save | data-plane/agent/cursor_store.py:34-40 | Saving replaces the file of that source only. |
| Hazards.RejectedFindIsMissing | control-plane/api/ingest/service.py:116-126 | When the server rejects every find of a urn the row stays as it was, and agrees with the cursor - which holds the find - if and only if it showed the payload last found already. |
| Runner.PushClient.Push | data-plane/agent/push_client.py:57-119 | The push client runs the retry loop over the transport, or raises, and its history grows by this attempt. |
| Runner.AgentRunner.RunCycle | data-plane/agent/runner.py:57-71 | The object-level cycle - over the sorted directory, the live connector, batcher, push client and stores - refines the state function and keeps the nothing-lost invariant. |
| Runner.AgentRunner.RetryDeadLetters | data-plane/agent/runner.py:73-87 | The loop over the listed files refines the retry function; a raising push ends it. |
| Runner.AgentRunner.RunSource | data-plane/agent/runner.py:89-118 | The object-level source run, with discovery and extraction sharing one cursor object, refines the run function on all its exits. |
| Runner.AgentRunner.ValidateAndBatch | data-plane/agent/runner.py:120-135 | Validation, add and poll refine the step function, raising where it does. |
| Runner.AgentRunner.PushOrDeadLetter | data-plane/agent/runner.py:137-157 | One push and its report, or its dead letter, on every outcome: accepted, rejected and dead-lettered grow by exactly what the outcome lists and says, each by itself. |
| Stores.RelationalStore.UpsertEntity | control-plane/storage/relational/store.py:79-141 | Tombstone, no-op, insert or merge: the new rows and the result are those of the row step, nothing else changes, and a raising call changes nothing; created, tombstoned and skipped say what the row was before, and a written row shows the record field by field. |
| Stores.GraphStore.UpsertEntity | control-plane/storage/graph/store.py:107-131 | The sequence of merge transactions has the effect of the one-shot graph write and raises where that is undefined; raising after n transactions it leaves what those n have merged; after an upsert the node or edge and the relationships show the record. |
| Stores.GraphStore.UpsertLineageEdge | control-plane/storage/graph/store.py:176-267 | Endpoints, edge and job links merged one transaction at a time, or the edge flagged on delete; the graph gains exactly the edge the payload names, from its downstream to its upstream end. |
| Stores.SearchStore.IndexEntity | control-plane/storage/search/store.py:54-71 | An upsert replaces the document by one that shows the record's payload field by field, a delete flags it if there is one. |
| Stores.IdempotencyStore.Find | control-plane/api/ingest/idempotency.py:62-71 | The live record's body, or none; an expired record is forgotten. |
| Stores.IdempotencyStore.Put | control-plane/api/ingest/idempotency.py:73-75 | The record is overwritten and can be replayed at once. |
| Service.FanoutWorker.ProcessOne | control-plane/workers/fanout/worker.py:146-191 | The worker's flags and store calls refine the step on all four stores, wherever a store raises, also in the middle of a graph write; an upsert is reported as skipped exactly when its row was live under the same hash. |
| Service.FanoutWorker.ProcessBatch | control-plane/workers/fanout/worker.py:129-131 | Entities in order, ended by the first exception, with one outcome per entity. |
| Service.IngestService.ProcessBatch | control-plane/api/ingest/service.py:66-152 | The reply and the new state of all stores are those of the ingest state machine; only a well-shaped envelope of the key's own data plane and the configured version is accepted, and each mismatch has its own error and changes nothing. |
| Service.IngestService.Split | control-plane/api/ingest/service.py:116-126 | The loop's lists are the accepted and the rejected entities in envelope order, position by position, and together they are all of them. |
| SourceStatus.ListSourcesStatus | control-plane/storage/relational/store.py:203-258 | The grouping loops fill one group per registered plane and per further plane of a latest run, with that plane's latest runs and their figures. |
| SourceStatus.StatusIsComplete | control-plane/storage/relational/store.py:208-258 | The groups begin with the registered planes in order, each with its name and last sighting, and any further one is of a plane that has latest runs; every source with a run is listed exactly once over all groups, under its latest run's plane and with that run's figures. |
| Query.SearchIsSoundAndComplete | control-plane/storage/search/query_builder.py:57-84 | The base query matches a document if and only if its text matches, its tenant is the caller's, it is not deleted, its type is searchable and requested, and its source type is requested if any is. |
| Query.BuildSearchQuery | control-plane/storage/search/query_builder.py:48-93 | Whatever a hook returns, no body without the tenant filter is ever returned; without a hook the base query is, with limit as its size and offset as its from. |
| Query.BaseHasTenantFilter | control-plane/storage/search/query_builder.py:66-104 | The base query carries the caller's tenant filter. |
| Boosting.BoostPreservesMatches | control-plane/storage/search/relevance/boost_profile.py:101-153 | Field boosting leaves the set of matching documents as it was, for every tree whose clauses list their fields, every text matcher, document and profile. |
| Boosting.ClauseKeptIff | control-plane/storage/search/relevance/boost_profile.py:148-152 | A clause keeps its meaning for every text matcher if and only if its fields are absent in effect, a list, or a one-character string: a longer string is taken apart into characters, and of an object the keys are taken. |
| Boosting.BoostIsIdempotent | control-plane/storage/search/relevance/boost_profile.py:133-153 | Boosting a boosted query changes nothing and never raises. |
| Boosting.BoostKeepsTenantFilter | control-plane/storage/search/relevance/boost_profile.py:133-153 | Boosting never adds a tenant filter, and keeps every one in the tree but those inside an object given as the fields of a clause. |
| Boosting.ReweightKeepsField | control-plane/storage/search/relevance/boost_profile.py:84-108 | A reweighted field spec names the same field, and reweighting it again changes nothing. |
| Boosting.FieldGetsItsWeight | control-plane/storage/search/relevance/boost_profile.py:84-108 | A name, description or tags field, itself or a sub-field, with any boost or none, ends up with the weight the profile has for it; any other field stays as it is. |
| Boosting.SearchFieldsGetTheirWeights | control-plane/storage/search/relevance/boost_profile.py:84-153 | The boosted catalog search has the profile's weights on name, tags and description and leaves owner alone. |
| Boosting.BoostedSearchFindsTheSame | control-plane/storage/search/query_builder.py:86-93 | With field boosting as its hook the search is built, not refused, and finds exactly what the base query finds. |
| Ranking.PopularityPreservesMatches | control-plane/storage/search/relevance/hook.py:134-170 | Wrapping a query clause changes no match and neither adds nor loses a tenant filter. |
| Ranking.WrappedBodyRunsIff | control-plane/storage/search/relevance/hook.py:107-109 | Handed a whole request body, the popularity boost returns one that still runs with the same matches if and only if it built no function; otherwise the body holds no query. |
| Ranking.RelevantSearchRunsIff | control-plane/storage/search/relevance/hook.py:58-112 | The tenant check passes the relevance hook's result in every case, and that result finds the documents of the base query exactly when no popularity function was built. |
| Ranking.ChosenAreTheTop | control-plane/storage/search/relevance/hook.py:115-131 | The boosted urns are a true top N of the positive scores, each once, each with the weight of its own score. |
| Ranking.RankedSorts | control-plane/storage/search/relevance/hook.py:125 | The ranking is a descending permutation that keeps the order of equal scores. |
| Ranking.FactorIsBounded | control-plane/storage/search/relevance/hook.py:126-131 | At most one function fires, and the factor lies between 1 and 1 plus the popularity weight. |
| Ranking.ScoreFactorIsFactor | control-plane/storage/search/relevance/hook.py:149-170 | The functions of the body that is built, each with its filter on one urn, multiply every document's score by exactly that factor. |
| Ranking.WrappedScore | control-plane/storage/search/relevance/hook.py:149-170 | The wrapped clause, read with its modes, multiplies a base score by that factor. |
| Ranking.MorePopularRanksHigher | control-plane/storage/search/relevance/hook.py:115-170 | With a positive weight, a chosen urn's factor is 1 plus the weight times its score, so a more popular chosen urn gets a strictly larger factor than a less popular one, chosen or not. |
| Ranking.StrongMatchKeepsRank | control-plane/storage/search/relevance/hook.py:149-153 | A base score more than 1 plus the popularity weight times another always keeps its rank. |
| Popularity.ComputePopularityScores | control-plane/storage/search/relevance/popularity.py:114-132 | The accumulating loop and the normalisation compute raw sums over their maximum. |
| Popularity.ScoresRelateAsTotals | control-plane/storage/search/relevance/popularity.py:81-132 | The scored urns are those the tenant's events name, and any two scores relate as the sums of weight times decay over age of their events, with the configured, the default or the unit weight of each action. |
| Popularity.ScoresAreNormalized | control-plane/storage/search/relevance/popularity.py:124-132 | With gains that are not negative, scores lie in [0, 1] and the greatest is 1 unless all are 0. |
| Popularity.ScoresIgnoreOrder | control-plane/storage/search/relevance/popularity.py:118-123 | The order of events does not matter. |
| Popularity.ScoresIgnoreOtherTenants | control-plane/storage/search/relevance/popularity.py:118-120 | Another tenant's events never move a score. |
| Popularity.ScoresIgnoreTheClock | control-plane/storage/search/relevance/popularity.py:122-132 | With decay by half-life scores fade together: while no new event comes in, computing them at any later time gives the same normalised scores. |
| Lineage.RunKeepsEdgesWithinTenant | control-plane/storage/graph/store.py:176-248 | Over every run of the worker, also one that ends in an exception, each derivation edge joins two existing nodes of its own tenant. |
| Lineage.LineageIsShortestWalks | control-plane/storage/graph/store.py:278-315 | A node is reported at h hops if and only if it is live, h is within the clamped bound, and h is the length of a shortest walk of at least one edge. |
| Lineage.LineageFollowsTheRecords | control-plane/storage/graph/store.py:176-315 | From writing to reading, for every run and in terms of its records alone: the lineage of a urn reports an entity of the tenant at h hops exactly when the entity's last record is an upsert and the shortest chain of upserted lineage records between the two - by the ends their payloads name, in the direction asked for - has h records, within a bound of 1 to 15. |
| Lineage.WrittenEdgeIsRead | control-plane/storage/graph/store.py:176-315 | After any run with an upserted lineage record, upstream of the urn it names as downstream is the node it names as upstream, at one hop, and downstream the other way round, when the entity's last record is an upsert. |
| Lineage.LiveIffLastUpserted | control-plane/storage/graph/store.py:107-152 | Over every run, a table, column, dataset or job node is live exactly when the last record of its entity is an upsert, whatever was skipped as unchanged in between; a live row has a live node. |
| Lineage.LineageIsDual | control-plane/storage/graph/store.py:293-304 | For two urns of a tenant, under whatever labels, whose nodes are live: one is upstream of the other at h hops exactly when that one is downstream of it at h hops, for every bound. |
| Lineage.LineageGrowsWithBound | control-plane/storage/graph/store.py:283-290 | A larger bound keeps every node and its hops; from the ceiling of 15 on, and below 1, nothing changes. |
| Lineage.LineageIsTenantOnly | control-plane/storage/graph/store.py:299-303 | What a tenant's lineage reports depends on the tenant's own part of the graph only. |
| Lineage.TombstonedEdgeStillCounts | control-plane/storage/graph/store.py:269-304 | A tombstoned edge still carries lineage: the traversal does not read its flag. |

## Left out

- HTTP, header parsing, configuration, logging, the scheduler loop, the mock ingest server and the web UI: plumbing around the modelled calls.
- Database drivers: each store is the map or set that its statements describe. NOT NULL violations and column defaults of the relational tables, and index refresh delays are not modelled.
- SHA-256, uuid4, JSON Schema and pydantic: a hash function, a supply of ids and a per-entity validation are parameters.
- Timestamps are integers and an ISO string is the instant it denotes; payload keys are a closed set of names plus `Other`; a payload key that the graph would use to overwrite a node's own urn or tenant is not modelled.
- Non-string values of `urn`, `source_connection_id` and the lineage endpoint urns, operations other than upsert and delete, and payloads that are not JSON objects.
- Entity types beyond the enumerations are one case, `Unknown`: the worker raises on them. That the per-entity validation may let such a name pass is up to that validation, a parameter.
- Concurrency inside the control plane: requests are served one after another in every order; two requests with one batch id that overlap in time are not modelled.
- Postgres introspection, type mapping, file sniffing, partition inference and S3 listing: discovery is a given sequence of finds.
- Lineage edges through ingest: the shared schema asks for other endpoint fields than the stores use. The graph store's own write of edges is modelled, and convergence is stated for the rows of entities, with edges in the runs rejected or stored.
- The in-memory fakes of the fan-out worker: their skip test lacks the tombstone check of the real store.
- EndToEnd.OneTableArrives: an instance with one table and a network that loses nothing; it shows that the hypotheses are consistent, not how often they hold.
- Conservation.CompletedRunConserves: the last equation assumes answers that list every entity; Together.RunsConserveAcrossPlanes proves it without that.
- Contents.NothingIsMadeUp: the names of the table columns are data; that each field told apart fills a column of some table is proved, not of which.
- Boosting.BoostPreservesMatches: on the value of the copied tree; the in-place assignment to the copy is not captured.
- Query.SearchIsSoundAndComplete: text matching is a parameter over the clause's scalar settings and searched field names; analysis, fuzziness and scoring are not modelled, and an unknown clause matches nothing.
- Ranking.FactorIsBounded: real arithmetic, so floating-point rounding of weights and scores is not captured.
- Popularity.ComputePopularityScores: decay is a function of the age in whole seconds; of the half-life formula only that factors multiply as ages add up is used.
- Lineage.LineageIsShortestWalks: the order of the result rows by hops is not modelled.
- Disk.CursorRoundTrip: entries and their order; the stamp that saving adds is not part of the cursor value.
- Pushing.Push: the body of an answer is its two lists; an answer whose body is not JSON reads as empty lists in the code and is one of the possible answers here.
- SourceStatus.ListSourcesStatus: takes the tenant's planes and ordered runs as the two queries return them.
- Ranking.WrappedBodyRunsIff: a body without a query counts as not run; the error the search engine reports for it is not modelled.
