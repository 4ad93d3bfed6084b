# Pawfund backend: a verified model

The Pawfund backend is a small distributed system: HTTP services over Postgres, an image bucket, a
RabbitMQ queue, a Redis cache and a deployment worker that puts campaigns on chain. This project
models the parts whose correctness depends on how these pieces interleave, and proves what every run
of them guarantees.

- **Campaign deployment** (`Pipeline*.dfy`). Idempotent creation, fundraiser deletion, the broker and
  any number of workers are one step relation: a step is one SQL statement, one commit, one
  object-store call, one broker event or one chain call. Clients and workers may crash anywhere,
  deliveries may repeat, a commit may take effect without its acknowledgement, and statuses other
  than pending and active are set by the environment. `PipelineInvariant` holds the inductive
  invariant, `PipelineProof`, `PipelineCommits`, `PipelineSteps` and `PipelineRuns` show that every
  step keeps it, `PipelineTheorems`, `PipelineOwners` and `PipelineDeploys` draw the conclusions, and
  `PipelineScenarios` builds the runs that show what is not promised. The same transactions run one at a time are
  the classes in `CampaignRepository`, `CampaignService`, `DeploymentWorker` and `ObjectStore`; each
  commit of a concurrent run is shown to have the effect of one such call.
- **Profile images** (`ProfileImage*.dfy`). Promotion, commit, discard and reference-checked deletion
  over two tables and the bucket: serially with any keys and any failures, concurrently under a stated
  discipline, and two runs that show each half of that discipline is needed.
- **Queue client** (`QueueClient.dfy`, `QueueProtocol.dfy`). Reconnect, Close, Notify and consumers,
  interleaved at lock regions and channel operations.
- **Sign-In with Ethereum** (`MessageCache.dfy`, `Siwe.dfy`, `SiweRuns.dfy`). Issue and atomic consume.
- **Lists** (`Pagination.dfy`, `Ordering.dfy`, `CampaignLists.dfy`, `Donors.dfy`). Options with int64
  arithmetic, pages fetched by separate queries, donor grouping.
- **Texts** (`Text`, `Decimals`, `Uuid`, `Timestamp`, `Utf8`, `ObjectKeys`, `DeploymentCodec`,
  `StubDeployer`, `PublicUrl`). The codecs the rest relies on, with their round trips.

## Assumptions

- Isolation is read committed with row locks. A statement takes effect when its lock is granted, sees
  the rows committed by then, and a lock lasts until the transaction ends.
- The unique indexes and CHECK constraints are those of `migrations/`: one campaign per fundraiser and
  idempotency key, unique contract addresses and event ids, unique (tx_hash, log_index), positive goals
  and donation amounts, chain data present on live campaigns. The wallet index compares addresses as
  stored, while every query compares them in lower case; so a wallet may select more than one live user,
  and the queries are modelled as choosing any of them.
- Generated UUIDs are not already stored or in use by another call; the insert would fail otherwise.
- Outside calls may succeed, fail, or take effect and still report an error. Clocks, random nonces, the
  SIWE library and the chain are parameters or nondeterministic steps.
- `LOWER` and `strings.ToLower` act on ASCII letters; wallet and contract addresses are ASCII.

## Properties that fail, and exactly when

- A published message is acknowledged without activating its pending campaign exactly when the worker
  does not await it; a sub-second end time is such a case, because storage keeps microseconds and the
  message keeps seconds (`PipelineTheorems.UnawaitedTaskIsDropped`, `DeploymentCodec.PublishedTaskMatches`).
  `PipelineScenarios.SubSecondTaskIsLost` is a run for every such call that Create accepts.
- Chain deployment may happen more than once for a campaign (`PipelineScenarios.DeployedTwice`). A handler
  deploys exactly when its message is awaited at its load (`PipelineDeploys.DeploysExactlyWhenAwaited`), so
  never from a load made after the campaign has left pending. The recorded activation happens at most once.
- A replayed Create may answer otherwise exactly when its fundraiser is deleted or another live fundraiser
  stores the same wallet in another case (`PipelineTheorems.ReplayExactly`,
  `PipelineScenarios.CaseVariantBreaksReplay`).
- A timestamp survives its RFC 3339 text exactly for the years 0 to 9999 (`Timestamp.ParseFormat`).
- Profile images can be lost when a committed key is submitted again while its object is being deleted,
  or when two requests in flight share a key (`ProfileImageHazards`).
- A profile request leaves an orphan exactly when it copies an image and its row is not stored, or when it
  displaces the last reference to an image and its commit is not acknowledged or the delete is refused
  (`ProfileImageRuns.OrphansExactly`).
- The donor list counts a donor twice exactly when two live supporters store wallets that differ only in
  case, which the wallet index allows (`Donors.DonorListConserves`, `Donors.CaseVariantsAreCountedTwice`).
- The page count is right exactly when the total is at most MaxInt64 - pageSize + 1 (`Pagination.TotalPagesExact`).
- The reconnect loop, documented to run until Close, may stop before Close exactly when the connection has
  died before the loop has subscribed to its closure (`QueueProtocol.EarlyExitExactly`,
  `QueueProtocol.LoopCanExitEarly`).

## Model

| member | source | states |
|---|---|---|
| `PipelineRuns.InvOverRun` | internal/service/campaign_deployment_worker.go:58-165 | The inductive invariant over tables, bucket, messages and every process state holds at each point of each run of creators, deleters, workers, broker and environment. |
| `PipelineTheorems.NoTaskLost` | internal/infra/queue/consumer.go:212-230 | In every run, a message whose readable task has the worker's chain id and matches a pending stored campaign is queued or in flight. |
| `PipelineTheorems.PublishedTaskSurvives` | internal/service/campaign.go:212-245 | What Create publishes for a whole-second end time stays queued or in flight, through crashes, nacks and redeliveries, until its campaign leaves pending. |
| `PipelineTheorems.UnawaitedTaskIsDropped` | internal/app/deployer.go:147-162 | Conversely, a delivered message that is not awaited is acknowledged by its handler's next steps with no campaign changed. |
| `PipelineScenarios.SubSecondTaskIsLost` | internal/service/campaign.go:172-210 | For every accepted call with a sub-second end time, a run from the empty database that ends with the confirmed message acknowledged and the campaign pending. |
| `PipelineDeploys.DeploysExactlyWhenAwaited` | internal/service/campaign_deployment_worker.go:81-120 | In every run a handler goes from its load to a deploy call if and only if its message is awaited at that moment. |
| `PipelineDeploys.EveryDeployWasAwaited` | internal/service/campaign_deployment_worker.go:93-129 | Every deploy call for a campaign follows a load by the same handler made while that campaign was pending and the message awaited. |
| `PipelineDeploys.NoDeployOnceLeft` | internal/service/campaign_deployment_worker.go:93-120 | Once a campaign has left pending, no load starts another deployment of it. |
| `PipelineScenarios.DeployedTwice` | internal/service/campaign_deployment_worker.go:121-138 | For every accepted call with a whole-second end time, a run in which two workers deploy the campaign, the first dying between deploy call and commit. |
| `PipelineTheorems.ActivatedAtMostOnce` | internal/infra/database/campaign_postgres.go:480-541 | Two activations of one campaign in a run are the same step, for any number of workers and duplicate deliveries. |
| `PipelineTheorems.ChainDataFrozen` | internal/infra/database/campaign_postgres.go:495-541 | A recorded event id and contract address never change for the rest of the run. |
| `PipelineTheorems.ChainDataComesFromDeployment` | internal/service/campaign_deployment_worker.go:93-155 | Pending means no chain data; active means both; and any recorded address and event hold, column by column, what a deploy call made for that same campaign reported. |
| `PipelineTheorems.OneCreationEventEach` | internal/infra/database/campaign_postgres.go:505-541 | Every recorded creation event belongs to exactly one campaign. |
| `PipelineTheorems.DeletedOwnsNothingLive` | internal/infra/database/fundraiser_postgres.go:224-272 | In every interleaving of creation, completion and deletion, a deleted fundraiser owns no pending or active campaign. |
| `PipelineTheorems.NeverActivatedForDeleted` | internal/infra/database/campaign_postgres.go:480-541 | The fundraiser of a campaign is not deleted before or after the step that activates it. |
| `PipelineTheorems.OneRowPerKey` | internal/infra/database/campaign_postgres.go:556-624 | However many clients create at once, a fundraiser has one row per idempotency key. |
| `PipelineTheorems.CallersGetTheRow` | internal/infra/database/campaign_postgres.go:556-644 | A successful caller holds the stored row for its key with the payload it asked for; a conflicting caller met a row under its key with another payload; in both cases the row belongs to a fundraiser that the caller's wallet spells. |
| `PipelineOwners.OwnersOverRun` | internal/infra/database/campaign_postgres.go:556-570 | From the lock on, the fundraiser a call works for is one whose stored wallet its own wallet spells, in every state of every run. |
| `PipelineOwners.WalletIndexOverRun` | migrations/20260731091603_create_users.sql:17 | The wallet index holds in every state of every run. |
| `PipelineTheorems.SameKeySameCampaign` | internal/infra/database/campaign_postgres.go:572-584 | Two successful callers with one fundraiser and key hold the same campaign. |
| `PipelineTheorems.PostInsertConflictUnreachable` | internal/infra/database/campaign_postgres.go:625-636 | The conflict branch after the insert is never entered while creators hold the fundraiser lock. |
| `PipelineTheorems.ActivationIsSerial` | internal/infra/database/campaign_postgres.go:454-542 | Each activation commit of a concurrent run equals CompleteDeployment run alone on the tables of that moment. |
| `PipelineTheorems.CreationIsSerial` | internal/infra/database/campaign_postgres.go:544-645 | Each creation commit equals CreatePending run alone with the earliest end time of that very call, under an idempotency key that is free at that moment. |
| `PipelineTheorems.DeletionIsSerial` | internal/infra/database/fundraiser_postgres.go:224-272 | Each deletion commit equals the deletion transaction run alone: it marks that fundraiser as deleted, changes nothing else, and finds no pending or active campaign of theirs. |
| `PipelineTheorems.ReplaySucceeds` | internal/service/campaign.go:154-245 | Once a Create has committed, the same call succeeds at any later point at which the fundraiser is live and alone in spelling the wallet, whatever the clock and the state of staging: it finds that fundraiser and campaign, leaves the tables unchanged, and republishes exactly when the campaign is pending without an address. |
| `PipelineTheorems.ReplayExactly` | internal/infra/database/campaign_postgres.go:556-584 | Every answer the queries may give makes the replay return the committed campaign if and only if its fundraiser is live and no other live fundraiser spells the wallet. |
| `PipelineScenarios.CaseVariantBreaksReplay` | internal/infra/database/campaign_postgres.go:556-570 | The failing input: with the wallet registered again in another case, which the index allows, a replay may answer otherwise although the owner is live. |
| `PipelineTheorems.ReplayPromotes` | internal/infra/storage/object_promoter.go:70-73 | The image of a stored campaign still exists, so promoting it again succeeds and changes nothing, even with staging discarded. |
| `PipelineTheorems.StubChainData` | internal/infra/blockchain/campaign_deployer.go:44-85 | In stub mode every recorded address has 42 characters and, like the hash, depends only on the campaign id, with log index 0 in block 1, so a redelivery records the same. |
| `PipelineTheorems.StubLookupIsUnique` | internal/infra/database/campaign_postgres.go:130-138 | In stub mode the case-insensitive lookup by address finds at most one campaign. |
| `CampaignRepository.Repository.CreatePending` | internal/infra/database/campaign_postgres.go:544-645 | For a fundraiser and a row that the two queries may return: each answer with the exact condition for it, the tables unchanged unless a row is inserted, and that row field by field. |
| `CampaignRepository.Repository.CompleteDeployment` | internal/infra/database/campaign_postgres.go:454-542 | Each outcome with the exact condition for it, the tables unchanged unless it is recorded, and then the campaign and the event field by field. |
| `CampaignRepository.CompletionByFields` | internal/infra/database/campaign_postgres.go:460-541 | The same for the specification function: log index, block number, hash and time each in its own column, the address trimmed, every other campaign and event unchanged. |
| `CampaignRepository.CreationByFields` | internal/infra/database/campaign_postgres.go:572-644 | The same for the specification function of creation. |
| `CampaignService.Service.Create` | internal/service/campaign.go:154-210 | Tables, bucket, published message and answer are those of CreateCall on the state before, for query answers the tables allow. |
| `CampaignService.SuccessfulCreate` | internal/service/campaign.go:154-235 | A successful Create answers with the stored row, each field taken from the input field of its name, its image in the bucket and staging gone; the task published names the row's own values and goes out exactly for a pending row without an address; a new row is pending, without chain data, and respects the lead time. |
| `CampaignService.CreateSucceedsExactly` | internal/service/campaign.go:154-235 | When a Create answers with a campaign, told from the input, the bucket and the query answers alone. |
| `DeploymentWorker.Worker.Handle` | internal/service/campaign_deployment_worker.go:58-165 | A task that is not due, by chain, fundraiser, goal, end time, status and address, is dropped with nothing changed; a due one is an error without a deployment and otherwise ends as CompleteDeployment; success leaves no wanted campaign in need of deployment. |
| `DeploymentWorker.HandleByFields` | internal/service/campaign_deployment_worker.go:72-165 | The same for the specification function, whatever the tables hold. |
| `DeploymentWorker.WantedTaskIsActivated` | internal/service/campaign_deployment_worker.go:93-155 | A wanted task with usable, unused chain data makes its campaign active with exactly that data, and nothing else changes. |
| `DeploymentWorker.Worker.HandleDelivery` | internal/app/deployer.go:147-162 | An unreadable body is acknowledged with nothing changed; a readable one has the effect of Handle, acknowledged on success and requeued on error. |
| `DeploymentCodec.DecodeEncode` | internal/app/campaign_deployment.go:81-132 | A published task is readable exactly when its year is 0 to 9999, its chain id and goal are positive and its wallet is not blank; it is then read back with the wallet trimmed and the end time floored to the second. |
| `DeploymentCodec.DecodedFields` | internal/app/campaign_deployment.go:81-117 | Which messages are read at all, and which field of the task each of their fields becomes. |
| `DeploymentCodec.EncodedFields` | internal/app/campaign_deployment.go:119-132 | The message names each id in its own field and carries wallet, goal and chain id unchanged. |
| `DeploymentCodec.PublishedTaskMatches` | internal/service/campaign_deployment_worker.go:174-178 | The worker reads and matches the task published for a campaign exactly when it is readable and the stored end time is a whole second. |
| `DeploymentCodec.SubSecondEndTimeNeverMatches` | internal/app/campaign_deployment.go:119-132 | The message published for a stored end time with a sub-second part never matches its campaign. |
| `Timestamp.ParseFormat` | internal/app/campaign_deployment.go:95-98 | Reading the RFC 3339 text of an instant gives the instant floored to the second when its UTC year is 0 to 9999, and is rejected otherwise. |
| `Uuid.ParseToString` | internal/app/campaign_deployment.go:87-94 | A UUID's text parses back to it. |
| `StubDeployer.AddressInjective` | internal/infra/blockchain/campaign_deployer.go:71-77 | Stub addresses of different campaigns differ even in lower case. |
| `StubDeployer.TxHashInjective` | internal/infra/blockchain/campaign_deployer.go:79-85 | Stub hashes of different campaigns differ. |
| `StubDeployer.AddressShape` | internal/infra/blockchain/campaign_deployer.go:71-85 | A stub address has 42 characters and a stub hash 66; the address has no capital letter and trimming changes neither. |
| `ObjectKeys.PresignedCanonicalises` | internal/service/upload.go:65-91 | Every presigned key is accepted in its own directory and becomes the same path without tmp/. |
| `ObjectKeys.PresignedRejectedElsewhere` | internal/service/object_key.go:34-60 | Every presigned key is rejected in the other directory. |
| `ObjectKeys.CanonicalInjective` | internal/service/object_key.go:34-60 | Two keys with one canonical form are equal once trimmed. |
| `ObjectKeys.AcceptedExactly` | internal/service/object_key.go:34-60 | A key is accepted exactly when, trimmed, it is tmp/, the directory, a UUID text without slash and a known extension, with no two dots in a row. |
| `ObjectKeys.CanonicalLeavesStaging` | internal/service/object_key.go:29-60 | Staging and canonical keys lie in disjoint name spaces, and so do the two directories. |
| `ObjectStore.PromotionIsIdempotent` | internal/infra/storage/object_promoter.go:60-92 | A promotion adds at most its destination, and succeeds again after the source is gone. |
| `ObjectStore.Bucket.Promote` | internal/infra/storage/object_promoter.go:60-92 | It succeeds exactly for two different non-blank keys one of which is in the bucket, and then adds the destination; a missing object is reported exactly when neither is. |
| `ProfileImages.ProfileService.Register` | internal/service/fundraiser.go:72-120 | Rows, bucket and outcome for any way the outside calls end; the stored row holds role, trimmed wallet and the key without tmp/, a blank key counting as none. |
| `ProfileImages.ProfileService.ReplaceProfile` | internal/service/fundraiser.go:134-178 | Rows, bucket and outcome for a row the query may select; only that row's image changes, to the key without tmp/ or to null, and only when the field is set. |
| `ProfileImages.ProfileService.DeleteProfile` | internal/service/fundraiser.go:180-201 | Each outcome with the exact condition for it; a stored deletion marks the row as deleted, clears its image, keeps role and wallet, and changes no other row. |
| `ProfileImages.RegisterByFields` | internal/infra/database/fundraiser_postgres.go:22-55 | The row a registration stores, field by field, and that nothing changes when it fails. |
| `ProfileImages.ReplaceByFields` | internal/infra/database/fundraiser_postgres.go:116-212 | What a replacement does to its row, and that nothing changes when it fails. |
| `ProfileImages.DeleteByFields` | internal/infra/database/fundraiser_postgres.go:214-305 | What a deletion does to its row, when, and that nothing changes otherwise. |
| `ProfileImageRuns.NoProfileDangles` | internal/infra/database/supporter_postgres.go:189-340 | In every serial history, with shared and repeated keys and failing calls, an image a row refers to exists, lies under profiles/, and the row is not deleted. |
| `ProfileImageRuns.DeletedForGood` | internal/infra/database/supporter_postgres.go:268-340 | In every serial history a deleted row stays deleted and no later profile query selects it. |
| `ProfileImageRuns.SucceedsExactly` | internal/service/supporter.go:53-193 | When each request succeeds, told from what it finds, and that its staging object is then gone unless the discard was refused. |
| `ProfileImageRuns.ReferenceChecksAgree` | internal/infra/database/fundraiser_postgres.go:188-298 | The reference checks with and without the deleted_at filter agree on every key, on committed rows and inside either transaction. |
| `ProfileImageRuns.OrphansExactly` | internal/service/supporter.go:129-193 | However the outside calls end, a request leaves an unreferenced image behind exactly when the facts before it say so: it copies an image and its row will not be stored, or it displaces the last reference to an image and the commit is not acknowledged or the delete not carried out. |
| `ProfileImageRaces.NoRaceDangles` | internal/service/supporter.go:129-173 | In every interleaving without shared or resubmitted keys, every image a row refers to exists. |
| `ProfileImageRaces.CampaignImagesSurvive` | internal/service/object_key.go:104-116 | In every interleaving, disciplined or not, no step of a profile request removes a campaigns/ object. |
| `ProfileImageRaces.WalletsOverRun` | migrations/20260731091603_create_users.sql:17 | The wallet index holds in every state of every interleaving of profile requests. |
| `ProfileImageRaces.DeletedForGood` | internal/infra/database/fundraiser_postgres.go:224-272 | In every interleaving a deleted row stays deleted and no later lock query selects it. |
| `ProfileImageRaces.DeletionCommits` | internal/infra/database/supporter_postgres.go:302-308 | The commit of a deletion marks its row as deleted, clears its image and changes no other. |
| `ProfileImageHazards.ResubmissionDangles` | internal/service/fundraiser.go:134-178 | Without the ban on resubmission there is a run of two owners with different wallets, the wallet index holding throughout and no key shared in flight, that loses a live row's image. |
| `ProfileImageHazards.SharingDangles` | internal/infra/storage/object_promoter.go:70-92 | Without the ban on sharing there is a run of two owners with different wallets, the wallet index holding throughout and no committed key resubmitted, that loses a live row's image. |
| `QueueClient.Client.Notify` | internal/infra/queue/client.go:210-224 | A new channel is subscribed, or already closed once when the client is closed. |
| `QueueClient.Client.Close` | internal/infra/queue/client.go:229-249 | The first call closes every subscriber in turn, empties the list, signals done and closes a live connection; later calls change nothing. |
| `QueueClient.Client.Swap` | internal/infra/queue/client.go:264-274 | The new connection is taken over unless the client is closed. |
| `QueueClient.Client.NotifyReconnect` | internal/infra/queue/client.go:361-374 | Every subscriber in turn is offered a token without blocking, unless the client is closed. |
| `QueueClient.ClosedAllOnce` | internal/infra/queue/client.go:234-237 | For duplicate-free subscribers the closing loop closes each exactly once and touches no other channel. |
| `QueueClient.OfferedAllOnce` | internal/infra/queue/client.go:368-373 | For duplicate-free subscribers the notifying loop offers each exactly one token. |
| `QueueClient.RedialWithBackoff` | internal/infra/queue/client.go:305-339 | Pauses are 1, 2, 4, 8, 16 seconds and 30 from then on; the first round that succeeds or is stopped decides. |
| `QueueProtocol.NoLostWakeup` | internal/infra/queue/consumer.go:232-269 | A blocked consumer that last saw an older connection has a token, a closed channel, or the loop between swap and notify. |
| `QueueProtocol.NeverSleepsOnLive` | internal/infra/queue/client.go:253-279 | A consumer never stays blocked over a live current connection without a wakeup due. |
| `QueueProtocol.TokenWaits` | internal/infra/queue/client.go:361-374 | A token stays in its channel until the consumer that owns the channel takes it. |
| `QueueProtocol.ReceiveDecides` | internal/infra/queue/consumer.go:241-249 | A receive takes the token and sends the consumer back to read the connection, or stops it on a closed channel without one; nothing else changes. |
| `QueueProtocol.TestDecides` | internal/infra/queue/consumer.go:237-259 | A consumer blocks exactly over a dead connection and starts a session exactly over a live one when not retrying. |
| `QueueProtocol.ChannelsClosedOnce` | internal/infra/queue/client.go:210-249 | In every run no channel is sent to after its close; each is open before Close and closed exactly once from Close on. |
| `QueueProtocol.NoConnectionLeaks` | internal/infra/queue/client.go:226-279 | Once Close has finished and the loop has exited, no connection ever dialed is live. |
| `QueueProtocol.EarlyExitExactly` | internal/infra/queue/client.go:285-300 | Before Close the loop may stop if and only if it has not yet subscribed to the closure of the current connection and that connection is dead; stopping is then its only step. |
| `QueueProtocol.EarlyExitMeansDead` | internal/infra/queue/client.go:253-300 | When the loop has exited before Close, the current connection is dead and the loop takes no further step. |
| `QueueProtocol.LoopCanExitEarly` | internal/infra/queue/client.go:291-295 | There is a run in which the loop exits although Close was never called. |
| `MessageCache.CacheClient.Set` | internal/infra/cache/cache.go:33-47 | Only the built key's entry changes, and only for a non-blank key and a positive time to live. |
| `MessageCache.CacheClient.GetDelete` | internal/infra/cache/cache.go:62-78 | A present entry is returned and removed in one step; otherwise nothing changes. |
| `MessageCache.BuildKeyInjective` | internal/infra/cache/cache.go:80-91 | Two keys share an entry only when they differ in surrounding space. |
| `MessageCache.KeyShape` | internal/infra/cache/cache.go:80-91 | A key is usable exactly when not blank; its entry lies under the prefix and a colon and ends with the trimmed key. |
| `Siwe.AuthService.CreateMessage` | internal/service/auth.go:75-112 | It succeeds exactly for a hexadecimal address, a positive time to live and a template that answers; the message is then stored under its nonce, and an error stores nothing. |
| `Siwe.AuthService.Verify` | internal/service/auth.go:114-176 | It succeeds exactly for a non-blank message and a valid signature that the library takes, read for this URI and chain, equal to the entry stored for its nonce, with a token issued; the answer is the message's address. |
| `Siwe.SignatureShape` | internal/service/auth.go:208-214 | A signature is valid exactly when it is 0x and 130 hexadecimal digits. |
| `Siwe.VerifyOnce` | internal/service/auth.go:141-150 | A rejection before the consume step leaves the store unchanged; a success presents a stored message byte for byte and cannot be repeated. |
| `SiweRuns.SignInsAtMostIssues` | internal/service/auth.go:75-176 | In every interleaving, with expiry and lost answers, each nonce has no more successful sign-ins than issued messages. |
| `SiweRuns.SignInsWereIssued` | internal/service/auth.go:141-150 | Every successful sign-in presented a message issued for its nonce. |
| `SiweRuns.SignInsWereSigned` | internal/service/auth.go:122-139 | Every successful sign-in carried a valid signature that the library took for a message with this URI, this chain and that nonce. |
| `SiweRuns.RejectionLeavesStore` | internal/service/auth.go:119-139 | A call rejected before the consume step changes nothing. |
| `SiweRuns.VerifyIsSerial` | internal/service/auth.go:114-176 | A call whose steps are not interrupted leaves the store, and succeeds, as Verify run alone. |
| `Pagination.ParsePage` | internal/http/handler/campaign_dto.go:184-204 | Page and size are refused exactly when out of range or when the offset exceeds MaxInt64; invalid fields keep their defaults. |
| `Pagination.PositiveNumbers` | internal/http/handler/campaign_dto.go:245-251 | A number is accepted exactly when its trimmed text is decimal digits, with a plus sign or none, that spell an int64 of at least one. |
| `Pagination.PageDefaults` | internal/http/handler/campaign_dto.go:18-23 | Absent parameters mean page 1 of size 10, and sizes above 100 are refused. |
| `CampaignLists.ListOptionsFromQuery` | internal/http/handler/campaign_dto.go:149-210 | Options are handed out exactly for an acceptable sort, filter and page, and each of the four fields is named exactly when it is refused. |
| `CampaignLists.StatusFromAllowed` | internal/http/handler/campaign_dto.go:212-219 | A status is found exactly when an allowed one has that name. |
| `CampaignLists.SortNames` | internal/http/handler/campaign_dto.go:158-171 | Which text asks for which sort; none asks for random order. |
| `CampaignLists.ListedInOrder` | internal/infra/database/campaign_postgres.go:350-363 | Every listing has its rows in the order of the sort's columns, ties broken by creation time and id. |
| `CampaignLists.IdValueOrder` | internal/infra/database/campaign_postgres.go:355-361 | Of two ids the one with the greater digit where they first differ is the greater. |
| `Donors.DonorListOptionsFromQuery` | internal/http/handler/campaign_dto.go:301-346 | Options are handed out exactly for an acceptable sort and page, and each field is named exactly when it is refused. |
| `Pagination.TotalPagesExact` | internal/http/httpx/response.go:28-39 | The int64 page count is the rounded-up quotient exactly when the total is at most MaxInt64 - pageSize + 1. |
| `Pagination.PagesPartition` | internal/infra/database/campaign_postgres.go:314-323 | Pages 1 to TotalPages have acceptable offsets, are not empty and concatenate to the list. |
| `Pagination.LaterPagesEmpty` | internal/infra/database/campaign_postgres.go:314-323 | Every later acceptable page is empty. |
| `Pagination.PagesDisjoint` | internal/infra/database/campaign_postgres.go:314-323 | No row of a duplicate-free list is on two pages. |
| `Ordering.SortedUnique` | internal/infra/database/campaign_postgres.go:350-372 | Two lists of the same rows that are sorted by a key are equal. |
| `CampaignLists.PagesCoverList` | internal/infra/database/campaign_postgres.go:276-363 | For every sort but random, pages fetched by separate queries over a fixed table make up the whole ordered list, none empty. |
| `Donors.LatestIsLast` | internal/infra/database/campaign_postgres.go:192-204 | A group has a shown donation exactly when it has one at all, and that donation belongs to it. |
| `Donors.LatestIsGreatest` | internal/infra/database/campaign_postgres.go:194-197 | The shown donation has the greatest time, block number, log index and id of its group, in this order. |
| `Donors.RowShowsLastDonation` | internal/infra/database/campaign_postgres.go:190-215 | A row shows the time of the last donation of its group, and the wallet of a live supporter who spells its address or, when there is none, the spelling of that donation. |
| `Donors.LatestUnique` | internal/infra/database/campaign_postgres.go:194-197 | No other donation ties with it, so the scan order does not matter. |
| `Donors.RowShowsItsAddress` | internal/infra/database/campaign_postgres.go:205-215 | A row's address, the supporter's or the donation's, is a spelling of its group's address. |
| `Donors.DonorListConserves` | internal/infra/database/campaign_postgres.go:175-216 | The list has the reported number of rows, and its amounts sum to the donations, exactly when no two live supporters spell a donor's address; otherwise it overstates both. |
| `Donors.CaseVariantsAreCountedTwice` | migrations/20260731091603_create_users.sql:17 | Wallets that differ only in case satisfy the wallet index and make one donation count twice. |
| `Donors.DonorPagesCoverList` | internal/infra/database/campaign_postgres.go:218-225 | With at most one live supporter per address, the pages announced by the reported total make up the ordered donor list. |
| `Donors.DonorsListedInOrder` | internal/infra/database/campaign_postgres.go:365-372 | Recent lists by descending time and then amount, top by descending amount and then time, ties by ascending address. |
| `PublicUrl.PublicURLBuilder.Build` | internal/infra/storage/public_url.go:31-55 | A missing or blank key has no URL; any other gives the base, a slash and the escaped path of the trimmed key. |
| `PublicUrl.PathRoundTrip` | internal/infra/storage/public_url.go:41-53 | Splitting the path at slashes and decoding each segment gives the key back. |
| `PublicUrl.UrlInjective` | internal/infra/storage/public_url.go:53-54 | Different trimmed keys have different URLs. |
| `PublicUrl.NoDotSegments` | internal/infra/storage/public_url.go:42-51 | No segment below the base is a dot segment of section 5.2.4 of RFC 3986. |
| `PublicUrl.SegmentCharacters` | internal/infra/storage/public_url.go:42-51 | Every segment consists of characters that section 3.3 of RFC 3986 allows and percent signs, and a plain segment stands unchanged. |
| `Utf8.DecodeEncode` | internal/infra/storage/public_url.go:49 | The bytes that are escaped determine the text. |

## Left out

- HTTP routing, handlers, middleware and JSON syntax: messages and queries start from their decoded fields.
- Field-length, e-mail and URL-format validation, configuration, start-up and shutdown: one branch each.
- JWT signing, SIWE parsing and signature recovery, checksummed addresses: foreign libraries, taken as parameters.
- The live factory deployer: a deploy step that may succeed with any result, fail, or succeed before a crash.
- The e-mail column and its unique index: a taken address is one of the ways a profile commit is refused.
- A missing promoter or deleter in the image services: both are always present in the model.
- The consumer's loops are steps of the queue protocol rather than methods, because they run until cancelled.
- Dialing, TLS, deadlines and cancellation watching: a dial succeeds or fails.
- `Timestamp.ParseRFC3339`: the comma fraction and one-digit hours that Go also accepts are not read.
- `Uuid.Parse`: lengths count characters, where Go counts bytes; the two agree on the ASCII texts that parse.
- `Siwe.AuthService.CreateMessage`: the template and the address checksum are one given function.
- Overflow of a donor's sum beyond BIGINT, ILIKE search, random order, list methods that only scan rows.
- On-chain deployment at most once: the code does not promise it.
