# Dependency probes of the `/demo` endpoint

`GET /demo` exercises the three backing services of the application in turn
and reports how each behaved:

- **Postgres**: create a `Tag` row named `demo-<rnd>`, read it back by id,
  rename it to `demo-<rnd>-updated`, delete it.
- **Redis**: create a client for `REDIS_URL` (default
  `redis://localhost:6379`), connect, write `value-<rnd>` under
  `demo:key:<now>` with a 30-second expiry, read it back, quit.
- **Kafka**: parse `KAFKA_BROKERS` (default `localhost:9092`), make sure
  `KAFKA_TOPIC` (default `demo-topic`) exists while swallowing every admin
  error, connect a producer and a consumer of a fresh group, subscribe from
  the beginning, send one message keyed by a fresh correlation id, wait up to
  five seconds for that key, disconnect both clients.

Each block reports `success`, `partial_success` or `fail`. A failure carries
`e?.message || String(e)` of the first error. The aggregate starts with every
entry set to `fail`. Each block overwrites its own entry. The response is
always `{ ok: true, result }`.

The model is split into these modules:

- `Outcomes` (outcomes.dfy) holds the shared vocabulary:
  - what an external call replies (`Result`) and what it throws (`Thrown`)
  - the three-state `Outcome` and the error text a catch block reports
  - the semantics of a try block whose first throwing step skips the rest (`Attempted`, `TryOutcome`)
- `Text` (text.dfy) holds the JavaScript string operations the handler uses: `split`, `trim` and the decimal rendering of `Date.now()`.
- `Config` (config.dfy) holds the environment-driven configuration, including the broker-list parsing.
- `PostgresProbe`, `RedisProbe` and `KafkaProbe` hold one block each. Every external reply is an input, and every run returns the calls it issued. Each `Run` method is proved equal to a specification function:
  - `Classify` gives the outcome
  - `Calls` gives the issued calls
- `Demo` (demo.dfy) holds the handler:
  - the aggregate as a class whose methods store one outcome each
  - the three blocks in order
  - the response

Behaviour of the code worth noting, each point stated in the model:

- **Kafka disconnects.** The producer and consumer disconnects are awaited inside the block's `try` (demo.controller.ts lines 114-115). An error there fails the block; it is not best-effort cleanup.
- **No cleanup on early errors.** There is no `finally` around the Postgres, Redis or Kafka main steps:
  - a Postgres error after the create leaves the row in place
  - a Redis error after the connect leaves the client open
  - a Kafka error before the send leaves already connected clients open (`KafkaProbe.DisconnectsOnlyAfterSend`)
  - only the admin client is always disconnected
- **Malformed Redis URL.** `createClient` parses the URL, so a malformed `REDIS_URL` fails the Redis block before any network call (`RedisProbe.FailureStopsAtFirstError`).
- **Admin errors.** Every admin error is swallowed, not just "topic already exists". This also covers the admin disconnect's own error.
- **Empty error text.** The reported error text can be empty, when the thrown value has neither a non-empty `message` nor a non-empty rendering.
- **Blank broker values.** The broker default applies only when `KAFKA_BROKERS` is unset or empty. A value made of commas and whitespace alone yields an empty broker list (`Config.BlankValueYieldsNoBroker`).

## Model

| member | source | states |
|---|---|---|
| Outcomes.ErrorText | src/app/routes/demo/demo.controller.ts:32 | the reported text is the thrown value's `message` when that is non-empty, its rendering otherwise; it is empty exactly when both are empty |
| Outcomes.Label | src/app/routes/demo/demo.controller.ts:8 | each outcome maps to its own one of `success`, `partial_success`, `fail`, in both directions |
| Outcomes.TryOutcomeFailsIffSomeStepThrows | src/app/routes/demo/demo.controller.ts:14-33 | a try block's outcome is a failure exactly when one of its steps throws, and otherwise is what its last statement stores |
| Outcomes.TryOutcomeKeepsText | src/app/routes/demo/demo.controller.ts:31-32 | a failure produced by a catch block always carries an error text |
| Outcomes.FirstThrowingStep | src/app/routes/demo/demo.controller.ts:19-22 | when step k is the first to throw, exactly k+1 steps run and the block fails with step k's error text |
| Outcomes.NoThrowingStep | src/app/routes/demo/demo.controller.ts:19-30 | when no step throws, every step runs and the block stores its completed outcome |
| Outcomes.CompletedStepsSetAside | src/app/routes/demo/demo.controller.ts:83-115 | completed leading steps do not change the outcome or the number of later steps that run |
| Text.Split | src/app/routes/demo/demo.controller.ts:53 | `split(',')` yields at least one piece and no piece contains the separator |
| Text.JoinSplit | src/app/routes/demo/demo.controller.ts:53 | joining the pieces of a split with the separator restores the string |
| Text.SplitJoin | src/app/routes/demo/demo.controller.ts:53 | splitting the join of a non-empty list of separator-free pieces gives the pieces back (the empty list joins to `""`, which splits into `[""]`) |
| Text.SplitBlank | src/app/routes/demo/demo.controller.ts:53 | a string of separators and whitespace splits into whitespace-only pieces |
| Text.LeadingWhitespace | src/app/routes/demo/demo.controller.ts:53 | the count `trimStart` removes is the whole leading run of whitespace: every counted character is whitespace and the next one is not |
| Text.TrailingWhitespace | src/app/routes/demo/demo.controller.ts:53 | the count `trimEnd` removes is the whole trailing run of whitespace: every counted character is whitespace and the one before is not |
| Text.Trim | src/app/routes/demo/demo.controller.ts:53 | the trimmed string is no longer than the input and neither starts nor ends with whitespace |
| Text.TrimOnlyRemovesWhitespace | src/app/routes/demo/demo.controller.ts:53 | the input is the trimmed string with whitespace before and after it, the leading part being what `trimStart` removes |
| Text.TrimClean | src/app/routes/demo/demo.controller.ts:53 | trimming a string without whitespace at its ends changes nothing |
| Text.TrimBlank | src/app/routes/demo/demo.controller.ts:53 | trimming a whitespace-only string yields the empty string |
| Text.TrimKeepsOut | src/app/routes/demo/demo.controller.ts:53 | trimming introduces no character (no comma appears in a trimmed comma-free piece) |
| Text.Decimal | src/app/routes/demo/demo.controller.ts:40 | the rendering of `Date.now()` is a non-empty run of digits without a leading zero |
| Text.DecimalRoundTrip | src/app/routes/demo/demo.controller.ts:40 | reading the rendering of a number back as decimal digits gives the number |
| Text.DecimalInjective | src/app/routes/demo/demo.controller.ts:40 | two numbers render alike exactly when they are equal |
| Config.EnvOr | src/app/routes/demo/demo.controller.ts:37 | `value \|\| fallback`: an unset or empty value falls back, any other value is used as is |
| Config.RedisUrl | src/app/routes/demo/demo.controller.ts:37 | the URL is never empty; it is `REDIS_URL` when that is set and non-empty, the default otherwise |
| Config.TopicName | src/app/routes/demo/demo.controller.ts:54 | the topic is never empty; it is `KAFKA_TOPIC` when that is set and non-empty, `demo-topic` otherwise |
| Config.TrimAll | src/app/routes/demo/demo.controller.ts:53 | `.map(b => b.trim())` keeps the length and trims every piece |
| Config.NonEmpty | src/app/routes/demo/demo.controller.ts:53 | `.filter(Boolean)` keeps no empty string and never grows the list |
| Config.NonEmptyKeepsNonEmpty | src/app/routes/demo/demo.controller.ts:53 | every non-empty piece survives the filter |
| Config.NonEmptyKeepsOnlyPieces | src/app/routes/demo/demo.controller.ts:53 | everything the filter keeps is a non-empty piece of its input |
| Config.NonEmptyAppend | src/app/routes/demo/demo.controller.ts:53 | filtering a concatenation is the concatenation of the filtered parts, so the input order is kept |
| Config.BrokerList | src/app/routes/demo/demo.controller.ts:53 | every parsed broker is non-empty, comma-free and trimmed |
| Config.BrokerListMembers | src/app/routes/demo/demo.controller.ts:53 | a string is a parsed broker exactly when it is non-empty and is the trim of one of the value's comma-pieces |
| Config.ParseBrokers | src/app/routes/demo/demo.controller.ts:53 | every broker is clean; an unset or empty value gives exactly `[localhost:9092]`; any other value is parsed as written |
| Config.BrokerListRoundTrip | src/app/routes/demo/demo.controller.ts:53 | parsing the comma-join of any list of clean brokers gives the list back (the empty list included) |
| Config.BlankValueYieldsNoBroker | src/app/routes/demo/demo.controller.ts:53 | a non-empty value of commas and whitespace alone yields no broker and no fallback |
| PostgresProbe.StepErrors | src/app/routes/demo/demo.controller.ts:19-22 | step i throws exactly when the i-th Prisma call replies with an error |
| PostgresProbe.Run | src/app/routes/demo/demo.controller.ts:14-33 | the block's outcome and issued calls are those of the try-block semantics over create, findUnique, update, delete |
| PostgresProbe.SuccessIffAllStepsComplete | src/app/routes/demo/demo.controller.ts:24-32 | `success` exactly when all four calls complete; never `partial_success` |
| PostgresProbe.FailureStopsAtFirstError | src/app/routes/demo/demo.controller.ts:19-32 | the failure carries the first error's text and no later call is issued |
| PostgresProbe.MissingRowIsNotAnError | src/app/routes/demo/demo.controller.ts:20 | a `findUnique` that finds no row does not make the block fail |
| PostgresProbe.CallsTargetCreatedRow | src/app/routes/demo/demo.controller.ts:15-22 | the create uses `demo-<rnd>`; every later call targets the created id; the update renames to the created name plus `-updated`; a successful run ends by deleting that row |
| RedisProbe.ReadBackVerdict | src/app/routes/demo/demo.controller.ts:45 | `success` exactly when the value read back is the one written, `partial_success` otherwise (including `null`) |
| RedisProbe.StepErrors | src/app/routes/demo/demo.controller.ts:38-44 | step i throws exactly when the i-th client call replies with an error |
| RedisProbe.Run | src/app/routes/demo/demo.controller.ts:36-49 | the block's outcome and issued calls are those of the try-block semantics over createClient, connect, set, get, quit, completed by the read-back verdict |
| RedisProbe.Classification | src/app/routes/demo/demo.controller.ts:38-48 | `success` iff all five calls complete and the value matches; `partial_success` iff they complete and it does not; `fail` iff any call throws |
| RedisProbe.FailureStopsAtFirstError | src/app/routes/demo/demo.controller.ts:38-48 | a failure carries the text of the first error, from `createClient` to `quit`, and no later call is issued; a throwing `createClient` issues no network call |
| RedisProbe.QuitErrorAfterMatchFails | src/app/routes/demo/demo.controller.ts:44-48 | a `quit` error after a matching read still fails the block with that error's text |
| RedisProbe.WriteAndReadShareKey | src/app/routes/demo/demo.controller.ts:40-43 | the set and the get address the same clock-derived key, and the set carries the 30-second expiry |
| KafkaProbe.Awaited | src/app/routes/demo/demo.controller.ts:91-109 | a resolved wait holds a delivered message whose key is the correlation id and which no settling event preceded |
| KafkaProbe.AwaitCorrelated | src/app/routes/demo/demo.controller.ts:93-109 | the event loop resolves to exactly what the wait specification gives |
| KafkaProbe.AwaitedSomeIff | src/app/routes/demo/demo.controller.ts:96-108 | the wait resolves iff a message keyed by the correlation id arrives before any rejection of `consumer.run` and before the deadline |
| KafkaProbe.OtherKeysIgnored | src/app/routes/demo/demo.controller.ts:97-98 | messages with other keys do not change what the wait resolves to |
| KafkaProbe.SettlesOnce | src/app/routes/demo/demo.controller.ts:99-108 | once a match or a rejection settles the wait, later events change nothing |
| KafkaProbe.TokensDoNotCrossMatch | src/app/routes/demo/demo.controller.ts:87-98 | without a message keyed by this run's correlation id, the wait does not resolve and the block cannot report `success` |
| KafkaProbe.MainCallsAddressTheRun | src/app/routes/demo/demo.controller.ts:79-89 | when issued, the consumer connects in the run's own group, subscribes to the topic from the beginning, and the one message is sent to the topic keyed by the run's correlation id |
| KafkaProbe.CallsAddressTheRun | src/app/routes/demo/demo.controller.ts:54-89 | every topic creation, subscription and send of a run names the configured topic; every consumer joins the run's group; every subscription starts from the beginning; every message is keyed by the run's correlation id |
| KafkaProbe.CorrelationIdInjective | src/app/routes/demo/demo.controller.ts:87 | the correlation id is equal for two runs exactly when their clock readings and random suffixes are |
| KafkaProbe.ConsumeVerdict | src/app/routes/demo/demo.controller.ts:117 | `success` exactly when a message was consumed, `partial_success` exactly when none was |
| KafkaProbe.StepErrors | src/app/routes/demo/demo.controller.ts:83-115 | each main step throws exactly when its call replies with an error; the wait never throws |
| KafkaProbe.AdminCalls | src/app/routes/demo/demo.controller.ts:58-77 | the admin client always connects first and disconnects last; the topic creation is issued iff the connect succeeded, and it asks for the topic with one partition, replication factor one and waiting for leaders |
| KafkaProbe.EnsureTopic | src/app/routes/demo/demo.controller.ts:58-77 | the topic setup issues exactly the admin calls, whatever they reply |
| KafkaProbe.ProduceAndConsume | src/app/routes/demo/demo.controller.ts:79-118 | the main steps yield the try-block outcome and the plan's calls up to the first error |
| KafkaProbe.ConsumeAndDisconnect | src/app/routes/demo/demo.controller.ts:91-118 | the wait and both disconnects yield the try-block outcome of the tail steps, completed by the consume verdict |
| KafkaProbe.Run | src/app/routes/demo/demo.controller.ts:52-121 | the block's outcome and issued calls are the admin calls followed by the main steps up to the first error |
| KafkaProbe.Classification | src/app/routes/demo/demo.controller.ts:110-120 | `fail` iff a connect, the subscribe, the send or a disconnect throws; otherwise `success` iff the wait resolved, `partial_success` iff it did not |
| KafkaProbe.FailureStopsAtFirstError | src/app/routes/demo/demo.controller.ts:83-120 | a failure carries the text of the first error among the connects, subscribe, send and disconnects, and no later main call is issued |
| KafkaProbe.AdminErrorsSwallowed | src/app/routes/demo/demo.controller.ts:59-77 | the replies of the admin connect, topic creation and admin disconnect never change the outcome |
| KafkaProbe.DisconnectsOnlyAfterSend | src/app/routes/demo/demo.controller.ts:83-115 | the consumer is disconnected iff both connects, the subscribe and the send completed |
| Demo.KeyName | src/app/routes/demo/demo.controller.ts:11 | the Postgres entry is keyed `postgres`, the Redis entry `redis` and the Kafka entry `kafka`, each name belonging to exactly one dependency |
| Demo.KeyNamesDistinct | src/app/routes/demo/demo.controller.ts:11 | distinct dependencies have distinct keys |
| Demo.ResultLabels | src/app/routes/demo/demo.controller.ts:123 | the JSON `result` holds each dependency's `result` string under that dependency's key name, and no other key |
| Demo.Aggregate.constructor | src/app/routes/demo/demo.controller.ts:11 | the aggregate starts with all three keys set to `fail` without error text |
| Demo.Aggregate.Record | src/app/routes/demo/demo.controller.ts:24 | storing one block's outcome changes that key alone and keeps the aggregate's invariant |
| Demo.PostgresBlock | src/app/routes/demo/demo.controller.ts:13-33 | the Postgres entry becomes the probe's outcome and nothing else in the aggregate changes |
| Demo.RedisBlock | src/app/routes/demo/demo.controller.ts:35-49 | the Redis entry becomes the probe's outcome and nothing else in the aggregate changes |
| Demo.KafkaBlock | src/app/routes/demo/demo.controller.ts:51-121 | the Kafka entry becomes the probe's outcome and nothing else in the aggregate changes |
| Demo.HandleDemo | src/app/routes/demo/demo.controller.ts:10-124 | the response is always `ok`, its result is the three blocks' outcomes over the initial aggregate, and its calls are each probe's calls |
| Demo.ResponseKeys | src/app/routes/demo/demo.controller.ts:11-123 | the answer names exactly `postgres`, `redis` and `kafka`, each with one of `success`, `partial_success`, `fail` |
| Demo.FailuresCarryText | src/app/routes/demo/demo.controller.ts:31-32 | the final aggregate has exactly the three keys and every `fail` in it carries an error text |
| Demo.BlocksIndependent | src/app/routes/demo/demo.controller.ts:13-121 | each entry depends only on its own dependency's replies, so one block's error never affects another's entry |
| Demo.MixedScenario | src/app/routes/demo/demo.controller.ts:10-124 | a healthy Postgres, an unreachable Redis and a Kafka that sees nothing before the deadline give success, fail and partial_success |

## Left out

- The route wiring in src/app/routes/routes.ts is not part of this model. The model starts at the handler.
- The response payload beyond each `result` string and error text is not modelled. This covers the rows returned by Prisma, the Redis key, value and read-back, the Kafka topic, the produced JSON and the consumed message. The model keeps only the classification and the issued calls.
- The `JSON.stringify` of the produced value is not modelled; the message is identified by its key alone.
- The real Prisma, Redis and KafkaJS clients are not modelled. Each call's reply is an input, and each call is made at most once per run.
- Every Prisma, Redis and KafkaJS call is taken to settle, with a reply or an error. The code puts a timeout only on the consume wait (line 94), so a call that never settles would leave the request unanswered. `Demo.HandleDemo`'s answer with `ok: true` holds for runs in which every call settles.
- `createClient` is modelled as a step that may throw (a malformed `REDIS_URL`) before `connect`. The KafkaJS constructors `new Kafka`, `kafka.admin()`, `kafka.producer()` and `kafka.consumer()` are taken never to throw. They issue no network call. A throw from `new Kafka` (line 55) or `kafka.admin()` (line 58) would fail the Kafka block before any call. A throw from `kafka.producer()` (line 79) or `kafka.consumer()` (line 81) would fail it after the admin connect, topic creation and admin disconnect and before any main call. The model captures neither case.
- The clock and the five-second timer are not modelled as time. The deadline is the end of the event sequence the consumer sees, and clearing the timer on a match is not modelled.
- Concurrency between `eachMessage` callbacks is not modelled; events are taken in arrival order.
- `Math.random().toString(36).slice(...)` is not modelled. Each random suffix is a string parameter, so its length and base-36 alphabet are not checked.
- `process.env` is not modelled as such. The three variables are `Option<string>` parameters.
- KafkaProbe.AdminCalls: the `createTopics` reply (`true` or `false`) is not used by the code, so the model only shows that it cannot change the outcome.
- Text.Split: only one-character separators are modelled, which is the only form the handler uses.
- Text.Decimal: `Date.now()` is taken as a non-negative integer. Its range as a double is not modelled.
- The Postgres row id is an unbounded integer. Prisma's integer width is not modelled.
