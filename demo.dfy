/** The `/demo` handler (demo.controller.ts lines 10-124): start from an
    aggregate in which every dependency reads `fail`, run the Postgres, Redis
    and Kafka blocks in turn, let each overwrite its own entry once, and
    answer `{ ok: true, result }`. No block's error reaches the handler: each
    is caught at the block's own boundary. */
module Demo {
  import opened Outcomes
  import PostgresProbe
  import RedisProbe
  import KafkaProbe

  /** The three keys of the aggregate. */
  datatype Dependency = Postgres | Redis | Kafka

  /** The key as the response spells it. */
  function KeyName(d: Dependency): (name: string)
    ensures name in {"postgres", "redis", "kafka"}
    ensures name == "postgres" <==> d == Postgres
    ensures name == "redis" <==> d == Redis
    ensures name == "kafka" <==> d == Kafka
  {
    match d
    case Postgres => "postgres"
    case Redis => "redis"
    case Kafka => "kafka"
  }

  lemma KeyNamesDistinct(d: Dependency, e: Dependency)
    ensures KeyName(d) == KeyName(e) <==> d == e
  {
  }

  /** The environment values the handler reads (`process.env`). */
  datatype Env = Env(redisUrl: Option<string>, kafkaBrokers: Option<string>, kafkaTopic: Option<string>)

  /** The clock and random values the handler draws, already rendered as
      the base-36 suffixes it slices out of `Math.random()`. */
  datatype Draws = Draws(
    tagSuffix: string,
    redisNow: nat, redisSuffix: string,
    groupSuffix: string, kafkaNow: nat, correlationSuffix: string)

  /** What the outside world replies to one run. */
  datatype World = World(
    postgres: PostgresProbe.TagReplies,
    redis: RedisProbe.RedisReplies,
    kafka: KafkaProbe.KafkaReplies)

  /** The calls one run issues, per dependency, in order. */
  datatype Trace = Trace(
    postgres: seq<PostgresProbe.TagCall>,
    redis: seq<RedisProbe.RedisCall>,
    kafka: seq<KafkaProbe.KafkaCall>)

  /** The JSON answer: `ok` and the aggregate. */
  datatype Response = Response(ok: bool, result: map<Dependency, Outcome>)

  /** The `result` labels as the JSON answer spells them: each key's
      `result` string under the key's own name. */
  function ResultLabels(result: map<Dependency, Outcome>): (labels: map<string, string>)
    ensures labels.Keys == set d | d in result :: KeyName(d)
    ensures forall d :: d in result ==> labels[KeyName(d)] == Label(result[d])
  {
    map d | d in result :: KeyName(d) := Label(result[d])
  }

  /** The aggregate the handler starts from: every dependency `fail`, with
      no error text. */
  const Initial: map<Dependency, Outcome> := map[Postgres := Default, Redis := Default, Kafka := Default]

  /** The aggregate every run ends with: each block's outcome stored over
      the initial one, in the order the blocks run. */
  function DemoResult(draws: Draws, world: World): map<Dependency, Outcome>
  {
    Initial
      [Postgres := PostgresProbe.Classify(world.postgres)]
      [Redis := RedisProbe.Classify(world.redis, RedisProbe.Value(draws.redisSuffix))]
      [Kafka := KafkaProbe.Classify(world.kafka, KafkaProbe.CorrelationId(draws.kafkaNow, draws.correlationSuffix))]
  }

  /** The calls every run issues. */
  function DemoTrace(env: Env, draws: Draws, world: World): Trace
  {
    Trace(PostgresProbe.Calls(draws.tagSuffix, world.postgres),
          RedisProbe.Calls(env.redisUrl, draws.redisNow, draws.redisSuffix, world.redis),
          KafkaProbe.Calls(env.kafkaBrokers, env.kafkaTopic, draws.groupSuffix,
                           KafkaProbe.CorrelationId(draws.kafkaNow, draws.correlationSuffix), world.kafka))
  }

  /** The `result` object the handler builds step by step. Every key is
      present at all times; a key whose block has not stored its outcome yet
      still holds the initial `fail`. */
  class Aggregate {
    var entries: map<Dependency, Outcome>
    ghost var probed: set<Dependency>

    ghost predicate Valid()
      reads this
    {
      && entries.Keys == {Postgres, Redis, Kafka}
      && forall d :: d in entries && d !in probed ==> entries[d] == Default
    }

    /** `{ postgres: { result: 'fail' }, redis: { result: 'fail' }, kafka: { result: 'fail' } }` */
    constructor ()
      ensures Valid() && probed == {}
      ensures entries == Initial
    {
      entries := Initial;
      probed := {};
    }

    /** `result.<key> = ...`: a block stores its outcome, once. */
    method Record(d: Dependency, o: Outcome)
      requires Valid() && d !in probed
      modifies this
      ensures Valid() && probed == old(probed) + {d}
      ensures entries == old(entries)[d := o]
    {
      entries := entries[d := o];
      probed := probed + {d};
    }
  }

  /** The Postgres block: probe, then store the outcome under `postgres`. */
  method PostgresBlock(draws: Draws, world: World, result: Aggregate) returns (calls: seq<PostgresProbe.TagCall>)
    requires result.Valid() && Postgres !in result.probed
    modifies result
    ensures result.Valid() && result.probed == old(result.probed) + {Postgres}
    ensures result.entries == old(result.entries)[Postgres := PostgresProbe.Classify(world.postgres)]
    ensures calls == PostgresProbe.Calls(draws.tagSuffix, world.postgres)
  {
    var o;
    o, calls := PostgresProbe.Run(draws.tagSuffix, world.postgres);
    result.Record(Postgres, o);
  }

  /** The Redis block: probe, then store the outcome under `redis`. */
  method RedisBlock(env: Env, draws: Draws, world: World, result: Aggregate) returns (calls: seq<RedisProbe.RedisCall>)
    requires result.Valid() && Redis !in result.probed
    modifies result
    ensures result.Valid() && result.probed == old(result.probed) + {Redis}
    ensures result.entries == old(result.entries)[Redis := RedisProbe.Classify(world.redis, RedisProbe.Value(draws.redisSuffix))]
    ensures calls == RedisProbe.Calls(env.redisUrl, draws.redisNow, draws.redisSuffix, world.redis)
  {
    var o;
    o, calls := RedisProbe.Run(env.redisUrl, draws.redisNow, draws.redisSuffix, world.redis);
    result.Record(Redis, o);
  }

  /** The Kafka block: probe, then store the outcome under `kafka`. */
  method KafkaBlock(env: Env, draws: Draws, world: World, result: Aggregate) returns (calls: seq<KafkaProbe.KafkaCall>)
    requires result.Valid() && Kafka !in result.probed
    modifies result
    ensures result.Valid() && result.probed == old(result.probed) + {Kafka}
    ensures result.entries == old(result.entries)[Kafka := KafkaProbe.Classify(world.kafka, KafkaProbe.CorrelationId(draws.kafkaNow, draws.correlationSuffix))]
    ensures calls == KafkaProbe.Calls(env.kafkaBrokers, env.kafkaTopic, draws.groupSuffix,
                                      KafkaProbe.CorrelationId(draws.kafkaNow, draws.correlationSuffix), world.kafka)
  {
    var o;
    o, calls := KafkaProbe.Run(env.kafkaBrokers, env.kafkaTopic, draws.groupSuffix,
                               draws.kafkaNow, draws.correlationSuffix, world.kafka);
    result.Record(Kafka, o);
  }

  /** One request to `/demo`: the three blocks in order, each storing its
      outcome in the aggregate, and the answer with `ok: true`. */
  method HandleDemo(env: Env, draws: Draws, world: World) returns (response: Response, trace: Trace)
    ensures response.ok
    ensures response.result == DemoResult(draws, world)
    ensures trace == DemoTrace(env, draws, world)
  {
    var result := new Aggregate();
    var postgresCalls := PostgresBlock(draws, world, result);
    var redisCalls := RedisBlock(env, draws, world, result);
    var kafkaCalls := KafkaBlock(env, draws, world, result);
    response := Response(true, result.entries);
    trace := Trace(postgresCalls, redisCalls, kafkaCalls);
  }

  /** Every `fail` in the final aggregate comes from a catch block and so
      carries an error text: the placeholder never survives a run. */
  lemma FailuresCarryText(draws: Draws, world: World)
    ensures DemoResult(draws, world).Keys == {Postgres, Redis, Kafka}
    ensures forall d :: d in DemoResult(draws, world) && DemoResult(draws, world)[d].Fail? ==>
              DemoResult(draws, world)[d].error.Some?
  {
    TryOutcomeKeepsText(PostgresProbe.StepErrors(world.postgres), Success);
    var r := world.redis;
    TryOutcomeKeepsText(RedisProbe.StepErrors(r),
                        RedisProbe.ReadBackVerdict(RedisProbe.ReadBack(r), RedisProbe.Value(draws.redisSuffix)));
    var cid := KafkaProbe.CorrelationId(draws.kafkaNow, draws.correlationSuffix);
    TryOutcomeKeepsText(KafkaProbe.StepErrors(world.kafka),
                        KafkaProbe.ConsumeVerdict(KafkaProbe.Awaited(world.kafka.events, cid)));
  }

  /** The answer always names exactly the three keys `postgres`, `redis`
      and `kafka`, each with one of the three `result` strings. */
  lemma ResponseKeys(draws: Draws, world: World)
    ensures ResultLabels(DemoResult(draws, world)).Keys == {"postgres", "redis", "kafka"}
    ensures forall name :: name in ResultLabels(DemoResult(draws, world)) ==>
              ResultLabels(DemoResult(draws, world))[name] in {"success", "partial_success", "fail"}
  {
    FailuresCarryText(draws, world);
    FullAggregateLabels(DemoResult(draws, world));
  }

  lemma FullAggregateLabels(result: map<Dependency, Outcome>)
    requires result.Keys == {Postgres, Redis, Kafka}
    ensures ResultLabels(result).Keys == {"postgres", "redis", "kafka"}
    ensures forall name :: name in ResultLabels(result) ==>
              ResultLabels(result)[name] in {"success", "partial_success", "fail"}
  {
    var labels := ResultLabels(result);
    assert KeyName(Postgres) in labels && KeyName(Redis) in labels && KeyName(Kafka) in labels;
    forall name | name in labels
      ensures name in {"postgres", "redis", "kafka"}
      ensures labels[name] in {"success", "partial_success", "fail"}
    {
      var d :| d in result && KeyName(d) == name;
    }
  }

  /** Each block's entry depends on its own dependency's replies alone: an
      error in one block never changes another block's outcome. */
  lemma BlocksIndependent(draws: Draws, w1: World, w2: World)
    ensures w1.postgres == w2.postgres ==> DemoResult(draws, w1)[Postgres] == DemoResult(draws, w2)[Postgres]
    ensures w1.redis == w2.redis ==> DemoResult(draws, w1)[Redis] == DemoResult(draws, w2)[Redis]
    ensures w1.kafka == w2.kafka ==> DemoResult(draws, w1)[Kafka] == DemoResult(draws, w2)[Kafka]
  {
  }

  /** A healthy Postgres, an unreachable Redis and a Kafka whose consumer
      sees nothing before the deadline give
      `{ postgres: success, redis: fail, kafka: partial_success }`. */
  lemma MixedScenario(draws: Draws, world: World)
    requires world.postgres.create.Ok? && world.postgres.findUnique.Ok?
    requires world.postgres.update.Ok? && world.postgres.delete.Ok?
    requires world.redis.connect.Err?
    requires world.kafka.producerConnect.Ok? && world.kafka.consumerConnect.Ok?
    requires world.kafka.subscribe.Ok? && world.kafka.send.Ok? && world.kafka.events == []
    requires world.kafka.consumerDisconnect.Ok? && world.kafka.producerDisconnect.Ok?
    ensures Label(DemoResult(draws, world)[Postgres]) == "success"
    ensures Label(DemoResult(draws, world)[Redis]) == "fail"
    ensures Label(DemoResult(draws, world)[Kafka]) == "partial_success"
  {
    PostgresProbe.SuccessIffAllStepsComplete(world.postgres);
    RedisProbe.Classification(world.redis, RedisProbe.Value(draws.redisSuffix));
    KafkaProbe.Classification(world.kafka, KafkaProbe.CorrelationId(draws.kafkaNow, draws.correlationSuffix));
  }
}
