/** The handler's environment-driven configuration: the Redis URL, the Kafka
    broker list and the Kafka topic, each read from an optional environment
    value with a fixed fallback (demo.controller.ts lines 37, 53 and 54). */
module Config {
  import opened Outcomes
  import opened Text

  const DefaultRedisUrl: string := "redis://localhost:6379"
  const DefaultBrokers: string := "localhost:9092"
  const DefaultTopic: string := "demo-topic"

  /** `value || fallback` on an environment value: an unset and an empty
      value both fall back. */
  function EnvOr(value: Option<string>, fallback: string): (r: string)
    ensures value.None? || value == Some("") ==> r == fallback
    ensures value.Some? && value.value != "" ==> r == value.value
  {
    if value.Some? && value.value != "" then value.value else fallback
  }

  /** `REDIS_URL || 'redis://localhost:6379'`. */
  function RedisUrl(env: Option<string>): (url: string)
    ensures url != ""
    ensures env.Some? && env.value != "" ==> url == env.value
    ensures env.None? || env == Some("") ==> url == DefaultRedisUrl
  {
    EnvOr(env, DefaultRedisUrl)
  }

  /** `KAFKA_TOPIC || 'demo-topic'`. */
  function TopicName(env: Option<string>): (topic: string)
    ensures topic != ""
    ensures env.Some? && env.value != "" ==> topic == env.value
    ensures env.None? || env == Some("") ==> topic == DefaultTopic
  {
    EnvOr(env, DefaultTopic)
  }

  /** A broker address as the parsed list holds it: non-empty, no comma, no
      whitespace at either end. */
  predicate CleanBroker(b: string)
  {
    b != [] && ',' !in b && !IsWhitespace(b[0]) && !IsWhitespace(b[|b| - 1])
  }

  /** `.map((b) => b.trim())` */
  function TrimAll(pieces: seq<string>): (r: seq<string>)
    ensures |r| == |pieces|
    ensures forall i :: 0 <= i < |r| ==> r[i] == Trim(pieces[i])
  {
    if pieces == [] then [] else [Trim(pieces[0])] + TrimAll(pieces[1..])
  }

  /** `.filter(Boolean)` on strings: the non-empty ones, in order. */
  function NonEmpty(pieces: seq<string>): (r: seq<string>)
    ensures |r| <= |pieces|
    ensures forall i :: 0 <= i < |r| ==> r[i] != ""
  {
    if pieces == [] then []
    else if pieces[0] == "" then NonEmpty(pieces[1..])
    else [pieces[0]] + NonEmpty(pieces[1..])
  }

  /** `raw.split(',').map((b) => b.trim()).filter(Boolean)`: every element
      is a clean broker address. */
  function BrokerList(raw: string): (brokers: seq<string>)
    ensures forall i :: 0 <= i < |brokers| ==> CleanBroker(brokers[i])
  {
    TrimmedPiecesAreClean(raw);
    NonEmpty(TrimAll(Split(raw, ',')))
  }

  /** A piece after `trim`: no comma, no whitespace at either end. */
  predicate TrimmedPiece(p: string)
  {
    ',' !in p && (p == [] || (!IsWhitespace(p[0]) && !IsWhitespace(p[|p| - 1])))
  }

  lemma TrimmedPiecesAreClean(raw: string)
    ensures forall i :: 0 <= i < |NonEmpty(TrimAll(Split(raw, ',')))| ==>
              CleanBroker(NonEmpty(TrimAll(Split(raw, ',')))[i])
  {
    TrimAllTrimmed(Split(raw, ','));
    NonEmptyKeepsClean(TrimAll(Split(raw, ',')));
  }

  lemma TrimAllTrimmed(pieces: seq<string>)
    requires forall i :: 0 <= i < |pieces| ==> ',' !in pieces[i]
    ensures forall i :: 0 <= i < |TrimAll(pieces)| ==> TrimmedPiece(TrimAll(pieces)[i])
  {
    forall i | 0 <= i < |pieces| ensures TrimmedPiece(Trim(pieces[i])) {
      TrimmedPieceOf(pieces[i]);
    }
  }

  lemma TrimmedPieceOf(p: string)
    requires ',' !in p
    ensures TrimmedPiece(Trim(p))
  {
    TrimKeepsOut(p, ',');
  }

  /** Dropping the empty pieces of trimmed pieces leaves clean addresses. */
  lemma {:induction false} NonEmptyKeepsClean(pieces: seq<string>)
    requires forall i :: 0 <= i < |pieces| ==> TrimmedPiece(pieces[i])
    ensures forall i :: 0 <= i < |NonEmpty(pieces)| ==> CleanBroker(NonEmpty(pieces)[i])
  {
    if pieces != [] {
      NonEmptyKeepsClean(pieces[1..]);
    }
  }

  /** The broker list of the handler: the environment value, or
      `localhost:9092` when it is unset or empty, parsed by BrokerList. */
  function ParseBrokers(env: Option<string>): (brokers: seq<string>)
    ensures forall i :: 0 <= i < |brokers| ==> CleanBroker(brokers[i])
    ensures env.None? || env == Some("") ==> brokers == [DefaultBrokers]
    ensures env.Some? && env.value != "" ==> brokers == BrokerList(env.value)
  {
    DefaultParses();
    BrokerList(EnvOr(env, DefaultBrokers))
  }

  lemma DefaultParses()
    ensures BrokerList(DefaultBrokers) == [DefaultBrokers]
  {
    DefaultBrokersIsClean();
    SplitWithoutSeparator(DefaultBrokers, ',');
    TrimClean(DefaultBrokers);
  }

  lemma DefaultBrokersIsClean()
    ensures CleanBroker(DefaultBrokers)
  {
    assert forall i :: 0 <= i < |DefaultBrokers| ==> DefaultBrokers[i] != ',';
  }

  /** A string without the separator splits into itself alone. */
  lemma {:induction false} SplitWithoutSeparator(s: string, sep: char)
    requires sep !in s
    ensures Split(s, sep) == [s]
  {
    if s != [] {
      assert sep !in s[1..] by { assert forall x :: x in s[1..] ==> x in s; }
      SplitWithoutSeparator(s[1..], sep);
      assert [s[0]] + s[1..] == s;
    }
  }

  /** Parsing the comma-join of a list of clean broker addresses gives the
      list back. */
  lemma BrokerListRoundTrip(brokers: seq<string>)
    requires forall i :: 0 <= i < |brokers| ==> CleanBroker(brokers[i])
    ensures BrokerList(Join(brokers, ',')) == brokers
  {
    if brokers != [] {
      SplitJoin(brokers, ',');
      TrimAllClean(brokers);
      NonEmptyClean(brokers);
    } else {
      assert Split("", ',') == [""];
      TrimBlank("");
    }
  }

  lemma {:induction false} NonEmptyClean(brokers: seq<string>)
    requires forall i :: 0 <= i < |brokers| ==> CleanBroker(brokers[i])
    ensures NonEmpty(brokers) == brokers
  {
    if brokers != [] {
      NonEmptyClean(brokers[1..]);
    }
  }

  /** Dropping empty pieces keeps every non-empty one. */
  lemma {:induction false} NonEmptyKeepsNonEmpty(pieces: seq<string>, p: string)
    requires p in pieces && p != ""
    ensures p in NonEmpty(pieces)
  {
    if pieces[0] != p {
      NonEmptyKeepsNonEmpty(pieces[1..], p);
    }
  }

  /** The filter keeps nothing but non-empty pieces of its input. */
  lemma {:induction false} NonEmptyKeepsOnlyPieces(pieces: seq<string>, x: string)
    requires x in NonEmpty(pieces)
    ensures x in pieces && x != ""
  {
    if pieces[0] == "" || x != pieces[0] {
      NonEmptyKeepsOnlyPieces(pieces[1..], x);
    }
  }

  /** The filter works piece by piece and keeps the input order. */
  lemma {:induction false} NonEmptyAppend(a: seq<string>, b: seq<string>)
    ensures NonEmpty(a + b) == NonEmpty(a) + NonEmpty(b)
  {
    if a == [] {
      assert a + b == b;
    } else {
      assert (a + b)[0] == a[0];
      assert (a + b)[1..] == a[1..] + b;
      NonEmptyAppend(a[1..], b);
    }
  }

  /** The parsed brokers are exactly the non-empty trimmed comma-pieces of
      the value. */
  lemma BrokerListMembers(raw: string, b: string)
    ensures b in BrokerList(raw) <==>
              b != "" && exists i :: 0 <= i < |Split(raw, ',')| && Trim(Split(raw, ',')[i]) == b
  {
    var pieces := TrimAll(Split(raw, ','));
    if b in BrokerList(raw) {
      NonEmptyKeepsOnlyPieces(pieces, b);
      var i :| 0 <= i < |pieces| && pieces[i] == b;
      assert Trim(Split(raw, ',')[i]) == b;
    }
    if b != "" && exists i :: 0 <= i < |Split(raw, ',')| && Trim(Split(raw, ',')[i]) == b {
      var i :| 0 <= i < |Split(raw, ',')| && Trim(Split(raw, ',')[i]) == b;
      assert pieces[i] == b;
      NonEmptyKeepsNonEmpty(pieces, b);
    }
  }

  lemma {:induction false} TrimAllClean(brokers: seq<string>)
    requires forall i :: 0 <= i < |brokers| ==> CleanBroker(brokers[i])
    ensures TrimAll(brokers) == brokers
  {
    forall i | 0 <= i < |brokers| ensures TrimAll(brokers)[i] == brokers[i] {
      TrimClean(brokers[i]);
    }
  }

  /** The fallback applies only to an unset or empty value: a non-empty
      value made of commas and whitespace alone (`","`, `" "`) yields no
      broker at all. */
  lemma BlankValueYieldsNoBroker(raw: string)
    requires raw != ""
    requires forall k :: 0 <= k < |raw| ==> raw[k] == ',' || IsWhitespace(raw[k])
    ensures ParseBrokers(Some(raw)) == []
  {
    var pieces := Split(raw, ',');
    SplitBlank(raw, ',');
    var trimmed := TrimAll(pieces);
    forall i | 0 <= i < |trimmed| ensures trimmed[i] == "" {
      TrimBlank(pieces[i]);
    }
    NonEmptyOfBlanks(trimmed);
  }

  /** Dropping empty pieces from a list of empty pieces leaves nothing. */
  lemma {:induction false} NonEmptyOfBlanks(pieces: seq<string>)
    requires forall i :: 0 <= i < |pieces| ==> pieces[i] == ""
    ensures NonEmpty(pieces) == []
  {
    if pieces != [] {
      NonEmptyOfBlanks(pieces[1..]);
    }
  }
}
