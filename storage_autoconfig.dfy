/**
 * ZipkinStorageConsumerAutoConfiguration: picks the storage consumer for the configured zipkin
 * storage, after an optional fail-fast health check, and hands it the "zipkin" properties of
 * the environment so that the job can rebuild the storage component on each executor.
 */
module ZipkinStorageConsumerAutoConfiguration {
  import opened Wrappers
  import opened Runtime
  import StorageConsumer

  const ZIPKIN_PREFIX := "zipkin"

  /** Java's `String.startsWith`. */
  predicate StartsWith(s: string, prefix: string) {
    |prefix| <= |s| && s[..|prefix|] == prefix
  }

  /**
   * A Spring property source. An enumerable one lists its property names, in order, with
   * their values.
   */
  datatype PropertySource =
    | Enumerable(entries: seq<(string, string)>)
    | NonEnumerable

  /** The properties after `put`ting each prefixed entry of one source, in order. */
  function PutAll(properties: map<string, string>, entries: seq<(string, string)>): map<string, string> {
    if entries == [] then properties
    else
      var before := PutAll(properties, entries[..|entries| - 1]);
      var (name, value) := entries[|entries| - 1];
      if StartsWith(name, ZIPKIN_PREFIX) then before[name := value] else before
  }

  /** The properties collected from the sources, in iteration order. */
  function Extracted(sources: seq<PropertySource>): map<string, string> {
    if sources == [] then map[]
    else
      var before := Extracted(sources[..|sources| - 1]);
      match sources[|sources| - 1]
      case NonEnumerable => before
      case Enumerable(entries) => PutAll(before, entries)
  }

  /** `extractZipkinProperties(env)`, over the environment's property sources. */
  method ExtractZipkinProperties(sources: seq<PropertySource>) returns (properties: map<string, string>)
    ensures properties == Extracted(sources)
  {
    properties := map[];
    var i := 0;
    while i < |sources|
      invariant 0 <= i <= |sources|
      invariant properties == Extracted(sources[..i])
    {
      assert sources[..i + 1][..i] == sources[..i];
      var next := sources[i];
      i := i + 1;
      if !next.Enumerable? {
        continue;
      }
      ghost var start := properties;
      for j := 0 to |next.entries|
        invariant properties == PutAll(start, next.entries[..j])
      {
        assert next.entries[..j + 1][..j] == next.entries[..j];
        var (name, value) := next.entries[j];
        if StartsWith(name, ZIPKIN_PREFIX) {
          properties := properties[name := value];
        }
      }
      assert next.entries[..|next.entries|] == next.entries;
    }
    assert sources[..|sources|] == sources;
  }

  /** The source lists `name` among its property names. */
  predicate Lists(source: PropertySource, name: string) {
    source.Enumerable? && exists j :: 0 <= j < |source.entries| && source.entries[j].0 == name
  }

  lemma {:induction false} PutAllDomain(properties: map<string, string>, entries: seq<(string, string)>, name: string)
    ensures name in PutAll(properties, entries) <==>
      name in properties || (StartsWith(name, ZIPKIN_PREFIX) && exists j :: 0 <= j < |entries| && entries[j].0 == name)
  {
    if entries != [] {
      var init := entries[..|entries| - 1];
      PutAllDomain(properties, init, name);
      if exists j :: 0 <= j < |entries| && entries[j].0 == name {
        var j :| 0 <= j < |entries| && entries[j].0 == name;
        if j < |init| {
          assert init[j].0 == name;
        }
      }
    }
  }

  /**
   * A property is extracted exactly when its name starts with "zipkin" and some enumerable
   * source lists it: non-enumerable sources contribute nothing.
   */
  lemma {:induction false} ExtractedNames(sources: seq<PropertySource>, name: string)
    ensures name in Extracted(sources) <==>
      StartsWith(name, ZIPKIN_PREFIX) && exists i :: 0 <= i < |sources| && Lists(sources[i], name)
  {
    if sources != [] {
      var init := sources[..|sources| - 1];
      ExtractedNames(init, name);
      var last := sources[|sources| - 1];
      if last.Enumerable? {
        PutAllDomain(Extracted(init), last.entries, name);
      }
      if exists i :: 0 <= i < |sources| && Lists(sources[i], name) {
        var i :| 0 <= i < |sources| && Lists(sources[i], name);
        if i < |init| {
          assert Lists(init[i], name);
        }
      }
      if exists i :: 0 <= i < |init| && Lists(init[i], name) {
        var i :| 0 <= i < |init| && Lists(init[i], name);
        assert Lists(sources[i], name);
      }
    }
  }

  /**
   * A name not listed again later in the source ends up with this listing's value. An
   * EnumerablePropertySource lists each name once, so for a real source this is the name's only
   * listing; the lemma does not need that.
   */
  lemma {:induction false} PutAllLast(properties: map<string, string>, entries: seq<(string, string)>, j: nat)
    requires j < |entries| && StartsWith(entries[j].0, ZIPKIN_PREFIX)
    requires forall k :: j < k < |entries| ==> entries[k].0 != entries[j].0
    ensures entries[j].0 in PutAll(properties, entries) && PutAll(properties, entries)[entries[j].0] == entries[j].1
  {
    if j < |entries| - 1 {
      PutAllLast(properties, entries[..|entries| - 1], j);
    }
  }

  lemma {:induction false} PutAllOthers(properties: map<string, string>, entries: seq<(string, string)>, name: string)
    requires forall k :: 0 <= k < |entries| ==> entries[k].0 != name
    ensures (name in PutAll(properties, entries) <==> name in properties)
    ensures name in properties ==> PutAll(properties, entries)[name] == properties[name]
  {
    if entries != [] {
      PutAllOthers(properties, entries[..|entries| - 1], name);
    }
  }

  /**
   * When a name occurs in several sources, the value from the last source that lists it wins,
   * and within that source the value of its last listing.
   */
  lemma {:induction false} LastSourceWins(sources: seq<PropertySource>, i: nat, j: nat)
    requires i < |sources| && sources[i].Enumerable? && j < |sources[i].entries|
    requires StartsWith(sources[i].entries[j].0, ZIPKIN_PREFIX)
    requires forall k :: j < k < |sources[i].entries| ==> sources[i].entries[k].0 != sources[i].entries[j].0
    requires forall l :: i < l < |sources| ==> !Lists(sources[l], sources[i].entries[j].0)
    ensures var (name, value) := sources[i].entries[j];
      name in Extracted(sources) && Extracted(sources)[name] == value
  {
    var init := sources[..|sources| - 1];
    var last := sources[|sources| - 1];
    if i == |sources| - 1 {
      PutAllLast(Extracted(init), last.entries, j);
    } else {
      LastSourceWins(init, i, j);
      if last.Enumerable? {
        var name := sources[i].entries[j].0;
        assert !Lists(last, name);
        PutAllOthers(Extracted(init), last.entries, name);
      }
    }
  }

  /** The storage component in the application context, by its implementation class. */
  datatype V2StorageKind = V2Elasticsearch | V2Cassandra | OtherV2(description: string)
  datatype StorageKind =
    | V2Storage(delegate: V2StorageKind)
    | CassandraStorage
    | MySqlStorage
    | OtherStorage(description: string)

  /** The storage consumer subclasses, each re-creating its own storage kind. */
  datatype ConsumerKind = ElasticsearchConsumer | Cassandra3Consumer | CassandraConsumer | MySqlConsumer

  /** An AutoConfigurationStorageConsumer: its kind and the properties it carries. */
  datatype AutoConfigurationStorageConsumer =
    AutoConfigurationStorageConsumer(kind: ConsumerKind, properties: map<string, string>)

  function NotYetSupported(description: string): Exception {
    Throw(UnsupportedOperationException, description + " not yet supported")
  }

  /** The `instanceof` selection in `storageConsumer`. */
  function ConsumerKindFor(kind: StorageKind): (r: Result<ConsumerKind, Exception>)
    ensures kind == V2Storage(V2Elasticsearch) <==> r == Ok(ElasticsearchConsumer)
    ensures kind == V2Storage(V2Cassandra) <==> r == Ok(Cassandra3Consumer)
    ensures kind == CassandraStorage <==> r == Ok(CassandraConsumer)
    ensures kind == MySqlStorage <==> r == Ok(MySqlConsumer)
    ensures kind.V2Storage? && kind.delegate.OtherV2? ==> r == Err(NotYetSupported(kind.delegate.description))
    ensures kind.OtherStorage? ==> r == Err(NotYetSupported(kind.description))
  {
    match kind
    case V2Storage(V2Elasticsearch) => Ok(ElasticsearchConsumer)
    case V2Storage(V2Cassandra) => Ok(Cassandra3Consumer)
    case V2Storage(OtherV2(description)) => Err(NotYetSupported(description))
    case CassandraStorage => Ok(CassandraConsumer)
    case MySqlStorage => Ok(MySqlConsumer)
    case OtherStorage(description) => Err(NotYetSupported(description))
  }

  /** Every storage kind the job supports gets a consumer; all other kinds are refused. */
  lemma SupportedKinds(kind: StorageKind)
    ensures ConsumerKindFor(kind).Ok? <==>
      kind in {V2Storage(V2Elasticsearch), V2Storage(V2Cassandra), CassandraStorage, MySqlStorage}
  {
  }

  /**
   * `checkStorageOk`: a failed check is an IllegalStateException "Storage not ok" whose cause
   * is the check's exception; a passing one closes the component, and the result says so.
   */
  function CheckStorageOk(check: StorageConsumer.CheckResult): (r: Result<bool, Exception>)
    ensures !check.ok <==> r.Err?
    ensures r.Err? ==> r.error == Exception(IllegalStateException, Some("Storage not ok"), check.exception)
    ensures r.Ok? ==> r.value
  {
    if !check.ok then Err(Exception(IllegalStateException, Some("Storage not ok"), check.exception))
    else Ok(true)
  }

  /** What the `storageConsumer` bean definition produces: the consumer, and whether the component was closed. */
  datatype Bean = Bean(consumer: AutoConfigurationStorageConsumer, componentClosed: bool)

  /**
   * `storageConsumer(component, failFast, bf)`. Fail-fast (on by default) runs the health
   * check before anything else, so an unhealthy storage yields no consumer whatever its kind.
   */
  method StorageConsumerBean(kind: StorageKind, check: StorageConsumer.CheckResult, failFast: bool,
                             sources: seq<PropertySource>) returns (r: Result<Bean, Exception>)
    ensures failFast && !check.ok ==> r == Err(CheckStorageOk(check).error)
    ensures !(failFast && !check.ok) && ConsumerKindFor(kind).Err? ==> r == Err(ConsumerKindFor(kind).error)
    ensures !(failFast && !check.ok) && ConsumerKindFor(kind).Ok? ==>
      r == Ok(Bean(AutoConfigurationStorageConsumer(ConsumerKindFor(kind).value, Extracted(sources)), failFast))
  {
    var closed := false;
    if failFast {
      var checked := CheckStorageOk(check);
      if checked.Err? {
        return Err(checked.error);
      }
      closed := checked.value;
    }
    var properties := ExtractZipkinProperties(sources);
    var consumerKind := ConsumerKindFor(kind);
    if consumerKind.Err? {
      return Err(consumerKind.error);
    }
    r := Ok(Bean(AutoConfigurationStorageConsumer(consumerKind.value, properties), closed));
  }
}
