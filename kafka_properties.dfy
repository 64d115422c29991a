/**
 * ZipkinKafkaStreamFactoryProperties: the "zipkin.sparkstreaming.stream.kafka" properties and
 * how they become a KafkaStreamFactory builder. Blank input is ignored by every setter, and a
 * ZooKeeper connect string, once set, decides where the Kafka brokers come from.
 */
module ZipkinKafkaStreamFactoryProperties {
  import opened Wrappers
  import opened Runtime
  import opened Spans

  /** Where the Kafka stream finds its brokers. */
  datatype BootstrapServers =
    | Explicit(servers: seq<string>)
      /** A ZookeeperBootstrapServers supplier; brokers are looked up when first read. */
    | ZookeeperSupplier(connectServers: seq<string>, connectSuffix: string, sessionTimeout: int)

  /** KafkaStreamFactory.Builder; bootstrap servers have no default. */
  datatype KafkaStreamFactoryBuilder =
    KafkaStreamFactoryBuilder(topic: string, groupId: string, bootstrapServers: Option<BootstrapServers>)

  /** `KafkaStreamFactory.newBuilder()`. */
  function NewBuilder(): KafkaStreamFactoryBuilder {
    KafkaStreamFactoryBuilder("zipkin", "zipkin", None)
  }

  const DEFAULT_CONNECT_SUFFIX := ""
  const DEFAULT_SESSION_TIMEOUT := 10000

  /** `emptyToNull`. */
  function EmptyToNull(s: Option<string>): (r: Option<string>)
    ensures r.None? <==> s.None? || s.value == ""
    ensures r.Some? ==> r == s
  {
    if s.Some? && s.value != "" then s else None
  }

  /** The nested `zookeeper` properties. */
  class Zookeeper {
    var connectServers: Option<seq<string>>
    var connectSuffix: Option<string>
    /** A boxed `Integer`. */
    var sessionTimeout: Option<Int>

    constructor ()
      ensures connectServers == None && connectSuffix == None && sessionTimeout == None
    {
      connectServers := None;
      connectSuffix := None;
      sessionTimeout := None;
    }

    /** A null or empty list is ignored. */
    method SetConnectServers(connectServers: Option<seq<string>>)
      modifies this`connectServers
      ensures connectServers.Some? && connectServers.value != [] ==> this.connectServers == connectServers
      ensures !(connectServers.Some? && connectServers.value != []) ==> this.connectServers == old(this.connectServers)
    {
      if connectServers.Some? && connectServers.value != [] {
        this.connectServers := connectServers;
      }
    }

    method SetConnectSuffix(connectSuffix: Option<string>)
      modifies this`connectSuffix
      ensures this.connectSuffix == EmptyToNull(connectSuffix)
    {
      this.connectSuffix := EmptyToNull(connectSuffix);
    }

    /**
     * Only a positive timeout is kept. The comparison unboxes its argument, so a null timeout
     * throws a NullPointerException and changes nothing.
     */
    method SetSessionTimeout(sessionTimeout: Option<Int>) returns (r: Result<(), Exception>)
      modifies this`sessionTimeout
      ensures sessionTimeout.None? ==>
        r == Err(Exception(NullPointerException, None, None)) && this.sessionTimeout == old(this.sessionTimeout)
      ensures sessionTimeout.Some? ==> r == Ok(())
      ensures sessionTimeout.Some? && sessionTimeout.value > 0 ==> this.sessionTimeout == sessionTimeout
      ensures sessionTimeout.Some? && sessionTimeout.value <= 0 ==> this.sessionTimeout == old(this.sessionTimeout)
    {
      if sessionTimeout.None? {
        return Err(Exception(NullPointerException, None, None));
      }
      if sessionTimeout.value > 0 {
        this.sessionTimeout := sessionTimeout;
      }
      r := Ok(());
    }
  }

  class ZipkinKafkaStreamFactoryProperties {
    var topic: Option<string>
    var bootstrapServers: Option<seq<string>>
    var zookeeper: Zookeeper

    constructor ()
      ensures topic == None && bootstrapServers == None && fresh(zookeeper)
      ensures zookeeper.connectServers == None && zookeeper.connectSuffix == None && zookeeper.sessionTimeout == None
    {
      topic := None;
      bootstrapServers := None;
      zookeeper := new Zookeeper();
    }

    method SetTopic(topic: Option<string>)
      modifies this`topic
      ensures this.topic == EmptyToNull(topic)
    {
      this.topic := EmptyToNull(topic);
    }

    /** A null or empty list is ignored. */
    method SetBootstrapServers(bootstrapServers: Option<seq<string>>)
      modifies this`bootstrapServers
      ensures bootstrapServers.Some? && bootstrapServers.value != [] ==> this.bootstrapServers == bootstrapServers
      ensures !(bootstrapServers.Some? && bootstrapServers.value != []) ==> this.bootstrapServers == old(this.bootstrapServers)
    {
      if bootstrapServers.Some? && bootstrapServers.value != [] {
        this.bootstrapServers := bootstrapServers;
      }
    }

    /** A null Zookeeper keeps the current one. */
    method SetZookeeper(zookeeper: Zookeeper?)
      modifies this`zookeeper
      ensures zookeeper != null ==> this.zookeeper == zookeeper
      ensures zookeeper == null ==> this.zookeeper == old(this.zookeeper)
    {
      if zookeeper != null {
        this.zookeeper := zookeeper;
      }
    }

    /**
     * `toBuilder()`: the topic overrides "zipkin" only when set and the group id stays "zipkin".
     * Explicit bootstrap servers are used unless ZooKeeper connect servers are set, in which
     * case a ZooKeeper supplier replaces them, with the suffix and timeout defaults "" and
     * 10000 where those are unset.
     */
    method ToBuilder() returns (result: KafkaStreamFactoryBuilder)
      ensures result.topic == if topic.Some? then topic.value else "zipkin"
      ensures result.groupId == "zipkin"
      ensures zookeeper.connectServers.None? ==>
        result.bootstrapServers == if bootstrapServers.Some? then Some(Explicit(bootstrapServers.value)) else None
      ensures zookeeper.connectServers.Some? ==>
        result.bootstrapServers == Some(ZookeeperSupplier(zookeeper.connectServers.value,
          zookeeper.connectSuffix.GetOr(DEFAULT_CONNECT_SUFFIX),
          if zookeeper.sessionTimeout.Some? then zookeeper.sessionTimeout.value as int else DEFAULT_SESSION_TIMEOUT))
    {
      result := NewBuilder();
      if topic.Some? {
        result := result.(topic := topic.value);
      }
      if bootstrapServers.Some? {
        result := result.(bootstrapServers := Some(Explicit(bootstrapServers.value)));
      }
      if zookeeper.connectServers.None? {
        return;
      }
      var connectSuffix := DEFAULT_CONNECT_SUFFIX;
      var sessionTimeout := DEFAULT_SESSION_TIMEOUT;
      if zookeeper.connectSuffix.Some? {
        connectSuffix := zookeeper.connectSuffix.value;
      }
      if zookeeper.sessionTimeout.Some? {
        sessionTimeout := zookeeper.sessionTimeout.value as int;
      }
      result := result.(bootstrapServers := Some(ZookeeperSupplier(zookeeper.connectServers.value, connectSuffix, sessionTimeout)));
    }
  }

  /**
   * Binding a full environment: servers listed both ways end up read from ZooKeeper, with the
   * supplier defaults when suffix and timeout are left blank, and a blank topic keeps "zipkin".
   */
  method BindEnvironment(topic: Option<string>, bootstrapServers: seq<string>, connectServers: seq<string>)
    returns (builder: KafkaStreamFactoryBuilder)
    requires connectServers != []
    ensures builder.topic == if topic.Some? && topic.value != "" then topic.value else "zipkin"
    ensures builder.bootstrapServers == Some(ZookeeperSupplier(connectServers, "", 10000))
  {
    var properties := new ZipkinKafkaStreamFactoryProperties();
    properties.SetTopic(topic);
    properties.SetBootstrapServers(Some(bootstrapServers));
    properties.zookeeper.SetConnectServers(Some(connectServers));
    properties.zookeeper.SetConnectSuffix(Some(""));
    var _ := properties.zookeeper.SetSessionTimeout(Some(0));
    builder := properties.ToBuilder();
  }

  /** Without ZooKeeper, the explicit servers are kept exactly; with none at all there are none. */
  method BindExplicitServers(bootstrapServers: Option<seq<string>>) returns (builder: KafkaStreamFactoryBuilder)
    ensures bootstrapServers.Some? && bootstrapServers.value != [] ==>
      builder.bootstrapServers == Some(Explicit(bootstrapServers.value))
    ensures !(bootstrapServers.Some? && bootstrapServers.value != []) ==> builder == NewBuilder()
  {
    var properties := new ZipkinKafkaStreamFactoryProperties();
    properties.SetBootstrapServers(bootstrapServers);
    builder := properties.ToBuilder();
  }
}
