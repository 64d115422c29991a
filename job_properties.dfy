/**
 * ZipkinSparkStreamingProperties: the "zipkin.sparkstreaming" properties. Setters ignore blank
 * input, and `toBuilder` overrides a job default only with a value that was actually set.
 */
module ZipkinSparkStreamingProperties {
  import opened Wrappers
  import opened Runtime
  import opened Spans
  import opened SparkStreamingJob

  class ZipkinSparkStreamingProperties {
    var master: Option<string>
    var jars: Option<seq<string>>
    var conf: map<string, string>
    /** A boxed `Long`: null until set. */
    var batchDuration: Option<Long>

    constructor ()
      ensures master == None && jars == None && conf == map[] && batchDuration == None
    {
      master := None;
      jars := None;
      conf := map[];
      batchDuration := None;
    }

    /** `setMaster`: the empty string is stored as null. */
    method SetMaster(master: Option<string>)
      modifies this`master
      ensures this.master == if master == Some("") then None else master
    {
      this.master := if master == Some("") then None else master;
    }

    /** `setJars`: a null or empty list is ignored. */
    method SetJars(jars: Option<seq<string>>)
      modifies this`jars
      ensures jars.Some? && jars.value != [] ==> this.jars == jars
      ensures !(jars.Some? && jars.value != []) ==> this.jars == old(this.jars)
    {
      if jars.Some? && jars.value != [] {
        this.jars := jars;
      }
    }

    /** `setConf`: a null or empty map is ignored, keeping the previous conf. */
    method SetConf(conf: Option<map<string, string>>)
      modifies this`conf
      ensures conf.Some? && conf.value != map[] ==> this.conf == conf.value
      ensures !(conf.Some? && conf.value != map[]) ==> this.conf == old(this.conf)
    {
      if conf.Some? && conf.value != map[] {
        this.conf := conf.value;
      }
    }

    method SetBatchDuration(batchDuration: Long)
      modifies this`batchDuration
      ensures this.batchDuration == Some(batchDuration)
    {
      this.batchDuration := Some(batchDuration);
    }

    /** `getBatchDuration()` unboxes the field, so it throws while the duration is unset. */
    method GetBatchDuration() returns (r: Result<Long, Exception>)
      ensures batchDuration.None? ==> r == Err(Exception(NullPointerException, None, None))
      ensures batchDuration.Some? ==> r == Ok(batchDuration.value)
    {
      if batchDuration.None? {
        return Err(Exception(NullPointerException, None, None));
      }
      r := Ok(batchDuration.value);
    }

    /** `toBuilder()`: the job defaults, overridden by every property that is set. */
    function ToBuilder(): (b: Builder)
      reads this
      ensures b.master == if master.Some? then master.value else NewBuilder().master
      ensures b.jars == if jars.Some? then jars.value else NewBuilder().jars
      ensures b.conf == if conf != map[] then conf else NewBuilder().conf
      ensures b.batchDuration == if batchDuration.Some? then batchDuration.value else NewBuilder().batchDuration
      ensures b.adjusters == [] && b.zipkinLogLevel == "INFO"
      ensures b.streamFactory.None? && b.consumer.None?
    {
      var result := NewBuilder();
      var result := if master.Some? then result.(master := master.value) else result;
      var result := if jars.Some? then result.(jars := jars.value) else result;
      var result := if conf != map[] then result.(conf := conf) else result;
      if batchDuration.Some? then result.(batchDuration := batchDuration.value) else result
    }
  }

  /** With nothing set, the properties give exactly the job's own defaults. */
  lemma NothingSetGivesDefaults(p: ZipkinSparkStreamingProperties)
    requires p.master.None? && p.jars.None? && p.conf == map[] && p.batchDuration.None?
    ensures p.ToBuilder() == NewBuilder()
  {
  }

  /** Blank settings leave the defaults in place; a real value overrides them. */
  method ConfigureFromEnvironment(master: Option<string>, jars: Option<seq<string>>,
                                  conf: Option<map<string, string>>) returns (b: Builder)
    ensures b.master == if master.Some? && master.value != "" then master.value else "local[*]"
    ensures b.jars == if jars.Some? && jars.value != [] then jars.value else []
    ensures b.conf == if conf.Some? && conf.value != map[] then conf.value else map["spark.ui.enabled" := "false"]
    ensures b.batchDuration == 10000
  {
    var p := new ZipkinSparkStreamingProperties();
    p.SetMaster(master);
    p.SetJars(jars);
    p.SetConf(conf);
    b := p.ToBuilder();
  }
}
