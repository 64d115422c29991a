/**
 * StorageConsumer: the persistence sink. It builds its storage component lazily, at most once,
 * writes each non-empty group in one blocking call, and logs instead of throwing when a write
 * (or the construction it triggers) fails.
 */
module StorageConsumer {
  import opened Wrappers
  import opened Runtime
  import opened Spans

  /** `Component.CheckResult`. */
  datatype CheckResult = CheckResult(ok: bool, exception: Option<Exception>)

  /** A storage component; `id` stands for object identity. */
  datatype StorageComponent = StorageComponent(id: nat, health: CheckResult)

  /** How the asynchronous write of one group ends. */
  datatype WriteOutcome =
    | Written
    /** `asyncSpanConsumer().accept(..)` itself throws. */
    | Thrown(e: Exception)
    /** The callback receives `onError(e)`. */
    | CallbackError(e: Exception)

  function ClassName(cls: ExceptionClass): string {
    match cls
    case RuntimeException => "java.lang.RuntimeException"
    case IllegalStateException => "java.lang.IllegalStateException"
    case IllegalArgumentException => "java.lang.IllegalArgumentException"
    case NullPointerException => "java.lang.NullPointerException"
    case UnsupportedOperationException => "java.lang.UnsupportedOperationException"
    case NoSuchElementException => "java.util.NoSuchElementException"
    case IOException => "java.io.IOException"
    case OtherUnchecked(name) => name
  }

  /** `Throwable.toString()`. */
  function Describe(e: Exception): string {
    match e.message
    case Some(m) => ClassName(e.cls) + ": " + m
    case None => ClassName(e.cls)
  }

  /** What `CallbackCaptor.get()` throws for an error passed to the callback: unchecked errors
      as they are, checked ones wrapped as `new RuntimeException(cause)`. */
  function Rethrown(e: Exception): (r: Exception)
    ensures IsRuntime(r)
  {
    if IsRuntime(e) then e else Exception(RuntimeException, Some(Describe(e)), Some(e))
  }

  /** The throwable `accept` logs: the cause of a plain RuntimeException wrapper, else the exception. */
  function ToLog(e: Exception): (r: Exception)
    ensures e.cls == RuntimeException && e.cause.Some? ==> r == e.cause.value
    ensures !(e.cls == RuntimeException && e.cause.Some?) ==> r == e
  {
    if e.cls == RuntimeException && e.cause.Some? then e.cause.value else e
  }

  /** The single warning logged when a group of `count` spans is dropped because of `e`. */
  function DroppedRecord(count: nat, e: Exception, warningLoggable: bool): LogRecord {
    var toLog := ToLog(e);
    var message := "Dropped " + Decimal(count) + " spans: " + NullToText(toLog.message);
    LogRecord(Warning, message, if warningLoggable then Some(toLog) else None)
  }

  function WroteRecord(count: nat): LogRecord {
    LogRecord(Info, "Wrote " + Decimal(count) + " spans", None)
  }

  const EMPTY_RECORD: LogRecord := LogRecord(Fine, "Input was empty", None)

  /** The exception that escapes the blocking write, if any. */
  function WriteFailure(outcome: WriteOutcome): Option<Exception> {
    match outcome
    case Written => None
    case Thrown(e) => Some(e)
    case CallbackError(e) => Some(Rethrown(e))
  }

  /** A checked callback error is unwrapped again before logging: the test's IOException case. */
  lemma CheckedCallbackErrorLoggedUnwrapped(count: nat, e: Exception)
    requires !IsRuntime(e)
    ensures DroppedRecord(count, WriteFailure(CallbackError(e)).value, true) ==
      LogRecord(Warning, "Dropped " + Decimal(count) + " spans: " + NullToText(e.message), Some(e))
  {
  }

  /** An unchecked error, from the call or the callback, is logged as it is. */
  lemma UncheckedFailureLoggedAsIs(count: nat, outcome: WriteOutcome)
    requires outcome.Thrown? || outcome.CallbackError?
    requires IsRuntime(outcome.e) && !(outcome.e.cls == RuntimeException && outcome.e.cause.Some?)
    ensures DroppedRecord(count, WriteFailure(outcome).value, true) ==
      LogRecord(Warning, "Dropped " + Decimal(count) + " spans: " + NullToText(outcome.e.message), Some(outcome.e))
  {
  }

  /** `asList(iter)`: copies the elements into a new list in iteration order. */
  method AsList<E>(iter: seq<E>) returns (list: seq<E>)
    ensures list == iter
  {
    list := [];
    var i := 0;
    while i < |iter|
      invariant 0 <= i <= |iter|
      invariant list == iter[..i]
    {
      list := list + [iter[i]];
      i := i + 1;
    }
  }

  class StorageConsumer {
    /** The memoised component (`transient volatile StorageComponent instance`). */
    var instance: Option<StorageComponent>
    /** Every call of `tryCompute` so far, with what it returned or threw. */
    var tryComputeCalls: seq<Result<StorageComponent, Exception>>
    /** The records passed to the logger. */
    var log: seq<LogRecord>
    /** Every list handed to the storage's asynchronous span consumer. */
    var writes: seq<seq<Span>>
    /** Every component `close` was called on. */
    var closed: seq<StorageComponent>
    /** Whether the logger reports WARNING as loggable (then the throwable is attached). */
    const warningLoggable: bool

    /**
     * Construct-once: `tryCompute` succeeded at most once, that success was its last call,
     * and it is the memoised instance; before it, every call threw.
     */
    ghost predicate Valid()
      reads this
    {
      (instance.None? ==> forall i :: 0 <= i < |tryComputeCalls| ==> tryComputeCalls[i].Err?) &&
      (instance.Some? ==>
        |tryComputeCalls| > 0 &&
        tryComputeCalls[|tryComputeCalls| - 1] == Ok(instance.value) &&
        forall i :: 0 <= i < |tryComputeCalls| - 1 ==> tryComputeCalls[i].Err?)
    }

    constructor (warningLoggable: bool)
      ensures Valid() && this.warningLoggable == warningLoggable
      ensures instance == None && tryComputeCalls == [] && log == [] && writes == [] && closed == []
    {
      this.warningLoggable := warningLoggable;
      instance := None;
      tryComputeCalls := [];
      log := [];
      writes := [];
      closed := [];
    }

    /**
     * `get()`. `computed` is what `tryCompute` would return (or throw) if it were called now;
     * it is only called while no instance is stored.
     */
    method Get(computed: Result<StorageComponent, Exception>) returns (r: Result<StorageComponent, Exception>)
      requires Valid()
      requires computed.Err? ==> IsRuntime(computed.error)
      modifies this`instance, this`tryComputeCalls
      ensures Valid()
      ensures old(instance).Some? ==>
        r == Ok(old(instance).value) && instance == old(instance) && tryComputeCalls == old(tryComputeCalls)
      ensures old(instance).None? ==>
        r == computed && tryComputeCalls == old(tryComputeCalls) + [computed] &&
        instance == (if computed.Ok? then Some(computed.value) else None)
    {
      if instance.Some? {
        return Ok(instance.value);
      }
      tryComputeCalls := tryComputeCalls + [computed];
      if computed.Ok? {
        instance := Some(computed.value);
      }
      r := computed;
    }

    /**
     * `accept(spansSharingId)`. `computed` is as for Get; `outcome` is how the write would end.
     * Nothing escapes: every path appends exactly one log record.
     */
    method Accept(spansSharingId: seq<Span>, computed: Result<StorageComponent, Exception>, outcome: WriteOutcome)
      requires Valid()
      requires computed.Err? ==> IsRuntime(computed.error)
      requires outcome.Thrown? ==> IsRuntime(outcome.e)
      modifies this`instance, this`tryComputeCalls, this`log, this`writes
      ensures Valid()
      ensures spansSharingId == [] ==>
        log == old(log) + [EMPTY_RECORD] && writes == old(writes) &&
        instance == old(instance) && tryComputeCalls == old(tryComputeCalls)
      ensures spansSharingId != [] && old(instance).Some? ==> tryComputeCalls == old(tryComputeCalls)
      ensures spansSharingId != [] && old(instance).None? ==> tryComputeCalls == old(tryComputeCalls) + [computed]
      ensures spansSharingId != [] && old(instance).None? && computed.Err? ==>
        instance == None && writes == old(writes) &&
        log == old(log) + [DroppedRecord(|spansSharingId|, computed.error, warningLoggable)]
      ensures spansSharingId != [] && (old(instance).Some? || computed.Ok?) ==>
        instance == (if old(instance).Some? then old(instance) else Some(computed.value)) &&
        writes == old(writes) + [spansSharingId] &&
        log == old(log) + [match WriteFailure(outcome)
                           case None => WroteRecord(|spansSharingId|)
                           case Some(e) => DroppedRecord(|spansSharingId|, e, warningLoggable)]
    {
      var list := AsList(spansSharingId);
      if list == [] {
        log := log + [EMPTY_RECORD];
        return;
      }
      var storage := Get(computed);
      match storage
      case Err(e) =>
        log := log + [DroppedRecord(|list|, e, warningLoggable)];
      case Ok(component) =>
        writes := writes + [list];
        match WriteFailure(outcome)
        case None =>
          log := log + [WroteRecord(|list|)];
        case Some(e) =>
          log := log + [DroppedRecord(|list|, e, warningLoggable)];
    }

    /** `check()`: the component's own health check, building the component if needed. */
    method Check(computed: Result<StorageComponent, Exception>) returns (r: Result<CheckResult, Exception>)
      requires Valid()
      requires computed.Err? ==> IsRuntime(computed.error)
      modifies this`instance, this`tryComputeCalls
      ensures Valid()
      ensures old(instance).Some? ==>
        r == Ok(old(instance).value.health) && instance == old(instance) && tryComputeCalls == old(tryComputeCalls)
      ensures old(instance).None? ==>
        tryComputeCalls == old(tryComputeCalls) + [computed] &&
        instance == (if computed.Ok? then Some(computed.value) else None) &&
        r == match computed case Ok(c) => Ok(c.health) case Err(e) => Err(e)
    {
      var storage := Get(computed);
      match storage
      case Ok(component) => r := Ok(component.health);
      case Err(e) => r := Err(e);
    }

    /** `close()`: closes the component only if one was built, and never builds one. */
    method Close()
      requires Valid()
      modifies this`closed
      ensures Valid()
      ensures closed == old(closed) + (if instance.Some? then [instance.value] else [])
    {
      if instance.Some? {
        closed := closed + [instance.value];
      }
    }
  }

  /**
   * The memoisation scenario run sequentially: however many gets, and whatever fresh component
   * each `tryCompute` call would build, the first is built once and returned every time.
   */
  method GetRepeatedly(offered: seq<StorageComponent>) returns (results: seq<Result<StorageComponent, Exception>>, provisions: nat)
    requires |offered| > 0
    ensures |results| == |offered|
    ensures forall i :: 0 <= i < |results| ==> results[i] == Ok(offered[0])
    ensures provisions == 1
  {
    var consumer := new StorageConsumer(true);
    results := [];
    var i := 0;
    while i < |offered|
      invariant 0 <= i <= |offered|
      invariant consumer.Valid()
      invariant |results| == i
      invariant forall j :: 0 <= j < i ==> results[j] == Ok(offered[0])
      invariant i > 0 ==> consumer.instance == Some(offered[0]) && |consumer.tryComputeCalls| == 1
      invariant i == 0 ==> consumer.instance == None && consumer.tryComputeCalls == []
    {
      var r := consumer.Get(Ok(offered[i]));
      results := results + [r];
      i := i + 1;
    }
    provisions := |consumer.tryComputeCalls|;
  }
}
