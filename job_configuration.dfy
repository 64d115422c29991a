/**
 * ZipkinSparkStreamingConfiguration: builds and starts the job from the properties, and finds
 * the jars to ship to a cluster when a master is set but no jars are.
 */
module ZipkinSparkStreamingConfiguration {
  import opened Wrappers
  import opened Spans
  import opened Adjusters
  import opened SparkStreamingJob
  import opened ZipkinSparkStreamingProperties

  /** `LinkedHashSet.add`: a new element goes last, a present one stays where it is. */
  function AddLast<T(==)>(elements: seq<T>, x: T): seq<T> {
    if x in elements then elements else elements + [x]
  }

  /** The insertion-ordered set of `xs`: first occurrences, in order. */
  function Distinct<T(==)>(xs: seq<T>): seq<T> {
    if xs == [] then [] else AddLast(Distinct(xs[..|xs| - 1]), xs[|xs| - 1])
  }

  /** `jars.remove(null)` followed by the copy into a list. */
  function NonNull(xs: seq<Option<string>>): (r: seq<string>)
    ensures forall s :: s in r <==> Some(s) in xs
  {
    if xs == [] then []
    else
      var init := NonNull(xs[..|xs| - 1]);
      assert xs == xs[..|xs| - 1] + [xs[|xs| - 1]];
      match xs[|xs| - 1]
      case Some(s) => init + [s]
      case None => init
  }

  /** The paths `pathToJars` collects: the entry point's jar, then each adjuster's, in order. */
  function Candidates(entryPointJar: Option<string>, adjusters: seq<Adjuster>,
                      jarOf: Adjuster -> Option<string>): seq<Option<string>> {
    [entryPointJar] + seq(|adjusters|, i requires 0 <= i < |adjusters| => jarOf(adjusters[i]))
  }

  /** What `pathToJars` returns; `None` is its null result. */
  function PathToJarsOf(entryPointJar: Option<string>, adjusters: seq<Adjuster>,
                        jarOf: Adjuster -> Option<string>): Option<seq<string>> {
    var jars := NonNull(Distinct(Candidates(entryPointJar, adjusters, jarOf)));
    if jars == [] then None else Some(jars)
  }

  /**
   * `pathToJars(entryPoint, adjusters)`. `entryPointJar` is `pathToJar(entryPoint)` and
   * `jarOf(a)` is `pathToJar(a.getClass())`: the code-source lookup itself is not modelled.
   */
  method PathToJars(entryPointJar: Option<string>, adjusters: seq<Adjuster>,
                    jarOf: Adjuster -> Option<string>) returns (r: Option<seq<string>>)
    ensures r == PathToJarsOf(entryPointJar, adjusters, jarOf)
  {
    ghost var candidates := Candidates(entryPointJar, adjusters, jarOf);
    var jars: seq<Option<string>> := [];
    jars := AddLast(jars, entryPointJar);
    assert candidates[..1] == [entryPointJar];
    assert Distinct(candidates[..1]) == jars by {
      assert candidates[..1][..0] == [];
    }
    for i := 0 to |adjusters|
      invariant jars == Distinct(candidates[..i + 1])
    {
      assert candidates[..i + 2][..i + 1] == candidates[..i + 1];
      jars := AddLast(jars, jarOf(adjusters[i]));
    }
    assert candidates[..|adjusters| + 1] == candidates;
    var list := NonNull(jars);
    r := if list == [] then None else Some(list);
  }

  predicate NoDuplicates<T(==)>(xs: seq<T>) {
    forall i, j :: 0 <= i < j < |xs| ==> xs[i] != xs[j]
  }

  /** The position of the first occurrence of `x`. */
  function FirstIndex<T(==)>(xs: seq<T>, x: T): (k: nat)
    requires x in xs
    ensures k < |xs| && xs[k] == x && forall j :: 0 <= j < k ==> xs[j] != x
  {
    if xs[0] == x then 0 else 1 + FirstIndex(xs[1..], x)
  }

  /** Distinct keeps every element once, and orders them by first occurrence. */
  lemma {:induction false} DistinctProperties<T>(xs: seq<T>)
    ensures forall x :: x in Distinct(xs) <==> x in xs
    ensures NoDuplicates(Distinct(xs))
    ensures forall i, j :: 0 <= i < j < |Distinct(xs)| ==>
      FirstIndex(xs, Distinct(xs)[i]) < FirstIndex(xs, Distinct(xs)[j])
  {
    if xs != [] {
      var init, last := xs[..|xs| - 1], xs[|xs| - 1];
      DistinctProperties(init);
      assert xs == init + [last];
      var d := Distinct(xs);
      forall x | x in init ensures FirstIndex(xs, x) == FirstIndex(init, x) {
        FirstIndexPrefix(init, [last], x);
      }
      if last !in init {
        assert FirstIndex(xs, last) == |xs| - 1;
      }
    }
  }

  lemma {:induction false} FirstIndexPrefix<T>(xs: seq<T>, ys: seq<T>, x: T)
    requires x in xs
    ensures x in xs + ys && FirstIndex(xs + ys, x) == FirstIndex(xs, x)
  {
    if xs[0] != x {
      assert (xs + ys)[1..] == xs[1..] + ys;
      FirstIndexPrefix(xs[1..], ys, x);
    }
  }

  /**
   * Dropping the nulls from a list without duplicates keeps the rest once each and in their
   * relative order.
   */
  lemma {:induction false} NonNullKeepsOrder(xs: seq<Option<string>>)
    requires NoDuplicates(xs)
    ensures NoDuplicates(NonNull(xs))
    ensures forall i, j :: 0 <= i < j < |NonNull(xs)| ==>
      FirstIndex(xs, Some(NonNull(xs)[i])) < FirstIndex(xs, Some(NonNull(xs)[j]))
  {
    if xs != [] {
      var n := |xs| - 1;
      var init := xs[..n];
      NonNullKeepsOrder(init);
      assert xs == init + [xs[n]];
      assert forall s :: s in NonNull(init) ==> Some(s) in init;
      forall s | s in NonNull(init)
        ensures FirstIndex(xs, Some(s)) == FirstIndex(init, Some(s)) < n
      {
        FirstIndexPrefix(init, [xs[n]], Some(s));
      }
      if xs[n].Some? {
        assert FirstIndex(xs, xs[n]) == n;
      }
    }
  }

  /**
   * The jars are the distinct non-null paths, each once, in the order their first occurrence
   * was collected; the entry point's jar, when it has one, comes first; and the result is null
   * exactly when no path was found.
   */
  lemma PathToJarsProperties(entryPointJar: Option<string>, adjusters: seq<Adjuster>,
                             jarOf: Adjuster -> Option<string>)
    ensures var r := PathToJarsOf(entryPointJar, adjusters, jarOf);
      var candidates := Candidates(entryPointJar, adjusters, jarOf);
      (r.None? <==> forall i :: 0 <= i < |candidates| ==> candidates[i].None?) &&
      (r.Some? ==> NoDuplicates(r.value) && (forall s :: s in r.value <==> Some(s) in candidates)) &&
      (r.Some? ==> forall i, j :: 0 <= i < j < |r.value| ==>
         FirstIndex(candidates, Some(r.value[i])) < FirstIndex(candidates, Some(r.value[j]))) &&
      (r.Some? && entryPointJar.Some? ==> r.value[0] == entryPointJar.value)
  {
    var candidates := Candidates(entryPointJar, adjusters, jarOf);
    DistinctProperties(candidates);
    var d := Distinct(candidates);
    NonNullKeepsOrder(d);
    var r := PathToJarsOf(entryPointJar, adjusters, jarOf);
    if r.None? {
      forall i | 0 <= i < |candidates| ensures candidates[i].None? {
        assert candidates[i] in candidates;
      }
    } else {
      var s := r.value[0];
      assert Some(s) in candidates;
      var jars := r.value;
      forall i, j | 0 <= i < j < |jars|
        ensures FirstIndex(candidates, Some(jars[i])) < FirstIndex(candidates, Some(jars[j]))
      {
        var p, q := FirstIndex(d, Some(jars[i])), FirstIndex(d, Some(jars[j]));
        assert d[p] == Some(jars[i]) && d[q] == Some(jars[j]);
      }
    }
    if entryPointJar.Some? {
      assert d[0] == entryPointJar by {
        assert candidates[0] == entryPointJar;
        assert entryPointJar in d;
      }
      NonNullHead(d);
    }
  }

  lemma {:induction false} NonNullHead(xs: seq<Option<string>>)
    requires |xs| > 0 && xs[0].Some?
    ensures |NonNull(xs)| > 0 && NonNull(xs)[0] == xs[0].value
  {
    if |xs| > 1 {
      var init := xs[..|xs| - 1];
      assert init[0] == xs[0];
      NonNullHead(init);
    } else {
      assert xs[..0] == [];
    }
  }

  /**
   * `sparkStreaming(properties, streamFactory, consumer)`: the job built from the properties,
   * the injected adjusters and collaborators, with discovered jars only when a master is set
   * and no jars are; a null discovery result leaves the jars alone. The job is then started.
   */
  method SparkStreaming(properties: ZipkinSparkStreamingProperties, entryPointJar: Option<string>,
                        adjusters: seq<Adjuster>, jarOf: Adjuster -> Option<string>,
                        streamFactory: StreamFactory, consumer: Consumer,
                        systemProperties: map<string, string>)
    returns (builder: Builder, job: SparkStreamingJob)
    ensures var discovered := PathToJarsOf(entryPointJar, adjusters, jarOf);
      builder == properties.ToBuilder().(
        jars := if properties.master.Some? && properties.jars.None? && discovered.Some?
                then discovered.value else properties.ToBuilder().jars,
        adjusters := adjusters,
        streamFactory := Some(streamFactory),
        consumer := Some(consumer))
    ensures fresh(job) && job.started && Build(builder) == Ok(job.config)
  {
    builder := properties.ToBuilder();
    if properties.master.Some? && properties.jars.None? {
      var pathToJars := PathToJars(entryPointJar, adjusters, jarOf);
      if pathToJars.Some? {
        builder := builder.(jars := pathToJars.value);
      }
    }
    builder := builder.(streamFactory := Some(streamFactory), adjusters := adjusters, consumer := Some(consumer));
    var config := Build(builder);
    job := new SparkStreamingJob(config.value, systemProperties);
    job.Start();
  }
}
