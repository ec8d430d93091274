/** Resolution of command-line options for an inference run
    (pycbc/inference/option_utils.py): choosing and building a sampler from
    its options, and turning the results-loading options into parameter names,
    display labels and at most one sample query against a results file.

    The collaborators this code calls but does not contain are values passed
    in: the sampler registry is a map from names to factory functions, and the
    results file is a record of its variable arguments and its `read_label`
    and `read_samples` operations. */
module OptionUtils {
  import opened Wrappers
  import opened PyStr

  // ---------------------------------------------------------------------------
  // Setting up a sampler
  // ---------------------------------------------------------------------------

  /** The options parsed from the command line, as the sampler sees them.
      Optional integers left out on the command line are `None`;
      `--skip-burn-in` is a flag. `others` holds every option outside the
      sampler group, which a sampler class may read as well. */
  datatype SamplerOpts<O> = SamplerOpts(
    sampler: string,
    niterations: int,
    nprocesses: Option<int>,
    nwalkers: Option<int>,
    ntemps: Option<int>,
    minBurnIn: Option<int>,
    skipBurnIn: bool,
    others: O)

  /** Why a sampler could not be set up: the registry lookup raised for an
      unknown name, or skip-burn-in and min-burn-in were both given. */
  datatype SamplerError = UnknownSampler(name: string) | BurnInConflict

  /** A sampler class's `from_cli`: builds a sampler of type `S` from the
      options and a likelihood evaluator of type `L`. */
  type Factory<-L, S, !O> = (SamplerOpts<O>, L) -> S

  /** The burn-in options agree: a minimum burn-in may be given only when
      burn-in is not skipped. A given minimum of 0 still counts as given. */
  predicate BurnInConsistent<O>(opts: SamplerOpts<O>)
  {
    !opts.skipBurnIn || opts.minBurnIn.None?
  }

  /** `sampler_from_cli`: look the sampler up by name, reject contradictory
      burn-in options, and hand the options and the evaluator, unchanged, to
      the chosen sampler class. The lookup comes first, so an unknown name is
      reported whatever the burn-in options say. */
  function SamplerFromCli<L, S, O>(registry: map<string, Factory<L, S, O>>, opts: SamplerOpts<O>, evaluator: L)
    : (r: Result<S, SamplerError>)
    ensures r.Success? <==> opts.sampler in registry && BurnInConsistent(opts)
    ensures r.Success? ==> r.value == registry[opts.sampler](opts, evaluator)
    ensures opts.sampler !in registry ==> r == Failure(UnknownSampler(opts.sampler))
    ensures opts.sampler in registry && !BurnInConsistent(opts) ==> r == Failure(BurnInConflict)
  {
    if opts.sampler !in registry then
      Failure(UnknownSampler(opts.sampler))
    else
      var factory := registry[opts.sampler];
      if opts.skipBurnIn && opts.minBurnIn.Some? then
        Failure(BurnInConflict)
      else
        Success(factory(opts, evaluator))
  }

  /** An unknown sampler name decides the outcome on its own: changing any
      other option, the burn-in ones included, or the evaluator does not
      change the error. */
  lemma UnknownSamplerFirst<L, S, O>(registry: map<string, Factory<L, S, O>>, opts: SamplerOpts<O>, other: SamplerOpts<O>, e1: L, e2: L)
    requires opts.sampler !in registry
    requires other.sampler == opts.sampler
    ensures SamplerFromCli(registry, other, e2) == SamplerFromCli(registry, opts, e1)
    ensures SamplerFromCli(registry, opts, e1) == Failure(UnknownSampler(opts.sampler))
  {
  }

  /** With contradictory burn-in options and a known name, no factory is
      called: the outcome is the same whatever the registered factories do. */
  lemma BurnInConflictIgnoresFactory<L, S, O>(r1: map<string, Factory<L, S, O>>, r2: map<string, Factory<L, S, O>>, opts: SamplerOpts<O>, evaluator: L)
    requires r1.Keys == r2.Keys && opts.sampler in r1
    requires opts.skipBurnIn && opts.minBurnIn.Some?
    ensures SamplerFromCli(r1, opts, evaluator) == SamplerFromCli(r2, opts, evaluator) == Failure(BurnInConflict)
  {
  }

  // ---------------------------------------------------------------------------
  // Loading results
  // ---------------------------------------------------------------------------

  /** The results-loading options: the requested parameter specifiers (each
      `NAME` or `NAME:LABEL`; `None` when the option was not given) and the
      sample window, passed on to the results file as given. `inputFile`
      names the file to open; opening it is outside the model, so the opened
      file is a separate `Store` argument and this field is not read. */
  datatype ResultsOpts = ResultsOpts(
    inputFile: string,
    parameters: Option<seq<string>>,
    thinStart: Option<int>,
    thinInterval: Option<int>,
    thinEnd: Option<int>,
    iteration: Option<int>)

  /** The arguments of one `read_samples` call on the results file. */
  datatype SampleQuery = SampleQuery(
    parameters: seq<string>,
    walkers: Option<seq<int>>,
    thinStart: Option<int>,
    thinInterval: Option<int>,
    thinEnd: Option<int>,
    iteration: Option<int>)

  /** Whatever the results file raises when a query fails. */
  datatype StoreError = StoreError(message: string)

  /** An opened results file: its variable arguments in stored order, its
      label lookup and its sample reader returning samples of type `S`. */
  datatype Store<S> = Store(
    variableArgs: seq<string>,
    readLabel: string -> string,
    readSamples: SampleQuery -> Result<S, StoreError>)

  /** One parameter with the label it is shown under. */
  datatype ResolvedParameter = ResolvedParameter(name: string, displayLabel: string)

  /** The parameter names and labels, position by position. */
  datatype Labelled = Labelled(parameters: seq<string>, labels: seq<string>)

  /** What `results_from_cli` returns besides the file: names, labels and the
      samples, `None` when loading them was not asked for. */
  datatype Loaded<S> = Loaded(parameters: seq<string>, labels: seq<string>, samples: Option<S>)

  /** How a specifier relates to the name and label it yields, stated without
      splitting: a token with exactly one colon is `name:label` with the colon
      removed and both sides taken verbatim; any other token is the name
      itself, labelled by the results file. */
  ghost predicate Resolved(token: string, readLabel: string -> string, name: string, lbl: string)
  {
    if Count(token, ':') == 1 then
      token == name + ":" + lbl && ':' !in name && ':' !in lbl
    else
      name == token && lbl == readLabel(token)
  }

  /** `Resolved` pins down one name and one label for every token. */
  lemma ResolvedUnique(token: string, readLabel: string -> string, n1: string, l1: string, n2: string, l2: string)
    requires Resolved(token, readLabel, n1, l1) && Resolved(token, readLabel, n2, l2)
    ensures n1 == n2 && l1 == l2
  {
    if Count(token, ':') == 1 {
      SplitOnce(n1, l1, ':');
      SplitOnce(n2, l2, ':');
    }
  }

  /** One iteration of the label loop: split the token on ':'; two pieces are
      name and label; otherwise the token is kept and its label read from
      the results file. */
  function ResolveParameter(token: string, readLabel: string -> string): (r: ResolvedParameter)
    ensures Resolved(token, readLabel, r.name, r.displayLabel)
  {
    var parts := Split(token, ':');
    if |parts| == 2 then
      assert token == parts[0] + ":" + parts[1] by {
        assert parts[1..] == [parts[1]];
      }
      ResolvedParameter(parts[0], parts[1])
    else
      ResolvedParameter(token, readLabel(token))
  }

  /** The label loop over all tokens: one name and one label per token, in
      token order, duplicates kept. */
  function ResolveAll(tokens: seq<string>, readLabel: string -> string): (r: Labelled)
    ensures |r.parameters| == |tokens| && |r.labels| == |tokens|
    ensures forall i :: 0 <= i < |tokens| ==> Resolved(tokens[i], readLabel, r.parameters[i], r.labels[i])
  {
    if |tokens| == 0 then Labelled([], [])
    else
      var head := ResolveParameter(tokens[0], readLabel);
      var rest := ResolveAll(tokens[1..], readLabel);
      Labelled([head.name] + rest.parameters, [head.displayLabel] + rest.labels)
  }

  /** The tokens to resolve: the user's specifiers when given, otherwise the
      file's variable arguments. */
  function Tokens<S>(store: Store<S>, opts: ResultsOpts): seq<string>
  {
    match opts.parameters
    case Some(ps) => ps
    case None => store.variableArgs
  }

  /** Names and labels for the results options, before any samples are read. */
  function LoadLabels<S>(store: Store<S>, opts: ResultsOpts): (r: Labelled)
    ensures opts.parameters.Some? ==> |r.parameters| == |opts.parameters.value| == |r.labels|
    ensures opts.parameters.Some? ==>
      forall i :: 0 <= i < |r.parameters| ==>
        Resolved(opts.parameters.value[i], store.readLabel, r.parameters[i], r.labels[i])
    ensures opts.parameters.None? ==> |r.parameters| == |store.variableArgs| == |r.labels|
    ensures opts.parameters.None? ==>
      forall i :: 0 <= i < |r.parameters| ==>
        Resolved(store.variableArgs[i], store.readLabel, r.parameters[i], r.labels[i])
  {
    ResolveAll(Tokens(store, opts), store.readLabel)
  }

  /** `results_from_cli`: resolve names and labels, then, only if asked, read
      the samples once with the resolved names, the given walkers and the
      window options exactly as given; a failing read is passed on as is.
      As in Python, samples are loaded from all walkers unless told otherwise. */
  function ResultsFromCli<S>(store: Store<S>, opts: ResultsOpts, loadSamples: bool := true, walkers: Option<seq<int>> := None)
    : (r: Result<Loaded<S>, StoreError>)
    ensures var ll := LoadLabels(store, opts);
      r.Success? ==> r.value.parameters == ll.parameters && r.value.labels == ll.labels
    ensures !loadSamples ==> r.Success? && r.value.samples.None?
    ensures var ll := LoadLabels(store, opts);
      var q := SampleQuery(ll.parameters, walkers, opts.thinStart, opts.thinInterval, opts.thinEnd, opts.iteration);
      loadSamples ==>
        (r.Success? <==> store.readSamples(q).Success?)
        && (r.Success? ==> r.value.samples == Some(store.readSamples(q).value))
        && (r.Failure? ==> r.error == store.readSamples(q).error)
  {
    var ll := LoadLabels(store, opts);
    if loadSamples then
      var query := SampleQuery(ll.parameters, walkers, opts.thinStart, opts.thinInterval, opts.thinEnd, opts.iteration);
      match store.readSamples(query)
      case Success(samples) => Success(Loaded(ll.parameters, ll.labels, Some(samples)))
      case Failure(e) => Failure(e)
    else
      Success(Loaded(ll.parameters, ll.labels, None))
  }

  // ---------------------------------------------------------------------------
  // Properties of label resolution
  // ---------------------------------------------------------------------------

  /** A token with exactly one colon gives the text before it as the name and
      the text after it, even empty, as the label; the label reader is not
      consulted, so any two readers agree. */
  lemma OneColonIsNameAndLabel(name: string, lbl: string, f: string -> string, g: string -> string)
    requires ':' !in name && ':' !in lbl
    ensures ResolveParameter(name + ":" + lbl, f) == ResolvedParameter(name, lbl)
    ensures ResolveParameter(name + ":" + lbl, f) == ResolveParameter(name + ":" + lbl, g)
  {
    SplitOnce(name, lbl, ':');
  }

  /** A token with no colon, or with two or more, is its own name and is
      labelled by the file's `read_label` of the whole token. */
  lemma OtherTokensReadLabel(token: string, readLabel: string -> string)
    requires Count(token, ':') != 1
    ensures ResolveParameter(token, readLabel) == ResolvedParameter(token, readLabel(token))
  {
  }

  /** Each output position depends only on the token at that position: equal
      tokens, in the same list or in two lists, give equal names and labels. */
  lemma PositionLocal(a: seq<string>, b: seq<string>, i: nat, j: nat, readLabel: string -> string)
    requires i < |a| && j < |b| && a[i] == b[j]
    ensures ResolveAll(a, readLabel).parameters[i] == ResolveAll(b, readLabel).parameters[j]
    ensures ResolveAll(a, readLabel).labels[i] == ResolveAll(b, readLabel).labels[j]
  {
    var ra := ResolveAll(a, readLabel);
    var rb := ResolveAll(b, readLabel);
    ResolvedUnique(a[i], readLabel, ra.parameters[i], ra.labels[i], rb.parameters[j], rb.labels[j]);
  }

  /** Resolving a concatenation resolves each part in turn: order is kept and
      nothing is merged or dropped. */
  lemma ResolveAllAppend(a: seq<string>, b: seq<string>, readLabel: string -> string)
    ensures ResolveAll(a + b, readLabel).parameters == ResolveAll(a, readLabel).parameters + ResolveAll(b, readLabel).parameters
    ensures ResolveAll(a + b, readLabel).labels == ResolveAll(a, readLabel).labels + ResolveAll(b, readLabel).labels
  {
    var r := ResolveAll(a + b, readLabel);
    var ra := ResolveAll(a, readLabel);
    var rb := ResolveAll(b, readLabel);
    var ps := ra.parameters + rb.parameters;
    var ls := ra.labels + rb.labels;
    forall k | 0 <= k < |a + b|
      ensures r.parameters[k] == ps[k] && r.labels[k] == ls[k]
    {
      if k < |a| {
        assert (a + b)[k] == a[k];
        ResolvedUnique(a[k], readLabel, r.parameters[k], r.labels[k], ra.parameters[k], ra.labels[k]);
      } else {
        assert (a + b)[k] == b[k - |a|];
        ResolvedUnique(b[k - |a|], readLabel, r.parameters[k], r.labels[k], rb.parameters[k - |a|], rb.labels[k - |a|]);
      }
    }
    assert r.parameters == ps;
    assert r.labels == ls;
  }

  /** For one opened results file, the names and labels do not depend on
      whether samples are loaded, on the walkers, or on the window options:
      two option sets that request the same parameters get the same names
      and labels. */
  lemma LabelsIndependentOfLoading<S>(store: Store<S>, o1: ResultsOpts, o2: ResultsOpts, w1: Option<seq<int>>, w2: Option<seq<int>>)
    requires o1.parameters == o2.parameters
    requires ResultsFromCli(store, o1, true, w1).Success?
    ensures ResultsFromCli(store, o1, true, w1).value.parameters == ResultsFromCli(store, o2, false, w2).value.parameters
    ensures ResultsFromCli(store, o1, true, w1).value.labels == ResultsFromCli(store, o2, false, w2).value.labels
  {
  }

  /** "mass1:M1" is the parameter mass1 shown as M1. */
  lemma ExampleNamed(readLabel: string -> string)
    ensures ResolveParameter("mass1:M1", readLabel) == ResolvedParameter("mass1", "M1")
  {
    OneColonIsNameAndLabel("mass1", "M1", readLabel, readLabel);
    assert "mass1" + ":" + "M1" == "mass1:M1";
  }

  /** "mass1:" is the parameter mass1 with an empty label, kept as given. */
  lemma ExampleEmptyLabel(readLabel: string -> string)
    ensures ResolveParameter("mass1:", readLabel) == ResolvedParameter("mass1", "")
  {
    OneColonIsNameAndLabel("mass1", "", readLabel, readLabel);
  }

  /** "mass1" is labelled by the file. */
  lemma ExampleBareName(readLabel: string -> string)
    ensures ResolveParameter("mass1", readLabel) == ResolvedParameter("mass1", readLabel("mass1"))
  {
    CountZero("mass1", ':');
    OtherTokensReadLabel("mass1", readLabel);
  }

  /** "a:b:c" is not an error: the whole token is the name, labelled by the file. */
  lemma ExampleTwoColons(readLabel: string -> string)
    ensures ResolveParameter("a:b:c", readLabel) == ResolvedParameter("a:b:c", readLabel("a:b:c"))
  {
    var parts := ["a", "b", "c"];
    assert Join(parts, ':') == "a:b:c" by {
      assert parts[1..] == ["b", "c"] && parts[1..][1..] == ["c"];
    }
    SplitJoin(parts, ':');
    OtherTokensReadLabel("a:b:c", readLabel);
  }
}
