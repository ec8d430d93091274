# Inference option resolution (pycbc `option_utils`)

A Dafny model of the option-resolution logic in `pycbc/inference/option_utils.py`.
The model covers two functions.

- `sampler_from_cli` looks a sampler class up by name in the sampler registry.
  It refuses `--skip-burn-in` combined with a given `--min-burn-in`.
  Otherwise it hands the options and the likelihood evaluator, unchanged, to that class's `from_cli`.
  The options record holds the sampler-group fields plus an `others` field of any type, which stands for every other command-line option.
- `results_from_cli` reads the parameter specifiers (`NAME` or `NAME:LABEL`).
  When none are given it uses the results file's variable arguments.
  It splits each specifier with Python's `str.split(':')` to get a name and a display label.
  Then, if asked, it reads the samples once with the parsed names and the window options as given.

The collaborators are values passed in:

- The sampler registry is a `map<string, (SamplerOpts<O>, L) -> S>`, one factory per sampler name.
- The results file is a `Store` record holding its `variable_args` list and its `read_label` and `read_samples` operations as function values.
- `read_samples` returns a `Result`, so a query that raises is passed on unchanged.

Files:

- `wrappers.dfy`: `Option` and `Result`.
- `pystr.dfy`: Python's `s.split(sep)` for a one-character separator, with its inverse `sep.join(parts)` and `s.count(sep)`.
- `option_utils.dfy`: module `OptionUtils`, with both resolvers and their properties.

## Model

| member | source | states |
|---|---|---|
| OptionUtils.SamplerFromCli | pycbc/inference/option_utils.py:80-84 | Succeeds exactly when the name is registered and the burn-in options are consistent (min-burn-in absent or skip-burn-in off; a minimum of 0 still counts as given). On success the result is the registered factory applied to the unchanged options and evaluator. An unknown name gives `UnknownSampler(name)`. A known name with both burn-in options gives `BurnInConflict`. |
| OptionUtils.UnknownSamplerFirst | pycbc/inference/option_utils.py:80-83 | An unknown sampler name fails at the lookup whatever the other options and the evaluator are, the burn-in conflict included. |
| OptionUtils.BurnInConflictIgnoresFactory | pycbc/inference/option_utils.py:82-83 | With a known name and both burn-in options given, the outcome is `BurnInConflict` whatever the registered factories compute, so no factory's result is used. |
| PyStr.Split | pycbc/inference/option_utils.py:172 | `token.split(':')` yields one more piece than the token has colons. No piece contains a colon, and joining the pieces with ':' gives the token back. |
| PyStr.SplitJoin | pycbc/inference/option_utils.py:172 | The other direction of the round trip: splitting the join of colon-free pieces gives those pieces back, so `Split` is the only colon-free decomposition. |
| OptionUtils.ResolveParameter | pycbc/inference/option_utils.py:172-176 | The name and label of one specifier satisfy `Resolved`. With exactly one colon, the token is `name:label` and neither side holds a colon. Otherwise the name is the whole token and the label is `read_label(token)`. |
| OptionUtils.ResolvedUnique | pycbc/inference/option_utils.py:172-176 | `Resolved` determines the name and label uniquely for every token and label reader. |
| OptionUtils.OneColonIsNameAndLabel | pycbc/inference/option_utils.py:172-174 | `name + ":" + label` with colon-free sides gives exactly that name and that label, even an empty one, and the label reader is not consulted: any two readers give the same result. |
| OptionUtils.OtherTokensReadLabel | pycbc/inference/option_utils.py:175-176 | A token with no colon or with two or more colons is kept whole as the name and labelled by `read_label` of the whole token; there is no malformed-specifier error. |
| OptionUtils.ResolveAll | pycbc/inference/option_utils.py:170-177 | The label loop yields as many names and labels as there are tokens, and position i satisfies `Resolved` for token i. |
| OptionUtils.PositionLocal | pycbc/inference/option_utils.py:171-177 | Equal tokens give equal names and labels at their positions, in one list or across two lists, so each output position depends only on its own token and duplicates pass through. |
| OptionUtils.ResolveAllAppend | pycbc/inference/option_utils.py:170-177 | Resolving `a + b` gives the results for `a` followed by those for `b`, so order is kept and nothing is merged or dropped. |
| OptionUtils.LoadLabels | pycbc/inference/option_utils.py:167-177 | The tokens are the user's specifiers when given and otherwise the file's variable arguments in stored order. Names and labels match those tokens position by position in the sense of `Resolved`. |
| OptionUtils.ResultsFromCli | pycbc/inference/option_utils.py:178-185 | Names and labels are always those of `LoadLabels`. Without loading, the call succeeds with no samples. With loading, it succeeds exactly when `read_samples` succeeds on the parsed names, the given walkers and the unchanged thin-start, thin-interval, thin-end and iteration options. It then returns those samples; otherwise it returns that query's error. |
| OptionUtils.LabelsIndependentOfLoading | pycbc/inference/option_utils.py:167-184 | For one opened results file, two option sets that request the same parameters get the same names and labels. This holds whether or not samples are loaded, and whatever the walkers and window options are. |
| OptionUtils.ExampleNamed | pycbc/inference/option_utils.py:172-174 | `"mass1:M1"` resolves to name `mass1` and label `M1`. |
| OptionUtils.ExampleEmptyLabel | pycbc/inference/option_utils.py:172-174 | `"mass1:"` resolves to name `mass1` and the empty label. |
| OptionUtils.ExampleBareName | pycbc/inference/option_utils.py:175-176 | `"mass1"` resolves to name `mass1`, labelled by `read_label("mass1")`. |
| OptionUtils.ExampleTwoColons | pycbc/inference/option_utils.py:172-176 | `"a:b:c"` is kept whole as the name and labelled by `read_label("a:b:c")`. |

## Behaviour worth knowing

- `sampler_from_cli` looks the sampler name up in the registry (line 80) before checking the burn-in options (lines 82-83). A name that is not registered is reported even when `--skip-burn-in` and `--min-burn-in` are also both given. The help text (lines 60-61) promises an error for that pair, and the code raises it only for a registered name.
- A `--min-burn-in` of 0 counts as given (line 82 tests `is not None`), so it conflicts with `--skip-burn-in`.
- A specifier with two or more colons is not rejected. `split(':')` gives three or more pieces, so the whole token becomes the name and its label comes from `read_label` (line 176).
- An explicit label is used verbatim, so `"mass1:"` is the parameter `mass1` with the empty label (lines 172-174).
- The help text (lines 113-117) describes a label search: the input file, then `pycbc.waveform.parameters`, then the parameter itself. This file only calls `read_label(p)` (line 176). That search is inside `read_label`, which is not part of this model, so the model takes the label reader as an arbitrary function.
- The help text (lines 121-133) describes default thinning bounds and says `--iteration` overrides them. This file passes all four window options to `read_samples` unchanged (lines 180-182), and so does the model. The defaults and the override are inside `read_samples`.

## Left out

- `add_sampler_option_group` and `add_inference_results_option_group` (lines 25-63, 86-135): argparse declarations with no logic.
- Opening the HDF file with `InferenceFile` and the `logging` calls (lines 165-166, 179): I/O. The opened file is an input `Store`, and the handle that `results_from_cli` also returns is not repeated in the result.
- The link between `opts.input_file` and the opened file (line 166): the model does not tie the `Store` to `ResultsOpts.inputFile`, which nothing in the model reads. Every property about names, labels and samples holds for the one `Store` passed in. Two option sets that name different input files can get different names and labels in the source.
- The internals of `read_label`, `read_samples` and the sampler classes' `from_cli`: this code is not part of the model. They are arbitrary function values.
- The in-place write `parameters[ii] = p` (line 174): the model returns fresh sequences and leaves its inputs unchanged. In the source, `parameters` is the same list object as its origin (lines 167-168), so the write changes that list. With `--parameters` given, it rewrites the caller's `opts.parameters`. After one call with `["mass1:M1"]`, `opts.parameters` is `["mass1"]`, and a second call on the same options labels `mass1` with `read_label("mass1")` rather than `M1`. With no specifiers, the write changes the object that `fp.variable_args` returned. The model gives `M1` on every call.
- `walkers`: Python accepts `None`, one int or a list of ints. The model takes `Option<seq<int>>`, with a single walker as a one-element list, and passes it through untouched.
- Errors raised by `read_label` or by a factory are not modelled: both are total functions here.
