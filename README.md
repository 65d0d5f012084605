# Model comparison driver — run plan and dispatch

This project models the part of `src/scripts/compare_models.py` that decides
what the model-comparison driver does once its command-line flags are parsed:

- which training scripts it runs, and in which order: the four baseline
  scripts always, then `roberta_main.py` under `--include_roberta` or
  `--include_all`, then `lstm_main.py` and `lstm_roberta_main.py` under
  `--include_all`;
- which arguments each script gets: `--sample_size=<n>` for every script,
  where the transformer scripts get the sample size capped at 20000, and
  `--mode=train` after it for the two LSTM scripts;
- which time limit each script gets: the requested `--timeout`, raised to at
  least 3600 seconds for `roberta_main.py` and `lstm_roberta_main.py`;
- how one script is run (`run_script`): the command line is the interpreter,
  the script, then the arguments in order, and the run counts as a success
  only for exit status 0. A non-zero exit, a timeout and any other exception
  all count as failure;
- the main loop: every planned script is run exactly once, in plan order. A
  failure only produces a warning and the loop goes on. With
  `--skip_training` nothing is run, and the report is saved and the results
  shown in both cases.

The project has three modules:

- `Wrappers` (`wrappers.dfy`) holds the `Option` type.
- `CommandArgs` (`command_args.dfy`) holds the argument datatype `Arg`. It
  renders arguments to text the way the driver's f-strings do: an integer is
  written like Python's `str(int)`. It also holds a parser, used only as the
  inverse that shows rendering loses nothing.
- `CompareModels` (`compare_models.dfy`) holds the flags, the script table,
  the plan, the time-limit rule, `run_script` and the main routine.

The main loop is imperative in the source, so it is modelled by methods.
`BuildScripts` appends to the script list step by step. `RunAll` loops over
that list. `RunScript` builds the command and maps the outcome to a boolean.
Each method is proved against a specification function: `Plan`,
`ScriptTimeout`, `Command`, `FailedNames` and `Invocations`. The lemmas state
the driver's promises about those functions.

Running a subprocess is not modelled. Each method takes an `env` parameter of
type `Invocation -> Outcome`: it gives, for a command line and a time limit,
what the subprocess did (`Exited(code)`, `TimedOut` or `Raised`). All
scripts in one plan have distinct names (`PlanNamesDistinct`), so no two
runs of one driver invocation share a command line and time limit
(`InvocationsDistinct`). So one function of the invocation can stand for any
combination of outcomes in a single run.

The sample-size expression at line 163,
`min(n, 20000) if n > 20000 else n`, is modelled as written.
`TransformerSampleSize` proves that it equals `min(n, 20000)`, so the
conditional adds nothing. This is not an error in the source.

## Model

| member | source | states |
|---|---|---|
| `CommandArgs.NatToDecimal` | src/scripts/compare_models.py:154 | the decimal text of a natural number is non-empty, all digits, and starts with `0` only for zero (no leading zeros) |
| `CommandArgs.IntToDecimal` | src/scripts/compare_models.py:154 | the text of an integer is non-empty and starts with a minus sign exactly when the integer is negative; after the sign come one or more digits, with a leading `0` only for zero |
| `CommandArgs.NatToDecimalRoundTrip` | src/scripts/compare_models.py:154 | reading the decimal text of a natural number back gives that number |
| `CommandArgs.IntToDecimalRoundTrip` | src/scripts/compare_models.py:154 | reading the text of any integer, negative ones included, back gives that integer |
| `CommandArgs.RenderRoundTrip` | src/scripts/compare_models.py:173-181 | every `--sample_size=<n>` and `--mode=train` word the driver writes reads back as the argument it came from |
| `CommandArgs.RenderInjective` | src/scripts/compare_models.py:173-181 | two different arguments are never written as the same word |
| `CommandArgs.RenderAll` | src/scripts/compare_models.py:36-38 | the words for an argument list have the same length, and word `i` is the rendering of argument `i` |
| `CommandArgs.RenderAllInjective` | src/scripts/compare_models.py:36-38 | different argument lists give different word lists |
| `CompareModels.ScriptNameInjective` | src/scripts/compare_models.py:140-148 | the script table maps no two models to the same file |
| `CompareModels.TransformerSampleSize` | src/scripts/compare_models.py:163 | the transformer sample size is at most 20000 and at most the requested size; it is one of those two values, so it equals their minimum; it equals the requested size whenever that is at most 20000 |
| `CompareModels.Plan` | src/scripts/compare_models.py:153-181 | the plan has 7 entries under `--include_all`, else 5 under `--include_roberta`, else 4; entries 0-3 are `mlp_basic_main.py`, `mlp_enhanced_main.py`, `kernel_approximation_main.py` and `randomized_pca_main.py`, each with only `--sample_size=<requested>`; entry 4 is `roberta_main.py` with the capped sample size; entries 5 and 6 are `lstm_main.py` and `lstm_roberta_main.py`, each with the capped sample size then `--mode=train` |
| `CompareModels.PlanRunsSelected` | src/scripts/compare_models.py:153-181 | entry `i` of the plan runs the script of the `i`-th selected model |
| `CompareModels.PlanRunsRobertaIff` | src/scripts/compare_models.py:161-169 | `roberta_main.py` is in the plan if and only if `--include_roberta` or `--include_all` is given |
| `CompareModels.PlanRunsLstmIff` | src/scripts/compare_models.py:172-181 | `lstm_main.py` is in the plan if and only if `--include_all` is given, and so is `lstm_roberta_main.py` |
| `CompareModels.PlanNamesDistinct` | src/scripts/compare_models.py:153-181 | no script appears twice in a plan |
| `CompareModels.BuildScripts` | src/scripts/compare_models.py:153-181 | building the list by appending, as the driver does, yields exactly the plan |
| `CompareModels.ScriptTimeout` | src/scripts/compare_models.py:185-188 | `roberta_main.py` and `lstm_roberta_main.py` get a limit that is at least 3600 and at least the requested one, and is one of the two; every other script gets exactly the requested limit |
| `CompareModels.ModelTimeout` | src/scripts/compare_models.py:185-188 | for each model, the limit is `max(requested, 3600)` for RoBERTa and LSTM-RoBERTa and the requested limit for every other model, `lstm_main.py` included |
| `CompareModels.Command` | src/scripts/compare_models.py:33-38 | the command has two more words than there are arguments: the interpreter, the script, then the argument words of `RenderAll`, in order |
| `CompareModels.CommandInjective` | src/scripts/compare_models.py:33-38 | the command line determines the interpreter, the script and every argument |
| `CompareModels.RunScript` | src/scripts/compare_models.py:29-64 | runs the command above under the given limit and succeeds if and only if the run exited with status 0, so a non-zero exit, a timeout and any other exception all give failure |
| `CompareModels.RunEntry` | src/scripts/compare_models.py:185-190 | one pass of the loop runs the entry's command under `ScriptTimeout` of the entry's name and the requested timeout, and succeeds if and only if that run exited with status 0 |
| `CompareModels.FailedNamesExactly` | src/scripts/compare_models.py:191-192 | a script name is warned about if and only if some run of that script failed |
| `CompareModels.RunAll` | src/scripts/compare_models.py:184-192 | the runs made are `PlannedInvocations`: exactly one per list entry, in list order, each with that entry's command and time limit, whatever earlier runs did; the results are `Successes`: result `i` is true if and only if run `i` exited with status 0; the warnings are `FailedNames`: the names of the failed entries, in order |
| `CompareModels.Invocations` | src/scripts/compare_models.py:151-192 | with `--skip_training` no script is run; otherwise there is one run per plan entry |
| `CompareModels.InvocationsDistinct` | src/scripts/compare_models.py:184-190 | no two runs the driver makes for one set of flags have the same command line and time limit |
| `CompareModels.InvocationTimeout` | src/scripts/compare_models.py:184-190 | run `i` gets `max(timeout, 3600)` if it trains RoBERTa or LSTM-RoBERTa and the requested timeout otherwise |
| `CompareModels.DefaultInvocations` | src/scripts/compare_models.py:151-158 | with the default flags (sample size 20000 and timeout 1800, lines 112 and 119) the driver runs exactly the four baseline scripts, each with `--sample_size=20000` and a limit of 1800 seconds |
| `CompareModels.IncludeAllLstmInvocations` | src/scripts/compare_models.py:172-190 | under `--include_all` there are 7 runs; the last two are `lstm_main.py` with the requested timeout and `lstm_roberta_main.py` with `max(timeout, 3600)`, each with `--sample_size=min(n, 20000)` then `--mode=train` |
| `CompareModels.Compare` | src/scripts/compare_models.py:150-200 | the runs are exactly `Invocations` of the flags, which does not depend on the outcomes, so a failure never stops later scripts; each result is success if and only if exit status 0; warnings are the failed scripts' names, none when training is skipped; training or the skip notice is followed by saving the report and showing the results in both cases |

## Left out

- Running subprocesses, wall-clock timing, and capturing stdout and stderr. A run's outcome is the `env` parameter.
- `sys.executable` is the `interpreter` parameter.
- The script path. The source joins the script name onto the script's directory (line 33). The model uses the script name as the path.
- Log messages are not modelled. Only the warnings of failed scripts (line 192) are recorded, as the names they mention.
- Argument parsing by `argparse`. The flags come in already parsed, and the defaults at lines 112 and 119 are the constants `DefaultSampleSize` and `DefaultTimeout`. `--verbose` is parsed but never read, so `Flags` leaves it out.
- The default `timeout=1800` of `run_script` (line 29). The main loop always passes a timeout (line 190), so `RunScript` takes it as a parameter.
- `args=None` in `run_script`. The model's argument lists are sequences, so `None` and the empty list are the same value. Both append nothing (line 37).
- `CompareModels.Compare`: `save_report_to_file` (line 197) belongs to the results tracker, and `utils/results_tracker.py` is not part of this model. `load_and_display_results` (line 200) reads CSV and text files. The stage `ReportSaved` stands for the call at line 197, and `ResultsDisplayed` for the call at line 200. `print_model_comparison` is imported (line 20) but never called. The exception handler at lines 204-206 logs and re-raises errors from those calls. It is not modelled.
- `CommandArgs.ParseArg` is a reference inverse only. It does not model how the training scripts parse their arguments, since those scripts are not part of this model.
- `src/utils/model.py`: the network wrapper is configuration of a deep-learning framework, with floating-point training, metrics, file I/O and plotting. None of it is modelled.
