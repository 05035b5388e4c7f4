# multibench core in Dafny

A model of the logic in `multibench/core.py`, the support module of a harness
that benchmarks a program under fixed CPU/memory affinity while filler jobs
keep the other cores busy. The model covers four parts:

- **Affinity settings** (`affinity.dfy`, module `Affinity`). The module-wide
  globals `affinity_cmd`, `mem_cmd` and `problem_string` become the fields of
  class `Settings`. The two host-probe results `HAVE_NUMACTL` and
  `HAVE_TASKSET` become constant fields. `set_affinity_cmd` and
  `set_problem_string` are methods that update those fields. The pure function
  `Configure` states what a call to `set_affinity_cmd` produces: the new pair
  of token lists, or the `ValueError` raised. The constructor is the imported
  module: it applies the defaults `set_affinity_cmd('numactl', None)` and
  `set_problem_string('problem')` and establishes the object invariant
  `Valid()`. Module import, with its failures, is the static method
  `Settings.Load`. It checks that at least one tool is present and that the
  default call succeeds, and only then constructs the settings.
- **Field counting** (`fields.dfy`, module `Fields`). Python's `str.split(',')`,
  with its inverse `Join`. The model proves that the field count is one more
  than the number of commas, that `Join` undoes `Split`, and that no field
  contains the separator.
- **CPU/GPU validators** (`cpu_lists.dfy`, module `CpuLists`).
  - `parse_cpu_affinity_list` is a method with the source's loop. It is
    specified by the function `ThreadsPerJob`.
  - `use_gpus` is the function `UseGpus`, taken over the two lists themselves.
- **Repetition search** (`sampler.dfy`, module `Sampler`).
  `MultiBenchProblem.needed_n` is a method with the source's `for`/`break`
  loop. The clock is replaced by `times`, where `times[i - 1]` is the duration
  measured for `10^i` calls. The method also returns the trial counts it used,
  in order, as a ghost value because the source returns only `n`. The target
  `secs` is a Python float, so it may be finite, plus or minus infinity, or
  NaN (`--mbench-time` is parsed with `float()`). The comparison `x > secs`
  follows IEEE rules for each case.

`results.dfy` holds the `Option`/`Result`/`Outcome` datatypes. A Python
`ValueError`/`RuntimeError` becomes an `Err`/`Fail` value carrying an error tag.

Behaviour of `multibench/core.py` that a reader might not expect:

- `use_gpus` rejects a non-empty GPU list unless there is **exactly one** CPU
  affinity entry (multibench/core.py:266), so an empty entry list is rejected
  too (`UseGpus`).
- `needed_n` has no special case for a target of zero or less
  (multibench/core.py:344-348). The first trial always runs, and the
  comparison is strict. With a target of 0 and a first trial measuring
  0 seconds, the search returns at least `n = 100` (`ZeroSecsMayContinue`). With a
  NaN target it always runs all nine trials and returns 10^9
  (`NaNRunsAllTrials`).
- The total number of `execute` calls over all trials is `(10^(k+1) - 10) / 9`
  after `k` trials. In the worst case it is 1,111,111,110, more than the
  10^9 calls of the last trial alone (`TotalExecutions`).
- Import succeeds only when numactl is present (multibench/core.py:74-75, 95).
  With only taskset on the path, the default `set_affinity_cmd('numactl', None)`
  raises (`LoadBinding`).

## Model

| member | source | states |
|---|---|---|
| `Affinity.Configure` | multibench/core.py:74-91 | success iff numactl is chosen and present, or taskset is chosen, present and bindmem is not True; a success is always a permitted binding; it binds local memory iff the command is numactl and bindmem is not False |
| `Affinity.NumactlChosen` | multibench/core.py:83-88 | with numactl present the result is `['numactl','-C']` with `['-l','--']`, or with `['--']` when bindmem is False, independent of taskset |
| `Affinity.TasksetChosen` | multibench/core.py:89-91 | with taskset present and bindmem None/False the result is `['taskset','-c']` with `[]` |
| `Affinity.ConfigureErrors` | multibench/core.py:74-81 | each of the four guards raises its own error, in the source's check order |
| `Affinity.TasksetNeverBindsMemory` | multibench/core.py:76-79 | taskset with bindmem True always fails: "not available" without taskset, "unsupported" otherwise |
| `Affinity.PermittedExactly` | multibench/core.py:83-91 | the permitted bindings are exactly the results of the three successful calls; a permitted binding that binds memory uses numactl |
| `Affinity.LoadBinding` | multibench/core.py:47-95 | import succeeds iff numactl is present and then leaves `['numactl','-C']`/`['-l','--']`; no tool gives the RuntimeError; taskset alone makes the default call raise |
| `Affinity.Settings.constructor` | multibench/core.py:47-95 | with numactl present, records the two probe flags and applies the default `set_affinity_cmd('numactl', None)` and (from :225) `set_problem_string('problem')`: the result is valid, bound to `['numactl','-C']`/`['-l','--']`, with flag `--problem` |
| `Affinity.Settings.Load` | multibench/core.py:34-95 | fails exactly when `LoadBinding` fails, with the same error; otherwise gives fresh valid settings holding the default binding of :95 and the problem flag `--problem` set by `set_problem_string('problem')` at :225 |
| `Affinity.Settings.SetAffinityCmd` | multibench/core.py:50-91 | on error both lists are unchanged; on success both equal `Configure`'s binding whatever they held before; the problem flag is untouched; validity is preserved |
| `Affinity.Settings.SetProblemString` | multibench/core.py:211-225 | the flag becomes exactly `"--" + s`, so dropping the dashes gives `s` back; the binding is untouched |
| `Fields.Split` | multibench/core.py:258-260 | Python's `str.split(sep)`: always at least one field; with `JoinSplit` and `SplitFieldsLackSeparator`, the separator-free fields whose join is the input; `FieldCount` is its length |
| `Fields.SplitLength` | multibench/core.py:258-260 | `split(',')` yields one more field than there are commas |
| `Fields.JoinSplit` | multibench/core.py:258 | joining the fields of `split` with the separator restores the entry |
| `Fields.SplitFieldsLackSeparator` | multibench/core.py:258 | no field contains the separator |
| `CpuLists.ThreadsPerJob` | multibench/core.py:253-262 | an empty list, and only that, gives the empty-list error; a success needs a non-empty list and gives at least one thread |
| `CpuLists.ParseCpuAffinityList` | multibench/core.py:253-262 | the loop returns exactly `ThreadsPerJob`: the first entry's field count when every later entry agrees, the mismatch error otherwise |
| `CpuLists.ThreadsPerJobCountsCommas` | multibench/core.py:254-262 | validation returns `n` iff the list is non-empty and every entry has exactly `n - 1` commas |
| `CpuLists.MismatchRejected` | multibench/core.py:259-261 | any two entries with different core counts make validation raise |
| `CpuLists.SingleEntryAccepted` | multibench/core.py:253-262 | a one-entry list is accepted with one more thread than it has commas |
| `CpuLists.UseGpus` | multibench/core.py:264-271 | False iff the GPU list is empty; True iff it is non-empty and there is exactly one CPU entry; otherwise the GPU error |
| `CpuLists.GpuUseImpliesValidCpuList` | multibench/core.py:264-271 | when GPUs are used, the CPU list also passes `parse_cpu_affinity_list` |
| `Sampler.Pow10` | multibench/core.py:345 | every power of ten is at least 1 |
| `Sampler.TrialSchedule` | multibench/core.py:344-346 | trial `j` uses `10^(j+1)` calls, in increasing order |
| `Sampler.NeededN` | multibench/core.py:329-352 | stops after the first trial whose time is strictly over `secs`, or after trial 9; the `n` returned is `10^k` for the stopping trial `k`, after exactly `k` trials, which used `10, 100, …, 10^k` calls |
| `Sampler.StopsAtUnique` | multibench/core.py:344-352 | the stopping trial is determined by the measured times |
| `Sampler.Pow10Increasing` | multibench/core.py:344-345 | each trial uses more calls than the one before |
| `Sampler.NeededNRange` | multibench/core.py:344-352 | the returned count lies in [10, 10^9] |
| `Sampler.TotalExecutions` | multibench/core.py:344-346 | after `k` trials `execute` has run `(10^(k+1) - 10) / 9` times in all, less than 10/9 of the count returned |
| `Sampler.NegativeSecsStopsFirst` | multibench/core.py:347 | a negative target with a non-negative first time stops after one trial, at 10 |
| `Sampler.ZeroSecsMayContinue` | multibench/core.py:347 | for every list of times whose first entry is at most 0, a zero target does not stop at the first trial: the count returned is at least 100 |
| `Sampler.NaNRunsAllTrials` | multibench/core.py:344-352 | a NaN target makes every comparison false, so all nine trials run and 10^9 is returned |
| `Sampler.NegInfStopsFirst` | multibench/core.py:347 | a minus-infinity target is exceeded by every duration, so the first trial ends the search |

## Left out

- The host probe (multibench/core.py:34-45) runs `numactl --hardware` and `taskset -V` as subprocesses. Their two results are parameters of `Settings.Load` and of the constructor.
- Argument registration (`insert_option_group`, `insert_io_option_group`, `insert_timing_option_group`) and the wrappers `from_cli`/`io_from_cli` are left out. They are argparse plumbing. The `'None'/'True'/'False'` strings map directly to `Option<bool>` for `SetAffinityCmd`.
- `use_gpus` reads two fields of an options object. `UseGpus` takes the two lists instead.
- `format_time_strings` is left out. It is floating-point unit selection and `"{0:g}"` text formatting.
- `MultiBenchProblem.setup`, `execute` and the `timeit.Timer` measurement are left out because they read the wall clock. `NeededN` takes the measured durations as input. An exception raised by `execute` is not modelled.
- NeededN (Sampler.NeededN): the measured durations are exact reals. Their floating-point rounding is not modelled; only the target has infinite and NaN values.
- Error messages: each raised `ValueError` is an error tag. The message text is not kept.
- Joining `affinity_cmd`, a core list and `mem_cmd` into a job command line happens in the driver script bin/single_problem_bench, which is not part of this model.
- setup.py is not part of this model. It is packaging and file output.
