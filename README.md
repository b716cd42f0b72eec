# qtools `Submitter` in Dafny

A model of the `Submitter` job descriptor from the qtools package
(`gscripts/qtools/_Submitter.py`). The descriptor is a dictionary of job
attributes. It is filled in by the constructor, `set_value`, `add_wait` and
`add_resource`. `write_sh` then does three things:

- it checks the four required attributes, in order;
- it renders a batch script for a grid-engine (SGE, directive prefix `#$`)
  or PBS (prefix `#PBS`) scheduler, line by line;
- it returns 0, or the first run of digits in the scheduler's reply when
  the job is submitted.

The project has three modules:

- `Strings` (`strings.dfy`) models the Python builtins the source relies on:
  - `''.join` and `':'.join`;
  - `str()` of an integer, with a round trip back to the number;
  - `str()` of a list of strings;
  - the first match of `\d+`.
- `Qtools` (`submitter.dfy`) holds the descriptor:
  - the attribute values;
  - the accumulators, as functions on the dictionary;
  - the validation and the rendered script, as specification functions;
  - the loops of `write_sh`, as methods proved against those functions;
  - the `Submitter` class, whose map field `data` its methods update in place.
- `ScriptFacts` (`script_facts.dfy`) proves what the script and the result
  look like:
  - the per-dialect layout;
  - the defaults;
  - how the dependency lines are joined;
  - that the dictionary's visiting order only permutes the resource lines;
  - the job id extraction;
  - a worked PBS example.

A script is modelled as the sequence of its lines, each without its newline.
The scheduler's reply is a parameter of `WriteSh`.

`add_resource` creates `additional_resources` as a `defaultdict(list)`.
A caller can also store the table themselves, through the constructor or
`set_value`, as a plain dictionary. Appending under a new key then raises a
key error. The model records which kind of table it holds, and
`AddResource` reports that error.

Python does not fix the order in which a dictionary's keys are visited, so
the resource loops choose each key nondeterministically. They return the
order they took as an extra result, and `Script` is stated for any
enumeration of the keys. One place where the code and its documentation
part ways: the code writes one resource directive per key, carrying the
whole list of values (`str(list)`). The inner per-value loop is commented
out. The model follows the code. The grid-engine hold directive keeps the
source's trailing space, and it glues the job ids together with no
separator (`HoldLineConflates` shows that this loses information).

## Model

| member | source | states |
|---|---|---|
| Qtools.Submitter.constructor | gscripts/qtools/_Submitter.py:35-40 | the dictionary starts as exactly the keyword arguments |
| Qtools.Assign | gscripts/qtools/_Submitter.py:42-47 | every passed key maps to its passed value, every other key keeps its old value, no other key appears |
| Qtools.Submitter.SetValue | gscripts/qtools/_Submitter.py:42-47 | the key-by-key loop leaves the dictionary equal to `Assign` of the old dictionary and the arguments |
| Qtools.RefText | gscripts/qtools/_Submitter.py:57 | `str()` of a job id given as a string is the string itself; of a numeric id it is `IntText` of the number, so a non-negative id becomes a digit string whose value is the id |
| Qtools.WithWait | gscripts/qtools/_Submitter.py:49-57 | `wait_for` exists afterwards, grows by exactly one, keeps its earlier entries, ends in `str(id)`; every other key is unchanged |
| Qtools.Submitter.AddWait | gscripts/qtools/_Submitter.py:49-57 | the dictionary becomes `WithWait` of the old one |
| Qtools.WithResource | gscripts/qtools/_Submitter.py:59-67 | fails (the key error of `ResourceKeyError`) exactly when `additional_resources` is a plain dictionary without `kw`; otherwise the table exists afterwards and is a `defaultdict` exactly when it was created here or already was one, its keys gain `kw`, the list under `kw` is the old list (or empty) plus the value, and the other lists and the other keys are unchanged |
| Qtools.Submitter.AddResource | gscripts/qtools/_Submitter.py:59-67 | reports the key error exactly when `WithResource` fails, leaving the dictionary as it was; otherwise the dictionary becomes `WithResource` of the old one |
| Qtools.Complaint | gscripts/qtools/_Submitter.py:140-146 | an absent key gives the missing-key complaint and a present but empty one the missing-value complaint, naming that key |
| Qtools.FirstFailing | gscripts/qtools/_Submitter.py:139-146 | every key before the returned index passes (present and non-empty), the key at it does not |
| Qtools.Validate | gscripts/qtools/_Submitter.py:139-146 | no complaint exactly when queue_type, sh_file, command_list and job_name are all present and non-empty; otherwise the complaint names the first failing key, in that order |
| Qtools.Submitter.CheckRequired | gscripts/qtools/_Submitter.py:139-146 | the validation loop returns exactly the complaint `Validate` specifies |
| Qtools.SubmitResult | gscripts/qtools/_Submitter.py:139-251 | a missing key or value exactly when validation fails, and then exactly `Validate`'s complaint about the first failing key; an unknown scheduler, carrying the queue_type text, exactly when validation passes and queue_type is neither SGE nor PBS; otherwise 0 without submit, and with submit the first digit run of the reply, or no id exactly when the reply holds no digit |
| Qtools.OutPath | gscripts/qtools/_Submitter.py:154-155 | the `out` attribute when set; otherwise the script name followed by `.out` |
| Qtools.ErrPath | gscripts/qtools/_Submitter.py:156-157 | the `err` attribute when set; otherwise the script name followed by `.err` |
| Qtools.Header | gscripts/qtools/_Submitter.py:150-166 | five lines: the shebang, then four lines each starting with the scheduler's prefix |
| Qtools.Script | gscripts/qtools/_Submitter.py:150-242 | for any visiting order the script opens with the five header lines and ends with every command, in order, and a blank line |
| Qtools.EmitHeader | gscripts/qtools/_Submitter.py:150-166 | the lines written before the dialect branch are the shebang and the `-N`, `-o`, `-e`, `-V` directives of `Header` |
| Qtools.HoldLine | gscripts/qtools/_Submitter.py:176-178 | the hold directive is the prefix and ` -hold_jid `, then exactly the characters of the ids with nothing between them, then a trailing space |
| Qtools.ResourceLine | gscripts/qtools/_Submitter.py:184-185 | a resource directive is the prefix, the key and a space, followed by the bracketed list of values |
| Qtools.ResourceLines | gscripts/qtools/_Submitter.py:182-185 | one line per visited key, line i being the prefix, key i and the rendered list of its values |
| Qtools.EmitResources | gscripts/qtools/_Submitter.py:180-185 | the loop visits every key of the table exactly once and writes one `ResourceLine` per key in the order it visited them |
| Qtools.EmitSge | gscripts/qtools/_Submitter.py:168-191 | the grid-engine lines are its fixed directives, the hold line when `wait_for` is non-empty, then the descriptor's and the call's resources each visited in a full enumeration of its keys |
| Qtools.PbsRequest | gscripts/qtools/_Submitter.py:195-200 | four requests: the walltime, account and queue the call gives or else 18:00:00, yeo-group and home; `nodes=str(nodes):ppn=str(ppn)` for the counts the call gives or else 1 and 16, which is `nodes=1:ppn=16` when it gives neither |
| Qtools.EmitPbsRequest | gscripts/qtools/_Submitter.py:114-137 | the four request lines written from the options, each resolved against its default, are `PbsRequest` |
| Qtools.DependLine | gscripts/qtools/_Submitter.py:206-208 | the `afterok` directive starts with the prefix and ` -W depend=afterok:`; when no id contains a colon, splitting the rest at colons gives back the ids |
| Qtools.ArrayDependLine | gscripts/qtools/_Submitter.py:213-215 | the `afterokarray` directive is its head followed by the `''.join` of the specifications, so exactly their characters with nothing between them |
| Qtools.EmitPbsDependencies | gscripts/qtools/_Submitter.py:202-215 | the dependency lines written are `afterok` only when `wait_for` is non-empty, then `afterokarray` only when `wait_for_array` is |
| Qtools.EmitPbs | gscripts/qtools/_Submitter.py:193-234 | the PBS lines are the four requests from the resolved options, the dependency lines when their lists are non-empty, both resource tables, then the change to the submission directory |
| Qtools.EmitCommands | gscripts/qtools/_Submitter.py:240-242 | the body is every command in list order followed by one blank line |
| Qtools.Submitter.Render | gscripts/qtools/_Submitter.py:148-242 | a renderable descriptor is written as exactly `Script` for the visiting orders the loops took, and those orders enumerate each table's keys |
| Qtools.Submitter.WriteSh | gscripts/qtools/_Submitter.py:69-251 | the result is `SubmitResult`; nothing is written unless the descriptor is renderable, and otherwise the lines are `Script` for orders enumerating the two tables |
| Strings.Concat | gscripts/qtools/_Submitter.py:176-178 | `''.join` has the total length of the items and starts with the first item |
| Strings.Join | gscripts/qtools/_Submitter.py:206-208 | a join of n items has their total length plus n - 1 separators and starts with the first item |
| Strings.IntText | gscripts/qtools/_Submitter.py:197-198 | `str()` of an integer is non-empty and has no leading zero (except for 0 itself); for a non-negative one it is a digit string with that value, for a negative one a minus sign before the digits of its magnitude |
| Strings.FirstDigitRun | gscripts/qtools/_Submitter.py:249 | no match exactly when the text has no digit; otherwise a maximal digit run with no digit before it |
| Strings.FirstDigitRunUnique | gscripts/qtools/_Submitter.py:249 | the first maximal digit run of a text is unique |
| Strings.FirstDigitRunOf | gscripts/qtools/_Submitter.py:249 | digit-free text, a digit run and text not starting with a digit yield exactly that run |
| Strings.FirstDigitRunExample | gscripts/qtools/_Submitter.py:249 | the reply "Your job 42 has been submitted" yields "42" |
| Strings.Decimal | gscripts/qtools/_Submitter.py:197-198 | `str()` of a natural number is a non-empty digit string with no leading zero |
| Strings.DecimalRoundTrip | gscripts/qtools/_Submitter.py:197-198 | reading back the digits of `str(n)` gives n |
| Strings.ValueOfRoundTrip | gscripts/qtools/_Submitter.py:249 | a digit string without a leading zero is what `str()` prints for its value |
| Strings.ConcatIsJoinEmpty | gscripts/qtools/_Submitter.py:176-178 | `''.join` is joining with the empty separator |
| Strings.ConcatSnoc | gscripts/qtools/_Submitter.py:176-178 | appending an item to a list appends it to its `''.join` |
| Strings.JoinSnoc | gscripts/qtools/_Submitter.py:206-208 | appending an item to a non-empty list appends the separator and the item to its join |
| Strings.SplitJoin | gscripts/qtools/_Submitter.py:206-208 | a list joined with a one-character separator none of its items contains splits back into the list |
| Strings.SplitJoinWhenFree | gscripts/qtools/_Submitter.py:206-208 | the same round trip, stated for any list: a non-empty list whose items avoid the separator |
| Strings.JoinSplit | gscripts/qtools/_Submitter.py:206-208 | joining the pieces of a split restores the text |
| Strings.ConcatNotInjective | gscripts/qtools/_Submitter.py:176-178 | two different id lists can give the same `''.join` |
| Strings.ListText | gscripts/qtools/_Submitter.py:184-185 | the rendered value list is bracketed |
| ScriptFacts.ResourceLinesAppend | gscripts/qtools/_Submitter.py:182-185 | visiting one list of keys after another writes the two blocks of lines one after the other |
| ScriptFacts.ResourceLinesPermutation | gscripts/qtools/_Submitter.py:182-185 | two visiting orders of the same keys write the same lines, permuted |
| ScriptFacts.ResourceOrderIrrelevant | gscripts/qtools/_Submitter.py:180-230 | any two visiting orders of the two tables, in either dialect, give scripts of equal length holding the same lines |
| ScriptFacts.EveryKeyListed | gscripts/qtools/_Submitter.py:180-191 | every key of a table, with its list of values, gets a directive |
| ScriptFacts.ScriptHeader | gscripts/qtools/_Submitter.py:150-166 | the script opens with the shebang, `-N` job name, `-o` out (sh_file + ".out" unless set), `-e` err (sh_file + ".err" unless set) and `-V` |
| ScriptFacts.SgeScript | gscripts/qtools/_Submitter.py:168-191 | a grid-engine script is the header, `-S /bin/sh`, `-cwd`, the hold line when `wait_for` is non-empty, both resource blocks, then the commands and a blank line |
| ScriptFacts.SgeLayout | gscripts/qtools/_Submitter.py:168-191 | a grid-engine script has `-S /bin/sh` and `-cwd` after the header, then the hold line exactly when `wait_for` is non-empty, both resource blocks, the commands and a blank line |
| ScriptFacts.PbsScript | gscripts/qtools/_Submitter.py:193-234 | a PBS script is the header, the requests, the dependencies, both resource blocks and the directory change, then the commands and a blank line |
| ScriptFacts.PbsLayout | gscripts/qtools/_Submitter.py:193-234 | a PBS script has the four requests after the header, then the dependency lines exactly when their lists are non-empty, both resource blocks, the directory change, the commands and a blank line |
| ScriptFacts.PbsDefaults | gscripts/qtools/_Submitter.py:114-137 | with no options the requests are walltime 18:00:00, nodes 1 with ppn 16, account yeo-group and queue home |
| ScriptFacts.DefaultCounts | gscripts/qtools/_Submitter.py:119-127 | the default node and processor counts are spelled "1" and "16" |
| ScriptFacts.DependLineExample | gscripts/qtools/_Submitter.py:206-208 | waiting on jobs 10 and 11 gives `-W depend=afterok:10:11` |
| ScriptFacts.DependLineDetermined | gscripts/qtools/_Submitter.py:206-208 | when no id contains a colon, the PBS dependency line determines the list of ids |
| ScriptFacts.HoldLineConflates | gscripts/qtools/_Submitter.py:176-178 | the hold line for jobs 1 and 23 is the one for jobs 12 and 3 |
| ScriptFacts.HoldLineSnoc | gscripts/qtools/_Submitter.py:176-178 | the hold line for one more id has that id glued right after the earlier ids, before the trailing space |
| ScriptFacts.DependLineSnoc | gscripts/qtools/_Submitter.py:206-208 | the `afterok` line for one more id is the earlier line, a colon and the id |
| ScriptFacts.AddWaitExtendsDependencies | gscripts/qtools/_Submitter.py:49-57 | after `add_wait` the new id is glued to the end of the hold list and follows a colon in the PBS dependency (or stands alone) |
| ScriptFacts.AddWaitKeepsRenderable | gscripts/qtools/_Submitter.py:49-57 | `add_wait` never makes a renderable descriptor fail validation |
| ScriptFacts.ResourceKeyErrorExample | gscripts/qtools/_Submitter.py:59-67 | adding `-pe` to a plain dictionary holding only `-l` is a key error, while the same table as a `defaultdict` gains the list `["smp 4"]` |
| ScriptFacts.ArrayAndChunksIgnored | gscripts/qtools/_Submitter.py:99-109 | the `array` and `chunks` options change neither the result nor the script |
| ScriptFacts.SubmittedJobId | gscripts/qtools/_Submitter.py:245-249 | a reply holding `str(n)`, after digit-free text and before text that does not start with a digit, yields a job id whose value is n |
| ScriptFacts.EmptyJobNameRefused | gscripts/qtools/_Submitter.py:144-146 | an empty job name with the other required keys set is refused as a missing value for job_name |
| ScriptFacts.ExampleAccepted | gscripts/qtools/_Submitter.py:139-146 | the PBS job "test" passes validation and, not submitted, yields the 0 result |
| ScriptFacts.ExampleNames | gscripts/qtools/_Submitter.py:154-157 | its output and error files default to `test.sh.out` and `test.sh.err` |
| ScriptFacts.ExampleParts | gscripts/qtools/_Submitter.py:202-242 | it has no dependency lines, no resources in either table, and the single command `echo hi` |
| ScriptFacts.ExampleHeader | gscripts/qtools/_Submitter.py:150-166 | its script opens `#!/bin/sh`, `#PBS -N test`, `#PBS -o test.sh.out`, `#PBS -e test.sh.err` |
| ScriptFacts.ExampleRequests | gscripts/qtools/_Submitter.py:195-200 | its script then requests walltime 18:00:00, nodes=1:ppn=16, account yeo-group |
| ScriptFacts.ExampleBody | gscripts/qtools/_Submitter.py:232-242 | its script has 14 lines and ends with the blank line, the comment, `cd $PBS_O_WORKDIR` and `echo hi` |

## Left out

- Opening, writing and closing the script file. The model returns the lines instead. The partial file the source leaves behind when `queue_type` is unknown (the shebang is written before the lookup fails) is not modelled.
- Running `qsub` and reading its output. The reply text is a parameter. The source strips the reply first, which cannot change its first digit run, so the strip is not modelled.
- Console messages for a missing key or value. They become the `MissingKey` and `MissingValue` results.
- The crash on an unknown `queue_type`. It becomes the `BadQueueType` result with no lines.
- The crash on a reply without digits. It becomes the `NoJobId` result.
- The order in which Python visits a dictionary. The model leaves it open: the only promises are that the two resource blocks keep their place and that their lines are a permutation for any order.
- The `set_value` loop also picks its keys in an open order. Since the keys are distinct, the order cannot change the result.
- Strings.ListText: renders each value between plain single quotes, with nothing escaped. Python's `repr` would escape backslashes and non-printable characters, and it would switch to double quotes for a value containing a single quote. The model does not capture that.
- Qtools.Submitter.WriteSh: requires `Conforms`, that every attribute it reads has the type its documentation gives it. Values of other types, such as a non-list resource value in the call's `additional_resources`, are outside the model.
- The `queue` class attribute named in the documentation is never read by the code. Only the call's `queue` option is modelled.
- `nodes` and `ppn` are modelled as integers printed with `str()`. Other Python values are outside the model.
- Commands or values containing newlines, which would add lines to the file, are outside the line model.
- The unused `math` import, and the `array`/`chunks` options, which the source reads but never uses (`ArrayAndChunksIgnored`).
- Qtools.Submitter.AddWait: the source appends to the `wait_for` list in place, so a caller still holding that list (for instance the one passed to the constructor) sees the new id too. The model's dictionary holds values, so that sharing is not captured.
- Qtools.Submitter.AddResource: likewise, the appended value also shows up in a resource table or value list the caller still holds. The model does not capture that sharing.
- Qtools.WithResource: a `defaultdict` also creates an empty list when a missing key is only read. No read in this code path creates one, so the model records only whether the table defaults.
- Qtools.Submitter.AddWait: like `Qtools.WithWait`, requires `wait_for`, when present, to be a list. For any other value (say the string `'12'`) the source's `append` raises an `AttributeError`, which the model does not represent.
- Qtools.Submitter.AddResource: like `Qtools.WithResource`, requires `additional_resources`, when present, to be a dictionary. For any other value (say a list) the source's lookup by `kw` raises a `TypeError`, which the model does not represent.
