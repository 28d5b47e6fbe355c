# svg-kit-cli: command dispatch, presets and batch routing

A Dafny model of the command-line front end of svg-kit-cli (`lib/cli.js`).
It covers four things:

- **Dispatch.** `cli` takes the parsed arguments and handles `--version`. It splits the positional arguments into a command and the input paths, deletes `_`, copies `-o` to `output` and looks the command up.
- **Presets.** `patch` shows its help when there is no input or `--help` is set. Otherwise it turns the `spellcast-icon` and `spellcast-ui` presets into primitive flags, in place on the options object.
- **The per-file loop.** Each input is read, patched and serialised. An unreadable input is skipped and is reported only in a one-file batch.
- **Output routing.** Each result goes to one of three places: back into the input file (`self`), into the `output` file (only in a one-file batch), or to standard output followed by a newline.

Layout, one module per file:

- `options.dfy` (`Options`): option values, JavaScript truthiness and preset expansion (`Expand`).
- `routing.dfy` (`Routing`): the three-way routing decision (`Route`).
- `batch.dfy` (`Batch`): the loop as a function of the state it touches (`Step`, `Run`), and the lemmas about it.
- `dispatch.dfy` (`Commands`): command lookup and the outcome of `cli` (`Dispatch`).
- `cli.dfy` (`Cli`): the imperative code. `Args` is the options object and `Host` is the process state. `Host.Cli`, `Host.Patch` and `Args.ExpandPresets` change that state in place, and their postconditions tie each new state to the functions above.
- `scenarios.dfy` (`Scenarios`): concrete runs.

Abstractions:

- The file system is a map from path to content. A read fails exactly when the path is absent.
- Standard output is a string that only grows.
- The "Can't load file" message is an event: the path is appended to `diagnostics`.
- The svg-kit calls (`fromXml`, `patchDocument`, `toXml`) are one function parameter, `transform(text, options)`. It receives the whole options object, as `patchDocument` does.
- An exception that escapes the loop sets `crashed`, and nothing further happens.

`cli` deletes `_` and applies the `o` alias before it looks the command up, so the command receives the normalised object (`Commands.Normalise`). Preset expansion happens later, inside `patch`.

## Model

| member | source | states |
|---|---|---|
| `Options.Expand` | lib/cli.js:127-143 | Each preset that is on leaves all of its flags `true`, whatever their prior values. Expansion only adds or sets `true`. Every entry it adds or changes is a flag of a preset that is on, so with only `spellcast-ui` on, `removeIds` and `colorClass` keep their presence and value. A key outside both presets keeps its presence and value. |
| `Options.ExpandIdempotent` | lib/cli.js:127-143 | Expanding twice gives the same object as expanding once. |
| `Options.ExpandWithoutPresets` | lib/cli.js:127-143 | With neither preset on, expansion is the identity. |
| `Options.ExpandBothPresets` | lib/cli.js:127-143 | With both presets on, the effect is the union of the two flag sets, and applying them in the other order gives the same object. |
| `Cli.Args.ExpandPresets` | lib/cli.js:127-143 | The in-place chained assignments leave the options object equal to `Expand` of its old value. |
| `Routing.Route` | lib/cli.js:163-165 | First rule wins. `self` means overwrite the input, for any batch size and any `output`. Otherwise a one-file batch with a truthy `output` writes there; a non-string `output` is not a path. Everything else goes to standard output. Each rule is stated as an if-and-only-if. |
| `Routing.MultiFileNeverOutput` | lib/cli.js:163-165 | In a batch of several files the destination is the input (with `self`) or standard output, never the `output` path. |
| `Batch.Step` | lib/cli.js:146-165 | One iteration of the loop. A stopped run stays stopped. An unreadable input writes and echoes nothing, and is reported only in a one-file batch. Standard output is only appended to, and no file disappears. The only file written is the input (with `self`) or the `output` path (one-file batch without `self`). The run stops only on a truthy `output` that is not a string. |
| `Batch.Run` | lib/cli.js:145-166 | The loop over the inputs, in order. Standard output and the reports only grow. Nothing is reported in a batch of several files. Every file written is one of the inputs under `self` or the `output` path of a one-file batch. The run stops only on a non-string `output`. |
| `Batch.PatchArgs` | lib/cli.js:96-143 | The options object after `patch`. It is unchanged with no input or with `help`. Otherwise the flags of each preset that is on are `true`, and every other entry is kept. |
| `Batch.PatchIo` | lib/cli.js:96-167 | The state after `patch`. It is unchanged with no input or with `help`. Output only grows. Several inputs give no report, and without `self` they write no file at all and do not stop the run. Every file written is an input under `self` or the `output` path of a one-file batch. |
| `Batch.ReadFailureSkipped` | lib/cli.js:146-155 | An unreadable input changes no file, echoes nothing and does not stop the loop. It is reported exactly when the batch has one file. |
| `Batch.RunAfterCrash` | lib/cli.js:145-166 | Once an exception has escaped the loop, later inputs have no effect. |
| `Batch.MultiFileEchoesInOrder` | lib/cli.js:145-166 | Several inputs and no `self`: no file is written, so the `output` path is not written either. Nothing is reported. Standard output gets each readable input's result and a newline, in input order. |
| `Batch.SelfOverwritesOnlyInputs` | lib/cli.js:145-166 | With `self`: nothing is echoed and the run does not stop. No path is created. Paths outside the batch keep their content. Reports happen only in a one-file batch. |
| `Batch.SelfPatchesEachInput` | lib/cli.js:157-163 | With `self` and no path listed twice, each readable input ends up holding the patched form of its own original content. |
| `Batch.SingleFile` | lib/cli.js:145-166 | For a one-file batch, the whole effect is one of five cases: reported as unreadable, input overwritten, `output` file written, run stopped on a non-string `output`, or result echoed with a newline. |
| `Batch.HelpDoesNothing` | lib/cli.js:99-125 | With no input or with `help`, `patch` leaves the files, standard output, diagnostics and options object as they were. |
| `Batch.PatchManyFilesEchoes` | lib/cli.js:127-166 | The whole command, several inputs, no `self`: the files are unchanged and the results are echoed in order. The presets cannot switch `self` on. |
| `Cli.Host.Patch` | lib/cli.js:96-167 | The loop method leaves the options object and the process state equal to `PatchArgs` and `PatchIo` of the old ones. This covers the help shortcut, the presets and the early stop on an escaped exception. |
| `Commands.Normalise` | lib/cli.js:51-55 | `_` is removed. A truthy `o` is copied to `output`. Without a truthy `o`, nothing else changes. No key other than `_` and `output` changes. |
| `Commands.Dispatch` | lib/cli.js:42-62 | Version is shown exactly when `version` is truthy. A command runs exactly when the first positional argument names a registered command. It receives the remaining positional arguments in order and the normalised options. |
| `Commands.UsageOnBadCommand` | lib/cli.js:46-60 | Without `version`, the usage text is shown exactly when there is no positional argument or the first one is not a command. |
| `Cli.Host.Cli` | lib/cli.js:39-63 | The method's outcome is `Dispatch` of the parsed options. Version and usage leave the process state alone. Version leaves the options object as it was. Usage leaves it unchanged when there is no positional argument and normalised after an unknown command. An invoked `patch` leaves the state given by `PatchArgs` and `PatchIo`. |
| `Commands.LookupAsWritten` | lib/cli.js:57-62 | The lookup through an object literal finds nothing only for names that are neither commands nor inherited `Object.prototype` members. |
| `Commands.Lookup` | lib/cli.js:57-60 | The intended lookup finds a command exactly when the name is registered. It then agrees with the written lookup. |
| `Commands.InheritedNameNotRejected` | lib/cli.js:57-62 | "toString" passes the written lookup although it is no command. The intended lookup rejects every inherited name. |
| `Scenarios.UnreadableMiddleInput` | lib/cli.js:145-166 | For inputs a, b, c with b unreadable, the effects are a's result, then c's, each with a newline, and nothing for b. |
| `Scenarios.TwoInputsEchoed` | lib/cli.js:145-166 | For two inputs and no options, both results are echoed in order, each with a newline. |
| `Scenarios.SingleInputToOutputFile` | lib/cli.js:164 | For one input with `output` set and a patch that changes nothing, the output file holds the input's content. |
| `Scenarios.SelfBeatsOutput` | lib/cli.js:163-164 | For one input with both `self` and `output`, the input is overwritten and the output path is untouched. |

## Left out

- Parsing of `argv` by minimist (lib/cli.js:40). The model starts from the parsed object. Positional arguments are strings; minimist's conversion of numeric-looking arguments to numbers is not modelled.
- The version banner, the usage and help texts, terminal styling and `process.exit` with its exit codes (lib/cli.js:42-49, 57-59, 70-91, 99-125). Only which of these happens is modelled, as `ShowVersion` and `ShowUsage`.
- The svg-kit parser, patch engine and serialiser. They are one total function parameter, so a parse or patch exception is not modelled.
- A write to a real path never fails in the model, so I/O errors on `writeFileSync` are not modelled.
- A non-string `output` value. A bare `-o` or `--output` gives `true`, which `writeFileSync` rejects with an exception. A number is taken as a file descriptor, which the map file system does not have. Both are modelled as the run stopping (`crashed`).
- The error text in the read-failure diagnostic. Only the path is recorded.
- Registered commands other than `patch`. There are none in the source.
- Commands.LookupAsWritten: calling an inherited member (`cli.commands.toString(...)`, say) is not modelled. Some of these calls do nothing and some throw. The model records only that the command is not rejected.

## Findings

| source | as written | input that shows it | evidently intended | confidence | as-written member | corrected member |
|---|---|---|---|---|---|---|
| lib/cli.js:57-62 | `cli.commands` is an object literal, so `cli.commands[command]` is truthy for names inherited from `Object.prototype`, and the unknown-command branch is skipped | command `toString` with input `a.svg`: no usage text, exit status 0, nothing patched | only names registered in `cli.commands` dispatch; any other name gets the usage text and exit status 1 | medium, not executed | `Commands.LookupAsWritten` (shown by `Commands.InheritedNameNotRejected`) | `Commands.Lookup` (used by `Commands.Dispatch` and `Cli.Host.Cli`) |
