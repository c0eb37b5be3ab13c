# applyconfig: command builder, recording executor and config applier

`applyconfig` applies a directory of configuration manifests and templates to a cluster by
running the `oc` client. This project models the three small rule engines at its core, as
far as its test file `cmd/applyconfig/applyconfig_test.go` pins them down:

- **Command builder** (`commands.dfy`, module `Commands`). `MakeOcCommand` builds
  `oc <verb> -f <path>` and appends `--as <user>` when a user is to be impersonated.
  `MakeOcApply` builds the apply form and appends `--dry-run` as the very last word for a
  dry run. `ParseOcArgs` reads an argument vector back into the kind, path, user and dry-run
  setting it came from. The round-trip lemmas in both directions show that the builders
  encode every setting and nothing else: different settings never produce the same
  command line.
- **Filename classifier** (`classify.dfy`, module `Classify`). `IsAdminConfig` holds for a
  `.yaml` file whose name starts with `admin_`. `IsStandardConfig` holds for every other
  `.yaml` file. This is one rule consistent with every test row, not the only one. Both
  are proved on every row of their test tables. Both require the `.yaml` extension, and a
  `.yml` name is in neither bucket.
- **Recording executor** (`executor.dfy`, class `Executor.MockExecutor`). This is the
  injected command-execution capability in the form of the test double. Each call is
  appended to `calls`. The call with index i gets back `responses[i]`, where `true` means
  an error. A call beyond the script fails the test fatally, and the model treats it as
  an error. `GetCalls` returns the argument vectors in order.
- **Config applier** (`applier.dfy`, class `Applier.ConfigApplier`). `AsGenericManifest`
  issues one `oc apply`. `AsTemplate` issues `oc process -f <path>` and then, only if that
  succeeded, the apply command for path `-` (which reads the processed output). It reports
  the first error. `TraceAsGenericManifest` and `TraceAsTemplate` model one case of each applier test: a fresh recorder with a script,
  one run, and the recorded trace read back. Their contracts state the trace and the
  outcome for every script. The method `GenericManifestTable` checks the expected trace and
  outcome of every row of the `asGenericManifest` table (lines 195-219), and `TemplateTable` those
  of the `asTemplate` table (lines 251-270); they have no contract of their own, so they
  carry no row below.

The implementation file of `applyconfig` is not part of this model. Each rule here is one
rule consistent with every row of its test table; where the tests leave room, the model
makes a choice and says so:

- A stricter classifier rule, requiring the `_rbac.yaml` suffix in both buckets, fits the
  same test rows. The model requires only the `admin_` prefix and the `.yaml` extension, so
  it puts `admin_x.yaml` in the admin bucket and `x.yaml` in the standard bucket, where the
  stricter rule puts neither.
- The model's standard rule excludes admin names. This agrees with the negative row
  `admin_01_something.yaml` (line 57). It is not claimed as a separate property of the
  source.

## Model

| member | source | states |
|---|---|---|
| Commands.MakeOcCommand | cmd/applyconfig/applyconfig_test.go:82-101 | the vector starts `oc <verb> -f <path>`; it has 4 words with no user and 6 with a user, the last two being `--as <user>` |
| Commands.MakeOcApply | cmd/applyconfig/applyconfig_test.go:124-147 | the apply command for path and user, followed by `--dry-run` exactly when dry; with a user and a dry run the tail is `--as <user> --dry-run` in that order |
| Commands.ParseMakeOcCommand | cmd/applyconfig/applyconfig_test.go:82-101 | every command built for kind, path and user reads back as exactly that kind, path and user with no dry run |
| Commands.ParseMakeOcApply | cmd/applyconfig/applyconfig_test.go:124-147 | every apply command reads back as exactly the path, user and dry-run setting it was built from |
| Commands.RenderParseOcArgs | cmd/applyconfig/applyconfig_test.go:72-158 | a vector that reads back as some settings is exactly the vector the builders produce for those settings |
| Commands.ParseRender | cmd/applyconfig/applyconfig_test.go:72-158 | rendering well-formed settings (no dry run on `process`) and reading them back gives the same settings |
| Commands.MakeOcApplyInjective | cmd/applyconfig/applyconfig_test.go:124-147 | two apply commands are equal only if their path, user and dry-run setting are all equal |
| Commands.DryRunAppendedIff | cmd/applyconfig/applyconfig_test.go:124-147 | the apply command equals the plain apply command plus a final `--dry-run` if and only if dry is set |
| Commands.MakeOcCommandTable | cmd/applyconfig/applyconfig_test.go:82-101 | the three expected vectors of the `makeOcCommand` table |
| Commands.MakeOcApplyTable | cmd/applyconfig/applyconfig_test.go:124-147 | the four expected vectors of the `makeOcApply` table |
| Classify.ClassifiedHasYamlExtension | cmd/applyconfig/applyconfig_test.go:26-30 | a name accepted as admin or as standard ends in `.yaml` |
| Classify.YmlIsNeither | cmd/applyconfig/applyconfig_test.go:29 | a name ending in `.yml` is neither an admin nor a standard config |
| Classify.AdminConfigTable | cmd/applyconfig/applyconfig_test.go:18-30 | the two positive and four negative rows of the `isAdminConfig` table |
| Classify.StandardConfigTable | cmd/applyconfig/applyconfig_test.go:48-59 | the two positive and three negative rows of the `isStandardConfig` table |
| Applier.ConfigApplier.constructor | cmd/applyconfig/applyconfig_test.go:224-225 | an applier holds the given path, user, dry-run setting and the injected executor, as the test's struct literal with its executor set |
| Executor.MockExecutor.constructor | cmd/applyconfig/applyconfig_test.go:224 | a new recorder has an empty trace and the given script |
| Executor.MockExecutor.RunAndCheck | cmd/applyconfig/applyconfig_test.go:167-175 | the trace grows by exactly the given command; the answer is the response scripted for the call's index, or an error past the script; a call past the script marks the run unexpected for good |
| Executor.MockExecutor.GetCalls | cmd/applyconfig/applyconfig_test.go:177-184 | the argument vectors of the recorded calls, same length and same order |
| Applier.ConfigApplier.AsGenericManifest | cmd/applyconfig/applyconfig_test.go:195-219 | appends exactly one call, the apply command for the applier's path, user and dry-run setting; returns an error exactly when that call's response is one |
| Applier.ConfigApplier.AsTemplate | cmd/applyconfig/applyconfig_test.go:251-270 | a failed process call ends the run with that one call recorded and an error; otherwise the process call and then the apply command for path `-` (with the applier's user and dry-run setting) are recorded, and the outcome is the apply call's |
| Applier.TraceAsGenericManifest | cmd/applyconfig/applyconfig_test.go:222-238 | for every script the trace is the single apply command, and the outcome is an error exactly when the first response is one or missing |
| Applier.TraceAsTemplate | cmd/applyconfig/applyconfig_test.go:273-290 | the process call comes first; the apply call follows exactly when the process call succeeded, so no apply call appears after a failed process; the outcome is an error exactly when an issued call failed |

## Left out

- Classify.IsAdminConfig / Classify.IsStandardConfig: the real filename pattern is not visible. The model requires neither the `_rbac.yaml` suffix nor any numbering format, in either bucket; it is proved only on the test rows and on the `.yaml` extension requirement.
- `isTemplate`, the content sniffer that decides template versus manifest by decoding YAML, is not modelled. The decoder it relies on is not part of this model.
- The choice between `AsTemplate` and `AsGenericManifest` for each file is made by code not shown here, so it is not modelled.
- The bytes a command returns (`MOCK OUTPUT`) and the processed template piped into the apply step on standard input are not modelled. Only the argument vector and a success or error flag are.
- The text of error messages and their wrapping is not modelled. The tests only check whether an error occurred.
- Executor.MockExecutor.RunAndCheck: a call past the script fails the test fatally and stops it. The model returns an error instead. The recorded trace is the same, because neither applier makes another call after an error.
- Applier.ConfigApplier.AsTemplate: the tests only use an empty user and no dry run. The model passes the user to both steps and the dry-run setting to the apply step only. That choice is not pinned by any test.
- Real process spawning, directory walking, cluster-context setup and command-line flags are I/O, so they are not modelled.
- Go strings are byte strings. The model uses Dafny `string`. The file names in the tests are ASCII, so the two agree on them.
