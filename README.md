# AddonManager install lifecycle, in Dafny

This project models the core of a small Rust addon manager (`src/lib.rs`). The core is the
**install lifecycle state machine**. An `Install` owns an `Addon` and drives it through
download, verify, stage and install. It can also divert the addon to cancel, postpone or resume.
Each operation looks at the current `InstallState`. When the state is not one the operation
accepts, it panics with "Invalid state transition". Otherwise it assigns the next states.
`download`, `verify` and `stage` each call the next step, so one successful `download()` on a
new install ends in `Installed`.

Files:

- `wrappers.dfy`: `Option`. Here `None` stands for a call that panics.
- `install_states.dfy` (module `InstallStates`): the 25-state enum. `Effect` is a table giving,
  for each operation and state, the states the call assigns in order. `Apply`, `Run` and
  `History` compose calls. The lemmas cover the allowed source states, the reachable states and
  the states that are never entered.
- `addons.dfy` (module `Addons`): the value records `Manifest`, `Addon` and `InstallLocation`,
  their constructors, and the two directory getters.
- `install.dfy` (module `Installs`): class `Install`. It has the real fields `state` and
  `addon`, plus a ghost `history` of every state it has held. Its invariant `Valid()` says the
  history starts at `Available`, ends in `state`, and never holds a failure, `Cancelling` or
  uninstall state. The one assignment helper, `MoveTo`, refuses those states. Each operation is a method.
  The panic becomes its `requires`. Its `ensures` gives the final state and ties the states it
  assigned to `Effect`.

Where the code differs from what its TODO comments and commented-out lines announce
(src/lib.rs:126, 142, 159, 175, 220, 230, 252, 260):

- no operation ever assigns a `*Failed` state, `Cancelling` or an uninstall state;
- the directory getters return the constants `"downloaddir"` and `"stagedir"`, not paths
  under the base directory.

The model follows the code in both points.

`stage` accepts only `Verified`, and `resume` does not call it. So after `postpone` and
`resume` the install rests in `Resumed`, and from there only `cancel` is accepted
(`ResumedOnlyCancels`).

The Rust method `install` is called `InstallAddon` here, because `Install` is the class's name.
Operations in the table are the `Operation` constructors `DownloadOp`, …, `ResumeOp`.

## Model

| member | source | states |
|---|---|---|
| `InstallStates.Effect` | src/lib.rs:119-232 | what a call assigns is non-empty and never contains a failure, `Cancelling`, uninstall or `Available` state |
| `InstallStates.ChainedSteps` | src/lib.rs:119-178 | the exact states assigned by install from `Staged`, stage from `Verified`, verify from `Downloaded` and download from `Available` (Downloading, Downloaded, Verifying, Verified, Staging, Staged, Installing, Installed) |
| `InstallStates.ApplyMatchesTable` | src/lib.rs:119-232 | each operation panics exactly outside its source states and otherwise ends in its target state: download, verify, stage, install end in `Installed` from `Available`, `Downloaded`, `Verified`, `Staged`; postpone goes `Verified`→`Postponed`; resume goes `Postponed`→`Resumed`; cancel goes from the twelve cancellable states to `Cancelled` |
| `InstallStates.PostponeAndResumeStop` | src/lib.rs:214-232 | postpone passes through `Postponing` to `Postponed`; resume passes through `Resuming` to `Resumed` and goes no further |
| `InstallStates.EffectFollowsNamedTransitions` | src/lib.rs:119-232 | every assignment a call makes, starting from its source state, is one of the transitions the states and TODO comments name: a step, its failure, the postpone/resume detour, or cancel |
| `InstallStates.InstalledOnlyCancels` | src/lib.rs:168-211 | from `Installed` an operation completes iff it is cancel |
| `InstallStates.ResumedOnlyCancels` | src/lib.rs:151-232 | from `Resumed` an operation completes iff it is cancel, so a resumed install can never be staged |
| `InstallStates.CancelledIsFinal` | src/lib.rs:180-211 | every operation panics from `Cancelled`, including a second cancel |
| `InstallStates.RunFromCancelled` | src/lib.rs:180-211 | no non-empty sequence of calls completes from `Cancelled` |
| `InstallStates.CompletedCallsFromNew` | src/lib.rs:112-233 | from a new install, the sequences of calls that all complete are exactly: none (`Available`), one download (`Installed`), and download then cancel (`Cancelled`) |
| `InstallStates.ReachableStates` | src/lib.rs:112-233 | calls that complete leave a new install only in `Available`, `Installed` or `Cancelled` |
| `InstallStates.HistoryNeverEntersUnused` | src/lib.rs:119-233 | no sequence of calls, from any state, assigns a failure, `Cancelling` or uninstall state |
| `InstallStates.HistoryEndsInRun` | src/lib.rs:119-233 | a sequence of calls has a history iff it completes, and it ends in the last state of that history |
| `Addons.NewManifest` | src/lib.rs:47-55 | every field is kept as given; no input is rejected |
| `Addons.NewAddon` | src/lib.rs:88-95 | id, name and version come from the manifest, its url becomes the install url, and the location is kept unchanged |
| `Addons.AddonForgetsOnlyType` | src/lib.rs:88-95 | two addons are equal iff their manifests agree on everything but the addon type and their locations are equal |
| `Addons.NewInstallLocation` | src/lib.rs:242-248 | name and base directory are kept as given |
| `Addons.DownloadDirectory` | src/lib.rs:250-256 | always `"downloaddir"` |
| `Addons.StagingDirectory` | src/lib.rs:258-264 | always `"stagedir"` |
| `Addons.DirectoriesIgnoreLocation` | src/lib.rs:250-264 | both directories are the same for every location, so repeated calls agree, and the two always differ |
| `Installs.Install.constructor` | src/lib.rs:112-117 | a new install is `Available` and holds the given addon |
| `Installs.Install.Download` | src/lib.rs:119-133 | requires `Available`; ends `Installed` with the addon unchanged, having assigned exactly `Effect(DownloadOp, Available)` |
| `Installs.Install.Verify` | src/lib.rs:135-149 | requires `Downloaded`; ends `Installed` with the addon unchanged, having assigned exactly `Effect(VerifyOp, Downloaded)` |
| `Installs.Install.Stage` | src/lib.rs:151-166 | requires `Verified`; ends `Installed` with the addon unchanged, having assigned exactly `Effect(StageOp, Verified)` |
| `Installs.Install.InstallAddon` | src/lib.rs:168-178 | requires `Staged`; ends `Installed` with the addon unchanged, through `Installing` |
| `Installs.Install.Cancel` | src/lib.rs:180-212 | requires one of the twelve cancellable states; ends `Cancelled` with the addon unchanged |
| `Installs.Install.Postpone` | src/lib.rs:214-222 | requires `Verified`; ends `Postponed` through `Postponing`, with the addon unchanged |
| `Installs.Install.Resume` | src/lib.rs:224-232 | requires `Postponed`; ends `Resumed` through `Resuming`, with the addon unchanged |
| `Installs.InstallAddonScenario` | src/lib.rs:275-296 | the unit test's addon, downloaded on a new install, ends `Installed` with id `"@test123"` and its url kept |
| `Installs.CancelAfterInstallScenario` | src/lib.rs:180-296 | the same install, cancelled after download, ends `Cancelled`, and every operation panics from there |

## Left out

- Console logging (`println!`) in every operation and in `InstallLocation::new`: it is output only and does not change behaviour.
- Fetching, verifying, copying and committing the artifact, and locking or reference-counting the directories. The code has only TODO comments for these, so every step always succeeds.
- The commented-out manifest validation and the alternative addon construction: neither is live code.
- `AddonType` is kept as an opaque field. Nothing inspects it.
- A panic is modelled as a `requires` on the class methods and as `None` in the pure table. The model does not capture that a panic unwinds the process.
- Rust ownership (an `Addon` moving its `Manifest` and `InstallLocation`, an `Install` owning its `Addon`) is modelled with immutable values.
- `get_download_directory` and `get_staging_directory` take the location mutably but change nothing, so they are modelled as functions on the location value.
