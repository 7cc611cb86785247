# PrereqState: a verified model of the Ubuntu 20.04 prereq encryption state

This project models `PrereqState`, the first state of the Ubuntu 20.04 OS-disk encryption state
machine of the Azure Disk Encryption VM extension
(`VMEncryption/main/oscrypto/ubuntu_2004/encryptstates/PrereqState.py`), and proves properties
of the model in Dafny.

`enter` is guarded by `should_enter`. Its distro gate accepts only Ubuntu 20.04. It then runs a
fixed sequence of host effects:
- install the extra packages through the distro patcher;
- rewrite the walinuxagent systemd unit so that every `[Service]` header is followed by
  `KillMode=process`;
- run `systemctl daemon-reload`;
- install the initramfs hook script and then the init-premount boot script (check the source,
  `cp`, `chmod +x`);
- stop the snap units and unmount the snap mountpoints.

The host is abstract. It has a file system (a map from path to text), a set of executable paths
and an append-only log of every effect issued. Its behaviour is an input (`Behaviour`): which
command lines exit non-zero, whether package installation raises, and whether a command issued
without a must-succeed flag raises. Exceptions become `Fail` values of `Outcomes.Outcome`.

Files:
- `outcomes.dfy` holds the error and outcome types.
- `unit_patch.dfy` holds the unit-file substitution. It is a pure function with lemmas: identity,
  length growth, round trip, non-idempotence.
- `distro_gate.dfy` holds the distro predicate and its error text.
- `host.dfy` holds the abstract host. It has a `Host` class whose methods update it in place.
  Each method that changes the host is proved equal to a pure step function. `ReadFile` and
  `Exists` change nothing, and their contracts give their results directly.
- `prereq_state.dfy` holds the `PrereqState` class. Its methods are proved equal to specification
  functions on `HostState` (`EnterSpec`, `PatchWalinuxagentSpec`, `CopyAdeScriptsSpec`,
  `SnapStopSpec`).
- `prereq_properties.dfy` holds the lemmas about those specification functions: ordering, fail
  fast, no rollback, best effort, directive duplication.

The snap unit loops on lines 122-123 pass no must-succeed flag, unlike the unmount loops on
lines 126-128, which pass `False`. So whether a failing unit loop aborts `enter` depends on the
command executor's default, which the model keeps as the input `Behaviour.defaultRaises`. Only
the three unmount loops are proved never to abort.

## Model

| member | source | states |
|---|---|---|
| `UnitPatch.PatchLength` | VMEncryption/main/oscrypto/ubuntu_2004/encryptstates/PrereqState.py:77 | the patched text is the original length plus 17 characters per `[Service]\n` occurrence |
| `UnitPatch.PatchUnchangedIff` | VMEncryption/main/oscrypto/ubuntu_2004/encryptstates/PrereqState.py:77 | the patch leaves the text unchanged exactly when it holds no `[Service]\n` occurrence (both directions) |
| `UnitPatch.NoHeaderUnchanged` | VMEncryption/main/oscrypto/ubuntu_2004/encryptstates/PrereqState.py:77 | a text with no header comes back identical, whatever is inserted |
| `UnitPatch.HeaderCountZeroIff` | VMEncryption/main/oscrypto/ubuntu_2004/encryptstates/PrereqState.py:77 | the scan counts zero headers exactly when no position of the text holds `[Service]\n` |
| `UnitPatch.InsertLength` | VMEncryption/main/oscrypto/ubuntu_2004/encryptstates/PrereqState.py:77 | each replaced header grows the text by exactly the inserted length |
| `UnitPatch.StartsWithHeaderIff` | VMEncryption/main/oscrypto/ubuntu_2004/encryptstates/PrereqState.py:77 | the substitution never creates a header at the front of the text: the result starts with one exactly when the input does |
| `UnitPatch.RemoveInsertRoundTrip` | VMEncryption/main/oscrypto/ubuntu_2004/encryptstates/PrereqState.py:77 | removing the inserted text after every header recovers the original text |
| `UnitPatch.PatchRoundTrip` | VMEncryption/main/oscrypto/ubuntu_2004/encryptstates/PrereqState.py:77 | nothing outside the inserted `KillMode=process` lines changes: dropping them after each header gives back the original unit text |
| `UnitPatch.HeaderCountPreserved` | VMEncryption/main/oscrypto/ubuntu_2004/encryptstates/PrereqState.py:77 | inserting text without `[` neither creates nor destroys headers |
| `UnitPatch.PatchKeepsHeaderCount` | VMEncryption/main/oscrypto/ubuntu_2004/encryptstates/PrereqState.py:77 | the patched unit holds exactly as many `[Service]` headers as the original |
| `UnitPatch.InsertTwice` | VMEncryption/main/oscrypto/ubuntu_2004/encryptstates/PrereqState.py:77 | two successive substitutions equal one substitution inserting both texts, the second one first |
| `UnitPatch.PatchTwice` | VMEncryption/main/oscrypto/ubuntu_2004/encryptstates/PrereqState.py:74-80 | patching already patched text puts a second `KillMode=process` line after every header (no presence check) |
| `UnitPatch.PatchNotIdempotent` | VMEncryption/main/oscrypto/ubuntu_2004/encryptstates/PrereqState.py:74-80 | on any text with a header, patching a second time changes the text again |
| `DistroGate.Lower` | VMEncryption/main/oscrypto/ubuntu_2004/encryptstates/PrereqState.py:49 | `lower()` keeps the length and lower-cases each character in place |
| `DistroGate.IsSupportedIff` | VMEncryption/main/oscrypto/ubuntu_2004/encryptstates/PrereqState.py:49 | the gate accepts exactly a family spelling `ubuntu` in any mix of cases together with the version `20.04` (both directions) |
| `DistroGate.UnsupportedMessage` | VMEncryption/main/oscrypto/ubuntu_2004/encryptstates/PrereqState.py:53-54 | the unsupported-distro exception text starts with the fixed prefix and names the family and then the version |
| `PrereqStateModel.Message` | VMEncryption/main/oscrypto/ubuntu_2004/encryptstates/PrereqState.py:53-110 | the exception texts of the state's own errors: the distro message, and "Hook/Boot script not found at path: " followed by the missing path |
| `PrereqStateModel.PrereqState.constructor` | VMEncryption/main/oscrypto/ubuntu_2004/encryptstates/PrereqState.py:27-28 | the state keeps the shared context and the host it is given |
| `PrereqStateModel.PrereqState.ShouldEnter` | VMEncryption/main/oscrypto/ubuntu_2004/encryptstates/PrereqState.py:30-38 | `should_enter` returns the base state's verdict and changes nothing on the host (no `modifies`), so repeated calls are stable |
| `PrereqStateModel.PrereqState.ShouldExit` | VMEncryption/main/oscrypto/ubuntu_2004/encryptstates/PrereqState.py:64-67 | `should_exit` returns the base state's verdict and changes nothing |
| `PrereqStateModel.PrereqState.Enter` | VMEncryption/main/oscrypto/ubuntu_2004/encryptstates/PrereqState.py:40-62 | the host and outcome after `enter` are those of `EnterSpec`: guard, distro gate, then the ordered steps stopping at the first failure |
| `PrereqStateModel.PrereqState.PatchWalinuxagent` | VMEncryption/main/oscrypto/ubuntu_2004/encryptstates/PrereqState.py:69-82 | reads the unit file (failing if it is missing) and writes back its patched text, as `PatchWalinuxagentSpec` |
| `PrereqStateModel.PrereqState.InstallScript` | VMEncryption/main/oscrypto/ubuntu_2004/encryptstates/PrereqState.py:92-103 | one script phase: fail with the phase's error if the source is missing, else `cp` and then `chmod +x`, as `InstallScriptSpec` |
| `PrereqStateModel.PrereqState.CopyAdeScripts` | VMEncryption/main/oscrypto/ubuntu_2004/encryptstates/PrereqState.py:84-116 | the hook phase and then the boot phase, the second only if the first passed, as `CopyAdeScriptsSpec` |
| `PrereqStateModel.PrereqState.SnapStop` | VMEncryption/main/oscrypto/ubuntu_2004/encryptstates/PrereqState.py:118-128 | the two unit loops without a flag, then the lxd, core18 and snapd unmounts with must-succeed false, as `SnapStopSpec` |
| `HostModel.Host.InstallExtras` | VMEncryption/main/oscrypto/ubuntu_2004/encryptstates/PrereqState.py:56 | package installation is logged, and it raises when the host says so |
| `HostModel.Host.Execute` | VMEncryption/main/oscrypto/ubuntu_2004/encryptstates/PrereqState.py:59 | a command is logged with its flag, and it fails only when it exits non-zero and its flag makes that raise |
| `HostModel.Host.ExecuteInBash` | VMEncryption/main/oscrypto/ubuntu_2004/encryptstates/PrereqState.py:122-128 | a shell script is logged with its flag, and it fails only when it exits non-zero and its flag makes that raise |
| `HostModel.Host.ReadFile` | VMEncryption/main/oscrypto/ubuntu_2004/encryptstates/PrereqState.py:74-75 | reading returns the file's text, or an error when the file does not exist; it changes nothing |
| `HostModel.Host.WriteFile` | VMEncryption/main/oscrypto/ubuntu_2004/encryptstates/PrereqState.py:79-80 | writing replaces that one file's text and logs the write |
| `HostModel.Host.Exists` | VMEncryption/main/oscrypto/ubuntu_2004/encryptstates/PrereqState.py:96 | a path exists exactly when the file map has it |
| `HostModel.Host.Copy` | VMEncryption/main/oscrypto/ubuntu_2004/encryptstates/PrereqState.py:102 | `cp src dst` with must-succeed set is logged; on success `dst` gets the text of `src`; otherwise it fails and nothing else changes |
| `HostModel.Host.MakeExecutable` | VMEncryption/main/oscrypto/ubuntu_2004/encryptstates/PrereqState.py:103 | `chmod +x path` with must-succeed set is logged; on success `path` becomes executable; otherwise it fails |
| `PrereqProperties.PathsDistinct` | VMEncryption/main/oscrypto/ubuntu_2004/encryptstates/PrereqState.py:74-108 | the unit file, both script sources and both destinations are pairwise distinct, whatever the scripts directory, except each source against its own destination (equal when the scripts directory is that destination's directory) |
| `PrereqProperties.SkippedEnterIsNoOp` | VMEncryption/main/oscrypto/ubuntu_2004/encryptstates/PrereqState.py:40-42 | when `should_enter` is false, `enter` returns normally with the host untouched: no install, no write, no command |
| `PrereqProperties.UnsupportedDistroFailsFast` | VMEncryption/main/oscrypto/ubuntu_2004/encryptstates/PrereqState.py:49-56 | any other distro fails with an error carrying family and version, with the host untouched (before `install_extras`) |
| `PrereqProperties.EnterFollowsPlan` | VMEncryption/main/oscrypto/ubuntu_2004/encryptstates/PrereqState.py:56-62 | on every path `enter` only appends to the log, and what it appends is a prefix of the fixed order: install, unit rewrite, daemon-reload, hook cp/chmod, boot cp/chmod, two unit loops, lxd/core18/snapd unmounts |
| `PrereqProperties.EnterPassIff` | VMEncryption/main/oscrypto/ubuntu_2004/encryptstates/PrereqState.py:40-62 | `enter` returns normally exactly when the guard skips it or the distro is supported and every must-succeed step succeeds on the host (both directions) |
| `PrereqProperties.EnterComplete` | VMEncryption/main/oscrypto/ubuntu_2004/encryptstates/PrereqState.py:56-62 | a successful `enter` leaves the unit patched, both scripts copied and executable, and the whole plan in the log |
| `PrereqProperties.DaemonReloadFailureStopsEnter` | VMEncryption/main/oscrypto/ubuntu_2004/encryptstates/PrereqState.py:58-61 | a failing `systemctl daemon-reload` aborts `enter` after the rewrite, with no script copied, and the rewrite stays |
| `PrereqProperties.HookMissingStopsEnter` | VMEncryption/main/oscrypto/ubuntu_2004/encryptstates/PrereqState.py:93-99 | a missing hook source aborts `enter` after daemon-reload with "hook script not found", with no copy and no chmod |
| `PrereqProperties.HookMissingFailsFirst` | VMEncryption/main/oscrypto/ubuntu_2004/encryptstates/PrereqState.py:93-103 | a missing hook source fails `_copy_ade_scripts` with the host untouched; the boot script is never examined |
| `PrereqProperties.BootMissingKeepsHook` | VMEncryption/main/oscrypto/ubuntu_2004/encryptstates/PrereqState.py:102-116 | a missing boot source fails with "boot script not found" after the hook was copied to its destination and made executable; nothing is rolled back |
| `PrereqProperties.CopyAdeScriptsFollowsPlan` | VMEncryption/main/oscrypto/ubuntu_2004/encryptstates/PrereqState.py:84-116 | `_copy_ade_scripts` appends a prefix of: hook cp, hook chmod, boot cp, boot chmod |
| `PrereqProperties.CopyAdeScriptsComplete` | VMEncryption/main/oscrypto/ubuntu_2004/encryptstates/PrereqState.py:84-116 | with both sources present and all four commands succeeding, both scripts are copied and executable and all four commands are logged |
| `PrereqProperties.SnapStopEffects` | VMEncryption/main/oscrypto/ubuntu_2004/encryptstates/PrereqState.py:118-128 | `_snap_stop` touches no file; its commands come in the fixed order; it fails only through a raising unit loop, never through an unmount |
| `PrereqProperties.SnapStopIgnoresUnmountFailures` | VMEncryption/main/oscrypto/ubuntu_2004/encryptstates/PrereqState.py:126-128 | whether the lxd, core18 or snapd unmount fails makes no difference to `_snap_stop` |
| `PrereqProperties.EnterTwiceDuplicatesDirective` | VMEncryption/main/oscrypto/ubuntu_2004/encryptstates/PrereqState.py:58-80 | entering twice on a healthy host leaves two `KillMode=process` lines after every `[Service]` header of the original unit |

## Left out

- Logging (`context.logger.log`): fire-and-forget, with no effect on control flow.
- Real file I/O. The unit file is an entry of the abstract file map. Reading a missing file
  fails; other read errors (permissions, decoding) are not modelled.
- `HostModel.Host.WriteFile`: a write always succeeds; a failing `open(..., 'w')` is not modelled.
- What the shell snippets on lines 122-128 do (`systemctl`, `lsblk`, `grep`, `umount`). Each is
  an opaque logged script with its flag, whose exit status comes from `Behaviour.failing`.
- The must-succeed default of `ExecuteInBash` on lines 122-123. The executor is not part of this
  model, so the default is the input `Behaviour.defaultRaises`.
- `HostModel.Host.Copy` and `HostModel.Host.MakeExecutable`: they give `cp` and `chmod +x` their
  obvious meaning. They also exit non-zero when the source or target is missing. The executor's
  exact error text is not modelled; the error carries the command line.
- The `inspect`/`os.path` resolution of the scripts directory (lines 89-94). The resolved
  `encryptscripts` directory is the input `Context.encryptScriptsDir`.
- `distro_patcher.install_extras()` internals: its failure is the input
  `Behaviour.installExtrasFails`.
- The base class `OSEncryptionState`, which is not part of this model: its `should_enter` and
  `should_exit` verdicts are the inputs `Context.baseShouldEnter` and `Context.baseShouldExit`.
- `DistroGate.Lower`: lower-cases ASCII letters only. Under Python 3, `str.lower` also maps
  non-ASCII letters (Unicode case mapping), which the model does not cover.
- `PrereqStateModel.PrereqState.PatchWalinuxagent`: the file map holds the unit text exactly as
  `read()` returns it, and the model patches that text. Under Python 3, text-mode `open` turns
  `\r\n` and a lone `\r` into `\n` on read. That newline translation is not modelled. So a unit
  whose header ends in `\r\n` is patched by the Python 3 code, but the model leaves it unchanged.
  Under Python 2 on Linux there is no translation, and the model matches.
- The unused `sleep` import, and concurrency: the code is strictly sequential.
