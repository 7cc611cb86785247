/** The prereq state of the Ubuntu 20.04 OS-disk encryption state machine.  `enter` is guarded
    by `should_enter`, rejects every distro but Ubuntu 20.04, and then, in a fixed order, installs
    the extra packages, patches the walinuxagent unit, reloads systemd, installs the two
    initramfs scripts and stops snap.  Each step is given twice: as a function on `HostState`
    (the specification) and as a method of `PrereqState` that updates a `Host` in place. */
module PrereqStateModel {
  import opened Outcomes
  import opened HostModel
  import UnitPatch
  import DistroGate

  const UnitFilePath: Path := "/lib/systemd/system/walinuxagent.service"
  const DaemonReload: string := "systemctl daemon-reload"

  const HookScriptName: string := "crypt-ade-hook"
  const HookDest: Path := "/usr/share/initramfs-tools/hooks/crypt-ade-hook"
  const BootScriptName: string := "crypt-ade-boot"
  const BootDest: Path := "/usr/share/initramfs-tools/scripts/init-premount/crypt-ade-boot"

  const HookNotFoundPrefix: string := "Hook script not found at path: "
  const BootNotFoundPrefix: string := "Boot script not found at path: "

  /** Stops every installed unit whose name mentions snap. */
  const StopSnapUnits: string :=
    "for line in `systemctl list-unit-files | grep snap | grep -Eo '^[^ ]+'`; do printf 'stopping %s\n' $line; systemctl stop $line; done"
  /** Reports whether each of those units is still active. */
  const ReportSnapUnits: string :=
    "for line in `systemctl list-unit-files | grep snap | grep -Eo '^[^ ]+'`; do printf '%s ' $line; systemctl is-active $line; done"
  const UnmountLxd: string := "for MP in `lsblk -r -o MOUNTPOINT | grep /snap/lxd`;do umount \"$MP\";done"
  const UnmountCore18: string := "for MP in `lsblk -r -o MOUNTPOINT | grep /snap/core18`;do umount \"$MP\";done"
  const UnmountSnapd: string := "for MP in `lsblk -r -o MOUNTPOINT | grep /snap/snapd`;do umount \"$MP\";done"

  /** What the state reads from its shared context: the distro descriptor reported by the distro
      patcher, the base state's verdicts for `should_enter` and `should_exit`, and the resolved
      `encryptscripts` directory (ending in `/`) next to the state's own source directory. */
  datatype Context = Context(
    family: string,
    version: string,
    baseShouldEnter: bool,
    baseShouldExit: bool,
    encryptScriptsDir: Path)

  function HookSource(ctx: Context): Path
  {
    ctx.encryptScriptsDir + HookScriptName
  }

  function BootSource(ctx: Context): Path
  {
    ctx.encryptScriptsDir + BootScriptName
  }

  /** The exception text of the errors this state raises itself. */
  function Message(e: Error): (m: string)
    requires e.UnsupportedDistro? || e.HookScriptNotFound? || e.BootScriptNotFound?
    ensures e.HookScriptNotFound? ==>
      |m| == |HookNotFoundPrefix| + |e.path| &&
      m[..|HookNotFoundPrefix|] == HookNotFoundPrefix && m[|HookNotFoundPrefix|..] == e.path
    ensures e.BootScriptNotFound? ==>
      |m| == |BootNotFoundPrefix| + |e.path| &&
      m[..|BootNotFoundPrefix|] == BootNotFoundPrefix && m[|BootNotFoundPrefix|..] == e.path
    ensures e.UnsupportedDistro? ==> m == DistroGate.UnsupportedMessage(e.family, e.version)
  {
    match e
    case UnsupportedDistro(family, version) => DistroGate.UnsupportedMessage(family, version)
    case HookScriptNotFound(path) => HookNotFoundPrefix + path
    case BootScriptNotFound(path) => BootNotFoundPrefix + path
  }

  /** The unit file text `enter` patches, or the empty text when the file is missing. */
  function UnitText(h: HostState): Text
  {
    if UnitFilePath in h.files then h.files[UnitFilePath] else ""
  }

  /** The effects `_snap_stop` issues, in order. */
  function SnapEffects(): seq<Effect>
  {
    [ExecuteInBash(StopSnapUnits, ExecutorDefault), ExecuteInBash(ReportSnapUnits, ExecutorDefault),
     ExecuteInBash(UnmountLxd, BestEffort), ExecuteInBash(UnmountCore18, BestEffort),
     ExecuteInBash(UnmountSnapd, BestEffort)]
  }

  /** The effects `_copy_ade_scripts` issues when both scripts are installed, in order. */
  function ScriptEffects(ctx: Context): seq<Effect>
  {
    [Execute(CopyCommand(HookSource(ctx), HookDest), Required), Execute(ChmodCommand(HookDest), Required),
     Execute(CopyCommand(BootSource(ctx), BootDest), Required), Execute(ChmodCommand(BootDest), Required)]
  }

  /** Every effect of a complete `enter` on a host whose unit file holds `unitText`, in order. */
  function PlannedEffects(ctx: Context, unitText: Text): seq<Effect>
  {
    [InstallExtras, WriteFile(UnitFilePath, UnitPatch.Patch(unitText)), Execute(DaemonReload, Required)]
      + ScriptEffects(ctx) + SnapEffects()
  }

  /** `_patch_walinuxagent`: read the unit, substitute, write it back. */
  function PatchWalinuxagentSpec(h: HostState): Step
  {
    if UnitFilePath !in h.files then Step(h, Fail(UnitFileUnreadable(UnitFilePath)))
    else Step(WriteFileStep(h, UnitFilePath, UnitPatch.Patch(h.files[UnitFilePath])), Pass)
  }

  /** One phase of `_copy_ade_scripts`: the source must exist, then copy, then `chmod +x`. */
  function InstallScriptSpec(b: Behaviour, h: HostState, src: Path, dst: Path, notFound: Error): Step
  {
    if src !in h.files then Step(h, Fail(notFound))
    else
      var copied := CopyStep(b, h, src, dst);
      if copied.outcome.Fail? then copied else ChmodStep(b, copied.host, dst)
  }

  /** `_copy_ade_scripts`: the hook script first, then the boot script. */
  function CopyAdeScriptsSpec(ctx: Context, b: Behaviour, h: HostState): Step
  {
    var hook := InstallScriptSpec(b, h, HookSource(ctx), HookDest, HookScriptNotFound(HookSource(ctx)));
    if hook.outcome.Fail? then hook
    else InstallScriptSpec(b, hook.host, BootSource(ctx), BootDest, BootScriptNotFound(BootSource(ctx)))
  }

  /** `_snap_stop`: two unit loops issued without a flag, then three best-effort unmount loops. */
  function SnapStopSpec(b: Behaviour, h: HostState): Step
  {
    var s1 := ExecuteInBashStep(b, h, StopSnapUnits, ExecutorDefault);
    if s1.outcome.Fail? then s1 else
    var s2 := ExecuteInBashStep(b, s1.host, ReportSnapUnits, ExecutorDefault);
    if s2.outcome.Fail? then s2 else
    var s3 := ExecuteInBashStep(b, s2.host, UnmountLxd, BestEffort);
    var s4 := ExecuteInBashStep(b, s3.host, UnmountCore18, BestEffort);
    ExecuteInBashStep(b, s4.host, UnmountSnapd, BestEffort)
  }

  /** `enter`: the guard, the distro gate, then the ordered steps, stopping at the first failure. */
  function EnterSpec(ctx: Context, b: Behaviour, h: HostState): Step
  {
    if !ctx.baseShouldEnter then Step(h, Pass)
    else if !DistroGate.IsSupported(ctx.family, ctx.version)
    then Step(h, Fail(UnsupportedDistro(ctx.family, ctx.version)))
    else
      var s1 := InstallExtrasStep(b, h);
      if s1.outcome.Fail? then s1 else
      var s2 := PatchWalinuxagentSpec(s1.host);
      if s2.outcome.Fail? then s2 else
      var s3 := ExecuteStep(b, s2.host, DaemonReload, Required);
      if s3.outcome.Fail? then s3 else
      var s4 := CopyAdeScriptsSpec(ctx, b, s3.host);
      if s4.outcome.Fail? then s4 else
      SnapStopSpec(b, s4.host)
  }

  /** The prereq state object: it holds the shared context and works on the host. */
  class PrereqState {
    const context: Context
    const host: Host

    constructor (context: Context, host: Host)
      ensures this.context == context && this.host == host
    {
      this.context := context;
      this.host := host;
    }

    /** `should_enter`: defers to the base state and touches nothing. */
    method ShouldEnter() returns (enter: bool)
      ensures enter == context.baseShouldEnter
    {
      enter := context.baseShouldEnter;
    }

    /** `should_exit`: defers to the base state and touches nothing. */
    method ShouldExit() returns (exit: bool)
      ensures exit == context.baseShouldExit
    {
      exit := context.baseShouldExit;
    }

    method Enter() returns (o: Outcome)
      modifies host
      ensures Step(host.State(), o) == EnterSpec(context, host.behaviour, old(host.State()))
    {
      var enter := ShouldEnter();
      if !enter {
        return Pass;
      }
      if !DistroGate.IsSupported(context.family, context.version) {
        return Fail(UnsupportedDistro(context.family, context.version));
      }
      o := host.InstallExtras();
      if o.Fail? {
        return;
      }
      o := PatchWalinuxagent();
      if o.Fail? {
        return;
      }
      o := host.Execute(DaemonReload, Required);
      if o.Fail? {
        return;
      }
      o := CopyAdeScripts();
      if o.Fail? {
        return;
      }
      o := SnapStop();
    }

    method PatchWalinuxagent() returns (o: Outcome)
      modifies host
      ensures Step(host.State(), o) == PatchWalinuxagentSpec(old(host.State()))
    {
      var contents := host.ReadFile(UnitFilePath);
      if contents.Err? {
        return Fail(contents.error);
      }
      host.WriteFile(UnitFilePath, UnitPatch.Patch(contents.value));
      o := Pass;
    }

    method InstallScript(src: Path, dst: Path, notFound: Error) returns (o: Outcome)
      modifies host
      ensures Step(host.State(), o) == InstallScriptSpec(host.behaviour, old(host.State()), src, dst, notFound)
    {
      var found := host.Exists(src);
      if !found {
        return Fail(notFound);
      }
      o := host.Copy(src, dst);
      if o.Fail? {
        return;
      }
      o := host.MakeExecutable(dst);
    }

    method CopyAdeScripts() returns (o: Outcome)
      modifies host
      ensures Step(host.State(), o) == CopyAdeScriptsSpec(context, host.behaviour, old(host.State()))
    {
      var hookSource := HookSource(context);
      o := InstallScript(hookSource, HookDest, HookScriptNotFound(hookSource));
      if o.Fail? {
        return;
      }
      var bootSource := BootSource(context);
      o := InstallScript(bootSource, BootDest, BootScriptNotFound(bootSource));
    }

    method SnapStop() returns (o: Outcome)
      modifies host
      ensures Step(host.State(), o) == SnapStopSpec(host.behaviour, old(host.State()))
    {
      o := host.ExecuteInBash(StopSnapUnits, ExecutorDefault);
      if o.Fail? {
        return;
      }
      o := host.ExecuteInBash(ReportSnapUnits, ExecutorDefault);
      if o.Fail? {
        return;
      }
      var ignored := host.ExecuteInBash(UnmountLxd, BestEffort);
      ignored := host.ExecuteInBash(UnmountCore18, BestEffort);
      ignored := host.ExecuteInBash(UnmountSnapd, BestEffort);
      o := Pass;
    }
  }
}
