/** What the prereq state promises, proved on its specification functions: the guard and the
    distro gate act before any effect, the effects follow one fixed order and are never rolled
    back, the hook script is installed before the boot script is looked at, the unmount loops
    never abort, and a second `enter` duplicates the `KillMode` directive. */
module PrereqProperties {
  import opened Outcomes
  import opened HostModel
  import opened PrereqStateModel
  import UnitPatch
  import DistroGate

  /** `a` is an initial part of `b`. */
  predicate IsPrefix(a: seq<Effect>, b: seq<Effect>)
  {
    |a| <= |b| && b[..|a|] == a
  }

  /** The paths `enter` touches are pairwise distinct whatever the scripts directory, except each
      script source against its own destination (they coincide when the scripts directory is that
      destination's directory).  Each pair stated here already differs in its last character. */
  lemma PathsDistinct(ctx: Context)
    ensures HookSource(ctx) != BootSource(ctx)
    ensures HookSource(ctx) != UnitFilePath && BootSource(ctx) != UnitFilePath
    ensures BootSource(ctx) != HookDest && HookSource(ctx) != BootDest
    ensures HookDest != UnitFilePath && BootDest != UnitFilePath && HookDest != BootDest
  {
    var hs, bs := HookSource(ctx), BootSource(ctx);
    assert hs[|hs| - 1] == 'k';
    assert bs[|bs| - 1] == 't';
    assert UnitFilePath[|UnitFilePath| - 1] == 'e';
    assert HookDest[|HookDest| - 1] == 'k';
    assert BootDest[|BootDest| - 1] == 't';
  }

  /** With the base guard false, `enter` returns normally and does nothing at all. */
  lemma SkippedEnterIsNoOp(ctx: Context, b: Behaviour, h: HostState)
    requires !ctx.baseShouldEnter
    ensures EnterSpec(ctx, b, h) == Step(h, Pass)
  {
  }

  /** Any distro but Ubuntu 20.04 fails with an error naming family and version, before any
      package installation, file write or command. */
  lemma UnsupportedDistroFailsFast(ctx: Context, b: Behaviour, h: HostState)
    requires ctx.baseShouldEnter
    requires !DistroGate.IsSupported(ctx.family, ctx.version)
    ensures EnterSpec(ctx, b, h) == Step(h, Fail(UnsupportedDistro(ctx.family, ctx.version)))
  {
  }

  /** Everything `enter` needs to run to completion on this host. */
  predicate Healthy(ctx: Context, b: Behaviour, h: HostState)
  {
    && !b.installExtrasFails
    && UnitFilePath in h.files
    && DaemonReload !in b.failing
    && HookSource(ctx) in h.files
    && CopyCommand(HookSource(ctx), HookDest) !in b.failing
    && ChmodCommand(HookDest) !in b.failing
    && BootSource(ctx) in h.files
    && CopyCommand(BootSource(ctx), BootDest) !in b.failing
    && ChmodCommand(BootDest) !in b.failing
    && !(b.defaultRaises && (StopSnapUnits in b.failing || ReportSnapUnits in b.failing))
  }

  /** `_snap_stop` never changes files or execute bits; its effects are a prefix of the fixed
      list; only the two unit loops can make it fail, and only when an unflagged command raises. */
  lemma SnapStopEffects(b: Behaviour, h: HostState)
    ensures var r := SnapStopSpec(b, h);
      && r.host.files == h.files && r.host.executables == h.executables
      && IsPrefix(h.log, r.host.log) && IsPrefix(r.host.log, h.log + SnapEffects())
      && (r.outcome.Pass? ==> r.host.log == h.log + SnapEffects())
      && (r.outcome.Pass? <==> !(b.defaultRaises && (StopSnapUnits in b.failing || ReportSnapUnits in b.failing)))
      && (r.outcome.Fail? ==>
            r.outcome.error == CommandFailed(StopSnapUnits) || r.outcome.error == CommandFailed(ReportSnapUnits))
  {
    var full := h.log + SnapEffects();
    var r := SnapStopSpec(b, h);
    if r.outcome.Fail? {
      assert r.host.log == full[..|h.log| + 1] || r.host.log == full[..|h.log| + 2];
    }
  }

  /** Whether the unmount loops fail makes no difference to `_snap_stop`. */
  lemma SnapStopIgnoresUnmountFailures(b: Behaviour, h: HostState)
    ensures SnapStopSpec(b, h) == SnapStopSpec(b.(failing := b.failing - {UnmountLxd, UnmountCore18, UnmountSnapd}), h)
  {
    var b' := b.(failing := b.failing - {UnmountLxd, UnmountCore18, UnmountSnapd});
    assert StopSnapUnits in b.failing <==> StopSnapUnits in b'.failing;
    assert ReportSnapUnits in b.failing <==> ReportSnapUnits in b'.failing;
  }

  /** A missing hook script fails `_copy_ade_scripts` before any copy or chmod; the boot script
      is never looked at, since the result does not mention it. */
  lemma HookMissingFailsFirst(ctx: Context, b: Behaviour, h: HostState)
    requires HookSource(ctx) !in h.files
    ensures CopyAdeScriptsSpec(ctx, b, h) == Step(h, Fail(HookScriptNotFound(HookSource(ctx))))
  {
  }

  /** A missing boot script fails `_copy_ade_scripts` after the hook script has been copied and
      made executable, and nothing of that is undone. */
  lemma BootMissingKeepsHook(ctx: Context, b: Behaviour, h: HostState)
    requires HookSource(ctx) in h.files
    requires CopyCommand(HookSource(ctx), HookDest) !in b.failing
    requires ChmodCommand(HookDest) !in b.failing
    requires BootSource(ctx) !in h.files
    ensures CopyAdeScriptsSpec(ctx, b, h) == Step(
      HostState(h.files[HookDest := h.files[HookSource(ctx)]],
                h.executables + {HookDest},
                h.log + ScriptEffects(ctx)[..2]),
      Fail(BootScriptNotFound(BootSource(ctx))))
  {
    PathsDistinct(ctx);
  }

  /** `_copy_ade_scripts` only ever appends a prefix of its fixed effect list to the log. */
  lemma CopyAdeScriptsFollowsPlan(ctx: Context, b: Behaviour, h: HostState)
    ensures var r := CopyAdeScriptsSpec(ctx, b, h);
      IsPrefix(h.log, r.host.log) && IsPrefix(r.host.log, h.log + ScriptEffects(ctx))
  {
    var full := h.log + ScriptEffects(ctx);
    var r := CopyAdeScriptsSpec(ctx, b, h);
    var k := |r.host.log| - |h.log|;
    assert 0 <= k <= 4 && r.host.log == full[..|h.log| + k];
  }

  /** Appending a stretch of the plan that starts where the log already is keeps the log a
      prefix of the whole plan. */
  lemma ChainPrefix(base: seq<Effect>, plan: seq<Effect>, k: nat, e: seq<Effect>, y: seq<Effect>)
    requires k + |e| <= |plan| && plan[k..k + |e|] == e
    requires IsPrefix(base + plan[..k], y) && IsPrefix(y, base + plan[..k] + e)
    ensures IsPrefix(base, y) && IsPrefix(y, base + plan)
  {
    assert base + plan[..k] + e == (base + plan)[..|base| + k + |e|];
  }

  /** Appending exactly the next stretch of the plan. */
  lemma ChainExact(base: seq<Effect>, plan: seq<Effect>, k: nat, e: seq<Effect>, y: seq<Effect>)
    requires k + |e| <= |plan| && plan[k..k + |e|] == e
    requires y == base + plan[..k] + e
    ensures y == base + plan[..k + |e|]
    ensures IsPrefix(base, y) && IsPrefix(y, base + plan)
  {
    assert plan[..k + |e|] == plan[..k] + e;
    ChainPrefix(base, plan, k, e, y);
  }

  /** The stretches of the plan, step by step. */
  lemma PlanShape(ctx: Context, t: Text)
    ensures var plan := PlannedEffects(ctx, t);
      && |plan| == 12
      && plan[..0] == []
      && plan[0..1] == [InstallExtras]
      && plan[1..2] == [WriteFile(UnitFilePath, UnitPatch.Patch(t))]
      && plan[2..3] == [Execute(DaemonReload, Required)]
      && plan[3..7] == ScriptEffects(ctx)
      && plan[7..12] == SnapEffects()
  {
  }

  /** The part of `enter` after daemon-reload follows its stretch of the plan. */
  lemma AfterReloadFollowsPlan(ctx: Context, b: Behaviour, h3: HostState, base: seq<Effect>, plan: seq<Effect>)
    requires |plan| == 12 && plan[3..7] == ScriptEffects(ctx) && plan[7..12] == SnapEffects()
    requires h3.log == base + plan[..3]
    ensures var s4 := CopyAdeScriptsSpec(ctx, b, h3);
      var r := if s4.outcome.Fail? then s4 else SnapStopSpec(b, s4.host);
      IsPrefix(base, r.host.log) && IsPrefix(r.host.log, base + plan)
  {
    var s4 := CopyAdeScriptsSpec(ctx, b, h3);
    CopyAdeScriptsFollowsPlan(ctx, b, h3);
    ChainPrefix(base, plan, 3, ScriptEffects(ctx), s4.host.log);
    if s4.outcome.Pass? {
      SnapStopEffects(b, s4.host);
      PassedScripts(ctx, b, h3);
      ChainExact(base, plan, 3, ScriptEffects(ctx), s4.host.log);
      ChainPrefix(base, plan, 7, SnapEffects(), SnapStopSpec(b, s4.host).host.log);
    }
  }

  /** A `_copy_ade_scripts` that passes has issued all four of its commands. */
  lemma PassedScripts(ctx: Context, b: Behaviour, h: HostState)
    requires CopyAdeScriptsSpec(ctx, b, h).outcome.Pass?
    ensures CopyAdeScriptsSpec(ctx, b, h).host.log == h.log + ScriptEffects(ctx)
  {
  }

  /** Whatever happens, `enter` only appends to the log, and what it appends is a prefix of the
      fixed order: install extras, rewrite the unit, daemon-reload, hook copy and chmod, boot copy
      and chmod, the two unit loops, the lxd, core18 and snapd unmounts.  So no effect is ever
      issued out of order, and none is undone. */
  lemma EnterFollowsPlan(ctx: Context, b: Behaviour, h: HostState)
    ensures var r := EnterSpec(ctx, b, h);
      IsPrefix(h.log, r.host.log) && IsPrefix(r.host.log, h.log + PlannedEffects(ctx, UnitText(h)))
  {
    var plan := PlannedEffects(ctx, UnitText(h));
    PlanShape(ctx, UnitText(h));
    if !ctx.baseShouldEnter || !DistroGate.IsSupported(ctx.family, ctx.version) {
      ChainExact(h.log, plan, 0, [], h.log);
      return;
    }
    var s1 := InstallExtrasStep(b, h);
    ChainExact(h.log, plan, 0, [InstallExtras], s1.host.log);
    if s1.outcome.Fail? {
      return;
    }
    var s2 := PatchWalinuxagentSpec(s1.host);
    if s2.outcome.Fail? {
      return;
    }
    ChainExact(h.log, plan, 1, [WriteFile(UnitFilePath, UnitPatch.Patch(UnitText(h)))], s2.host.log);
    var s3 := ExecuteStep(b, s2.host, DaemonReload, Required);
    ChainExact(h.log, plan, 2, [Execute(DaemonReload, Required)], s3.host.log);
    if s3.outcome.Fail? {
      return;
    }
    AfterReloadFollowsPlan(ctx, b, s3.host, h.log, plan);
  }

  /** `enter` returns normally exactly when the guard skips it, or the distro is supported and
      the host has everything the steps need. */
  lemma EnterPassIff(ctx: Context, b: Behaviour, h: HostState)
    ensures EnterSpec(ctx, b, h).outcome.Pass? <==>
      !ctx.baseShouldEnter || (DistroGate.IsSupported(ctx.family, ctx.version) && Healthy(ctx, b, h))
  {
    PathsDistinct(ctx);
    if ctx.baseShouldEnter && DistroGate.IsSupported(ctx.family, ctx.version) {
      var s1 := InstallExtrasStep(b, h);
      if s1.outcome.Pass? {
        var s2 := PatchWalinuxagentSpec(s1.host);
        if s2.outcome.Pass? {
          var s3 := ExecuteStep(b, s2.host, DaemonReload, Required);
          if s3.outcome.Pass? {
            var s4 := CopyAdeScriptsSpec(ctx, b, s3.host);
            if s4.outcome.Pass? {
              SnapStopEffects(b, s4.host);
            }
          }
        }
      }
    }
  }

  /** `_copy_ade_scripts` on a host that has both sources and runs both copies and chmods. */
  lemma CopyAdeScriptsComplete(ctx: Context, b: Behaviour, h: HostState)
    requires HookSource(ctx) in h.files && BootSource(ctx) in h.files
    requires CopyCommand(HookSource(ctx), HookDest) !in b.failing && ChmodCommand(HookDest) !in b.failing
    requires CopyCommand(BootSource(ctx), BootDest) !in b.failing && ChmodCommand(BootDest) !in b.failing
    ensures CopyAdeScriptsSpec(ctx, b, h) == Step(
      HostState(h.files[HookDest := h.files[HookSource(ctx)]][BootDest := h.files[BootSource(ctx)]],
                h.executables + {HookDest, BootDest},
                h.log + ScriptEffects(ctx)),
      Pass)
  {
    PathsDistinct(ctx);
  }

  /** The host after a complete `enter`: the unit is patched, both scripts are in place and
      executable, and the log holds the whole plan. */
  lemma EnterComplete(ctx: Context, b: Behaviour, h: HostState)
    requires ctx.baseShouldEnter && DistroGate.IsSupported(ctx.family, ctx.version)
    requires Healthy(ctx, b, h)
    ensures EnterSpec(ctx, b, h) == Step(
      HostState(h.files[UnitFilePath := UnitPatch.Patch(h.files[UnitFilePath])]
                       [HookDest := h.files[HookSource(ctx)]]
                       [BootDest := h.files[BootSource(ctx)]],
                h.executables + {HookDest, BootDest},
                h.log + PlannedEffects(ctx, UnitText(h))),
      Pass)
  {
    PathsDistinct(ctx);
    var t := UnitPatch.Patch(h.files[UnitFilePath]);
    var files2 := h.files[UnitFilePath := t];
    var s3 := ExecuteStep(b, PatchWalinuxagentSpec(InstallExtrasStep(b, h).host).host, DaemonReload, Required);
    assert s3 == Step(HostState(files2, h.executables,
      h.log + [InstallExtras, WriteFile(UnitFilePath, t), Execute(DaemonReload, Required)]), Pass);
    CopyAdeScriptsComplete(ctx, b, s3.host);
    var s4 := CopyAdeScriptsSpec(ctx, b, s3.host);
    SnapStopEffects(b, s4.host);
    var s5 := SnapStopSpec(b, s4.host);
    assert EnterSpec(ctx, b, h) == s5;
  }

  /** A failing `systemctl daemon-reload` aborts `enter` after the unit rewrite and before any
      script is copied; the rewrite stays. */
  lemma DaemonReloadFailureStopsEnter(ctx: Context, b: Behaviour, h: HostState)
    requires ctx.baseShouldEnter && DistroGate.IsSupported(ctx.family, ctx.version)
    requires !b.installExtrasFails && UnitFilePath in h.files
    requires DaemonReload in b.failing
    ensures EnterSpec(ctx, b, h) == Step(
      HostState(h.files[UnitFilePath := UnitPatch.Patch(h.files[UnitFilePath])], h.executables,
                h.log + PlannedEffects(ctx, UnitText(h))[..3]),
      Fail(CommandFailed(DaemonReload)))
  {
  }

  /** A missing hook script aborts `enter` after daemon-reload, with no copy and no chmod. */
  lemma HookMissingStopsEnter(ctx: Context, b: Behaviour, h: HostState)
    requires ctx.baseShouldEnter && DistroGate.IsSupported(ctx.family, ctx.version)
    requires !b.installExtrasFails && UnitFilePath in h.files && DaemonReload !in b.failing
    requires HookSource(ctx) !in h.files
    ensures EnterSpec(ctx, b, h) == Step(
      HostState(h.files[UnitFilePath := UnitPatch.Patch(h.files[UnitFilePath])], h.executables,
                h.log + PlannedEffects(ctx, UnitText(h))[..3]),
      Fail(HookScriptNotFound(HookSource(ctx))))
  {
    PathsDistinct(ctx);
  }

  /** A complete `enter` patches the unit once and leaves the host healthy for another run. */
  lemma EnterCompleteAgain(ctx: Context, b: Behaviour, h: HostState)
    requires ctx.baseShouldEnter && DistroGate.IsSupported(ctx.family, ctx.version)
    requires Healthy(ctx, b, h)
    ensures var h1 := EnterSpec(ctx, b, h).host;
      Healthy(ctx, b, h1) && UnitFilePath in h1.files &&
      h1.files[UnitFilePath] == UnitPatch.Patch(h.files[UnitFilePath])
  {
    PathsDistinct(ctx);
    EnterComplete(ctx, b, h);
  }

  /** Entering twice on a healthy host leaves two `KillMode=process` lines after every
      `[Service]` header of the original unit: the rewrite has no presence check. */
  lemma EnterTwiceDuplicatesDirective(ctx: Context, b: Behaviour, h: HostState)
    requires ctx.baseShouldEnter && DistroGate.IsSupported(ctx.family, ctx.version)
    requires Healthy(ctx, b, h)
    ensures var h2 := EnterSpec(ctx, b, EnterSpec(ctx, b, h).host).host;
      UnitFilePath in h2.files &&
      h2.files[UnitFilePath] ==
        UnitPatch.InsertAfterHeaders(h.files[UnitFilePath], UnitPatch.KillModeLine + UnitPatch.KillModeLine)
  {
    var t := h.files[UnitFilePath];
    var h1 := EnterSpec(ctx, b, h).host;
    assert Healthy(ctx, b, h1) && UnitFilePath in h1.files && h1.files[UnitFilePath] == UnitPatch.Patch(t) by {
      EnterCompleteAgain(ctx, b, h);
    }
    var h2 := EnterSpec(ctx, b, h1).host;
    assert UnitFilePath in h2.files && h2.files[UnitFilePath] == UnitPatch.Patch(UnitPatch.Patch(t)) by {
      EnterCompleteAgain(ctx, b, h1);
    }
    UnitPatch.PatchTwice(t);
  }
}
