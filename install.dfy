/**
 * An install drives one addon through download, verify, stage and install, or
 * diverts it to cancel, postpone or resume. Each operation checks the current
 * state (an invalid one panics, modelled as a precondition), assigns the next
 * states one by one, and the first three call the next step themselves.
 */
module Installs {
  import opened Wrappers
  import opened InstallStates
  import opened Addons

  class Install {
    var state: InstallState
    var addon: Addon
    /** Every state this install has held, oldest first. */
    ghost var history: seq<InstallState>

    /**
     * The history starts at `Available`, ends in the current state, and no later
     * entry is a state no operation enters (a failure, `Cancelling` or uninstall).
     */
    ghost predicate Valid()
      reads this
    {
      && history != [] && history[0] == Available && Last(history) == state
      && forall i :: 1 <= i < |history| ==> !NeverEntered(history[i])
    }

    /** `Install::new`: a new install is `Available` and owns the given addon. */
    constructor (addon: Addon)
      ensures Valid()
      ensures state == Available && this.addon == addon && history == [Available]
    {
      state := Available;
      this.addon := addon;
      history := [Available];
    }

    /** One assignment to `state`; the operations only ever assign states they can enter. */
    method MoveTo(next: InstallState)
      requires Valid() && !NeverEntered(next)
      modifies this
      ensures Valid() && state == next
      ensures addon == old(addon) && history == old(history) + [next]
    {
      state := next;
      history := history + [next];
    }

    /** `download`: fetching is not modelled; it always succeeds and chains into verify. */
    method Download()
      requires Valid() && state == Available
      modifies this
      ensures Valid() && addon == old(addon)
      ensures state == Installed
      ensures history == old(history) + Effect(DownloadOp, old(state)).value
    {
      ChainedSteps();
      MoveTo(Downloading);
      // the second match only ever sees `Downloading`
      assert state == Downloading;
      MoveTo(Downloaded);
      Verify();
    }

    /** `verify`: checking the artifact is not modelled; it always succeeds and chains into stage. */
    method Verify()
      requires Valid() && state == Downloaded
      modifies this
      ensures Valid() && addon == old(addon)
      ensures state == Installed
      ensures history == old(history) + Effect(VerifyOp, old(state)).value
    {
      ChainedSteps();
      MoveTo(Verifying);
      assert state == Verifying;
      MoveTo(Verified);
      Stage();
    }

    /** `stage`: copying is not modelled; it always succeeds and chains into install. */
    method Stage()
      requires Valid() && state == Verified
      modifies this
      ensures Valid() && addon == old(addon)
      ensures state == Installed
      ensures history == old(history) + Effect(StageOp, old(state)).value
    {
      ChainedSteps();
      MoveTo(Staging);
      assert state == Staging;
      MoveTo(Staged);
      InstallAddon();
    }

    /** `install`: committing is not modelled; the second assignment is unconditional. */
    method InstallAddon()
      requires Valid() && state == Staged
      modifies this
      ensures Valid() && addon == old(addon)
      ensures state == Installed
      ensures history == old(history) + Effect(InstallOp, old(state)).value
    {
      MoveTo(Installing);
      MoveTo(Installed);
    }

    /** `cancel`: every accepted state goes straight to `Cancelled`. */
    method Cancel()
      requires Valid() && Cancellable(state)
      modifies this
      ensures Valid() && addon == old(addon)
      ensures state == Cancelled
      ensures history == old(history) + Effect(CancelOp, old(state)).value
    {
      MoveTo(Cancelled);
    }

    /** `postpone`: only from `Verified`, through `Postponing` to `Postponed`. */
    method Postpone()
      requires Valid() && state == Verified
      modifies this
      ensures Valid() && addon == old(addon)
      ensures state == Postponed
      ensures history == old(history) + Effect(PostponeOp, old(state)).value
    {
      MoveTo(Postponing);
      MoveTo(Postponed);
    }

    /** `resume`: only from `Postponed`, through `Resuming` to `Resumed`; it does not chain into stage. */
    method Resume()
      requires Valid() && state == Postponed
      modifies this
      ensures Valid() && addon == old(addon)
      ensures state == Resumed
      ensures history == old(history) + Effect(ResumeOp, old(state)).value
    {
      MoveTo(Resuming);
      MoveTo(Resumed);
    }
  }

  /**
   * The unit test's scenario: a WebExtension manifest and a "profile" location make
   * an addon; a new install of it, downloaded once, ends `Installed` with the
   * addon's identity untouched.
   */
  method InstallAddonScenario() returns (final: InstallState, id: string, url: string)
    ensures final == Installed
    ensures id == "@test123" && url == "http://.../"
  {
    var manifest := NewManifest("@test123", "Test Addon", "0.1", WebExtension, "http://.../");
    var location := NewInstallLocation("profile", "c:\\Addons");
    var install := new Install(NewAddon(manifest, location));
    install.Download();
    final, id, url := install.state, install.addon.id, install.addon.installUrl;
  }

  /** After the scenario's download, a cancel ends in `Cancelled`, from which nothing is accepted. */
  method CancelAfterInstallScenario() returns (final: InstallState)
    ensures final == Cancelled
    ensures forall op :: Apply(op, final) == None
  {
    var location := NewInstallLocation("profile", "c:\\Addons");
    var manifest := NewManifest("@test123", "Test Addon", "0.1", WebExtension, "http://.../");
    var install := new Install(NewAddon(manifest, location));
    install.Download();
    install.Cancel();
    final := install.state;
    forall op {
      CancelledIsFinal(op);
    }
  }
}
