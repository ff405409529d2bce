/**
 * The install lifecycle: the 25 states an install can be in and, as a table,
 * what each public operation of an install does to its state.
 */
module InstallStates {
  import opened Wrappers

  /** The states of an install, in the order the enum declares them. */
  datatype InstallState =
    | Available
    | Downloading | Downloaded | DownloadFailed
    | Verifying | Verified | VerifyFailed
    | Postponing | Postponed | PostponedFailed
    | Resumed | Resuming | ResumeFailed
    | Staging | Staged | StagingFailed
    | Installing | Installed | InstallFailed
    | Cancelling | Cancelled | CancelFailed
    | Uninstalling | Uninstalled | UninstallFailed

  /** The public operations of an install. */
  datatype Operation = DownloadOp | VerifyOp | StageOp | InstallOp | CancelOp | PostponeOp | ResumeOp

  /** The states `cancel` accepts, grouped as its match arms group them. */
  predicate Cancellable(s: InstallState) {
    match s
    case Downloading | Downloaded => true
    case Verifying | Verified => true
    case Postponing | Postponed => true
    case Resuming | Resumed => true
    case Staging | Staged => true
    case Installing | Installed => true
    case _ => false
  }

  /** The failure states. */
  predicate IsFailed(s: InstallState) {
    s.DownloadFailed? || s.VerifyFailed? || s.PostponedFailed? || s.ResumeFailed? ||
    s.StagingFailed? || s.InstallFailed? || s.CancelFailed? || s.UninstallFailed?
  }

  /**
   * The states the lifecycle names but no operation ever enters: the failures,
   * `Cancelling` and the uninstall states (the initial `Available` is set only at creation).
   */
  predicate NeverEntered(s: InstallState) {
    IsFailed(s) || s.Available? || s.Cancelling? || s.Uninstalling? || s.Uninstalled?
  }

  /** Chained steps run after their own assignments, so they rank below the caller. */
  function ChainDepth(op: Operation): nat {
    match op
    case DownloadOp => 3
    case VerifyOp => 2
    case StageOp => 1
    case _ => 0
  }

  /** `prefix` followed by what a chained step assigns, or a panic if that step panics. */
  function Then(prefix: seq<InstallState>, rest: Option<seq<InstallState>>): (r: Option<seq<InstallState>>) {
    match rest
    case None => None
    case Some(t) => Some(prefix + t)
  }

  /**
   * The states `op` assigns to an install in state `s`, in order; `None` when it
   * panics with "Invalid state transition". Download, verify and stage each make two
   * assignments and then call the next step; install, postpone and resume make two;
   * cancel makes one.
   */
  function Effect(op: Operation, s: InstallState): (r: Option<seq<InstallState>>)
    decreases ChainDepth(op)
    ensures r.Some? ==> r.value != []
    ensures r.Some? ==> forall i :: 0 <= i < |r.value| ==> !NeverEntered(r.value[i])
  {
    match op
    case DownloadOp =>
      if s == Available then Then([Downloading, Downloaded], Effect(VerifyOp, Downloaded)) else None
    case VerifyOp =>
      if s == Downloaded then Then([Verifying, Verified], Effect(StageOp, Verified)) else None
    case StageOp =>
      if s == Verified then Then([Staging, Staged], Effect(InstallOp, Staged)) else None
    case InstallOp =>
      if s == Staged then Some([Installing, Installed]) else None
    case CancelOp =>
      if Cancellable(s) then Some([Cancelled]) else None
    case PostponeOp =>
      if s == Verified then Some([Postponing, Postponed]) else None
    case ResumeOp =>
      if s == Postponed then Some([Resuming, Resumed]) else None
  }

  function Last(t: seq<InstallState>): (last: InstallState)
    requires t != []
  {
    t[|t| - 1]
  }

  /** The state `op` leaves an install in, or `None` when it panics. */
  function Apply(op: Operation, s: InstallState): (r: Option<InstallState>) {
    match Effect(op, s)
    case None => None
    case Some(t) => Some(Last(t))
  }

  /** The state a sequence of completed calls ends in, or `None` if one of them panics. */
  function Run(ops: seq<Operation>, s: InstallState): (r: Option<InstallState>) {
    if ops == [] then Some(s)
    else
      match Apply(ops[0], s)
      case None => None
      case Some(next) => Run(ops[1..], next)
  }

  /** Every state a sequence of calls assigns, in order, or `None` if one of them panics. */
  function History(ops: seq<Operation>, s: InstallState): (r: Option<seq<InstallState>>) {
    if ops == [] then Some([])
    else
      match Effect(ops[0], s)
      case None => None
      case Some(t) => Then(t, History(ops[1..], Last(t)))
  }

  // ---------------------------------------------------------------------------
  // The transition table as a reference: the one state each operation accepts
  // and the state it finally leaves behind.

  function SourceStates(op: Operation): (sources: set<InstallState>) {
    match op
    case DownloadOp => {Available}
    case VerifyOp => {Downloaded}
    case StageOp => {Verified}
    case InstallOp => {Staged}
    case PostponeOp => {Verified}
    case ResumeOp => {Postponed}
    case CancelOp =>
      {Downloading, Downloaded, Verifying, Verified, Postponing, Postponed,
       Resuming, Resumed, Staging, Staged, Installing, Installed}
  }

  function TargetState(op: Operation): (target: InstallState) {
    match op
    case DownloadOp | VerifyOp | StageOp | InstallOp => Installed
    case PostponeOp => Postponed
    case ResumeOp => Resumed
    case CancelOp => Cancelled
  }

  /**
   * The chained steps, from the end of the chain back: each passes through its own
   * two states and then through everything the step it calls assigns. A download
   * from `Available` thus passes through every step of the pipeline in order.
   */
  lemma ChainedSteps()
    ensures Effect(InstallOp, Staged) == Some([Installing, Installed])
    ensures Effect(StageOp, Verified) == Some([Staging, Staged, Installing, Installed])
    ensures Effect(VerifyOp, Downloaded) == Some([Verifying, Verified, Staging, Staged, Installing, Installed])
    ensures Effect(DownloadOp, Available)
         == Some([Downloading, Downloaded, Verifying, Verified, Staging, Staged, Installing, Installed])
  {
    var install := [Installing, Installed];
    assert Effect(InstallOp, Staged) == Some(install);
    var stage := [Staging, Staged] + install;
    assert stage == [Staging, Staged, Installing, Installed];
    assert Effect(StageOp, Verified) == Some(stage);
    var verify := [Verifying, Verified] + stage;
    assert verify == [Verifying, Verified, Staging, Staged, Installing, Installed];
    assert Effect(VerifyOp, Downloaded) == Some(verify);
    var download := [Downloading, Downloaded] + verify;
    assert download == [Downloading, Downloaded, Verifying, Verified, Staging, Staged, Installing, Installed];
    assert Effect(DownloadOp, Available) == Some(download);
  }

  /**
   * Each operation panics exactly outside its source states; from a source state it
   * ends in its target state. So the chained steps all end in `Installed`, and
   * `resume` stops at `Resumed` without going on to stage.
   */
  lemma ApplyMatchesTable(op: Operation, s: InstallState)
    ensures Apply(op, s) == if s in SourceStates(op) then Some(TargetState(op)) else None
  {
    match op
    case DownloadOp | VerifyOp | StageOp => ChainedSteps();
    case CancelOp =>
      assert Cancellable(s) <==> s in SourceStates(CancelOp);
    case _ =>
  }



  /** Postpone and resume each pass through their transient state and stop. */
  lemma PostponeAndResumeStop()
    ensures Effect(PostponeOp, Verified) == Some([Postponing, Postponed])
    ensures Effect(ResumeOp, Postponed) == Some([Resuming, Resumed])
  {
  }

  /**
   * The transitions the enum's states and the TODO comments name: each step, its
   * `*Failed` state, the postpone/resume detour from `Verified`, and cancel from
   * the twelve states it accepts.
   */
  predicate NamedTransition(a: InstallState, b: InstallState) {
    || (a == Available && b == Downloading)
    || (a == Downloading && (b == Downloaded || b == DownloadFailed))
    || (a == Downloaded && b == Verifying)
    || (a == Verifying && (b == Verified || b == VerifyFailed))
    || (a == Verified && (b == Staging || b == Postponing))
    || (a == Staging && (b == Staged || b == StagingFailed))
    || (a == Staged && b == Installing)
    || (a == Installing && (b == Installed || b == InstallFailed))
    || (a == Postponing && b == Postponed)
    || (a == Postponed && b == Resuming)
    || (a == Resuming && b == Resumed)
    || (Cancellable(a) && b == Cancelled)
  }

  /** Every assignment an operation makes is one of the named transitions. */
  lemma EffectFollowsNamedTransitions(op: Operation, s: InstallState)
    requires Effect(op, s).Some?
    ensures NamedTransition(s, Effect(op, s).value[0])
    ensures forall i :: 0 <= i < |Effect(op, s).value| - 1 ==>
              NamedTransition(Effect(op, s).value[i], Effect(op, s).value[i + 1])
  {
    ChainedSteps();
  }


  /** `Installed` accepts only `cancel`. */
  lemma InstalledOnlyCancels(op: Operation)
    ensures Apply(op, Installed).Some? <==> op == CancelOp
  {
    ApplyMatchesTable(op, Installed);
  }

  /**
   * `Resumed` accepts only `cancel`: resume does not chain into stage, and stage
   * accepts only `Verified`, so a resumed install can never be staged.
   */
  lemma ResumedOnlyCancels(op: Operation)
    ensures Apply(op, Resumed).Some? <==> op == CancelOp
  {
    ApplyMatchesTable(op, Resumed);
  }

  /** `Cancelled` accepts nothing, so a second cancel is an invalid transition. */
  lemma CancelledIsFinal(op: Operation)
    ensures Apply(op, Cancelled) == None
  {
    ApplyMatchesTable(op, Cancelled);
  }

  lemma {:induction false} RunFromCancelled(ops: seq<Operation>)
    ensures Run(ops, Cancelled) == if ops == [] then Some(Cancelled) else None
  {
    if ops != [] {
      CancelledIsFinal(ops[0]);
    }
  }

  /**
   * From a new install, whose state is `Available`, the only sequences of calls
   * that all complete are: none, one download, and a download followed by a cancel.
   */
  lemma {:induction false} CompletedCallsFromNew(ops: seq<Operation>)
    ensures Run(ops, Available) ==
      if ops == [] then Some(Available)
      else if ops == [DownloadOp] then Some(Installed)
      else if ops == [DownloadOp, CancelOp] then Some(Cancelled)
      else None
  {
    if ops != [] {
      ApplyMatchesTable(ops[0], Available);
      if ops[0] == DownloadOp {
        var rest := ops[1..];
        if rest != [] {
          ApplyMatchesTable(rest[0], Installed);
          if rest[0] == CancelOp {
            RunFromCancelled(rest[1..]);
            assert ops == [DownloadOp, CancelOp] + rest[1..];
          }
        }
      }
    }
  }

  /**
   * Because no chain rests at `Verified`, the only states a new install can be
   * left in by calls that complete are `Available`, `Installed` and `Cancelled`;
   * in particular `postpone` and `resume` can never be called successfully on it.
   */
  lemma ReachableStates(ops: seq<Operation>)
    requires Run(ops, Available).Some?
    ensures Run(ops, Available).value in {Available, Installed, Cancelled}
  {
    CompletedCallsFromNew(ops);
  }

  /** No sequence of calls ever enters a failure, `Cancelling` or uninstall state. */
  lemma {:induction false} HistoryNeverEntersUnused(ops: seq<Operation>, s: InstallState)
    requires History(ops, s).Some?
    ensures forall i :: 0 <= i < |History(ops, s).value| ==> !NeverEntered(History(ops, s).value[i])
  {
    if ops != [] {
      var t := Effect(ops[0], s).value;
      HistoryNeverEntersUnused(ops[1..], Last(t));
      var h := History(ops[1..], Last(t)).value;
      assert History(ops, s).value == t + h;
      forall i | 0 <= i < |t + h|
        ensures !NeverEntered((t + h)[i])
      {
        if i >= |t| {
          assert (t + h)[i] == h[i - |t|];
        }
      }
    }
  }

  /** A sequence of calls completes exactly when it has a history, and ends in its last state. */
  lemma {:induction false} HistoryEndsInRun(ops: seq<Operation>, s: InstallState)
    ensures History(ops, s).Some? <==> Run(ops, s).Some?
    ensures History(ops, s).Some? ==>
              Run(ops, s).value == if ops == [] then s else Last(History(ops, s).value)
  {
    if ops != [] {
      match Effect(ops[0], s)
      case None =>
      case Some(t) =>
        HistoryEndsInRun(ops[1..], Last(t));
    }
  }
}
