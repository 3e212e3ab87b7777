/** The retry loops of internal/agent/phase/reset.go and install.go, seen from outside: which sequences of calls they
    may make, and what a finished loop has achieved. */
module RetryLoops {
  import opened Common
  import opened Objects
  import opened AgentProtocol

  /** Retry until every one-time step succeeded, in order, and then the final report did. */
  datatype Retry = ResetRetry | InstallRetry

  /** The position of a one-time step. */
  function StepOf(loop: Retry, op: Op): Option<nat> {
    match loop
    case ResetRetry => if op.PluginReset? then Some(0) else None
    case InstallRetry => if op.InstallCloudInit? then Some(0) else if op.Install? then Some(1) else None
  }

  function Steps(loop: Retry): nat {
    if loop.ResetRetry? then 1 else 2
  }

  function FinalReport(loop: Retry): Op {
    if loop.ResetRetry? then PatchReset else PatchInstalled
  }

  /** The calls a loop makes, besides reporting failures. */
  predicate Belongs(loop: Retry, op: Op) {
    match loop
    case ResetRetry => op == DeleteHost || op.GetRegistration? || op == Marshal(ResetDocument) || op.PluginReset?
      || op == PatchReset
    case InstallRetry => InstallStep(op)
  }

  predicate IsReport(e: Event) {
    e.op.ReportCondition?
  }

  /** The condition report owed for a failed call. */
  function FailureReport(loop: Retry, op: Op): Op {
    match loop
    case ResetRetry => ReportCondition(ResetReady, false, ResetFailed)
    case InstallRetry =>
      ReportCondition(InstallationReady, false, InstallFailure(op))
  }

  /** How far a loop is: the failed call still to be reported, and the number of one-time steps done. */
  datatype Progress = Going(failed: Option<Op>, done: nat) | Over | Astray

  function After(loop: Retry, p: Progress, e: Event): Progress {
    if !p.Going? then Astray
    else if p.failed.Some? then if e.op == FailureReport(loop, p.failed.value) then Going(None, p.done) else Astray
    else if !Belongs(loop, e.op) then Astray
    else if StepOf(loop, e.op).Some? && StepOf(loop, e.op).value != p.done then Astray
    else if !e.ok then Going(Some(e.op), p.done)
    else if StepOf(loop, e.op).Some? then Going(None, p.done + 1)
    else if e.op != FinalReport(loop) then p
    else if p.done == Steps(loop) then Over
    else Astray
  }

  /** The progress of a loop that began with call n. */
  function ProgressOf(loop: Retry, log: seq<Event>, n: nat): Progress {
    if |log| <= n then Going(None, 0)
    else After(loop, ProgressOf(loop, log[..|log| - 1], n), log[|log| - 1])
  }

  lemma Advances(loop: Retry, log: seq<Event>, n: nat, e: Event)
    requires n <= |log|
    ensures ProgressOf(loop, log + [e], n) == After(loop, ProgressOf(loop, log, n), e)
  {
    assert (log + [e])[..|log|] == log;
  }

  /** Since call n, call k is the only successful one of its step, which is never tried again. */
  predicate Once(loop: Retry, log: seq<Event>, n: nat, step: nat, k: nat) {
    && n <= k < |log| && log[k].ok && StepOf(loop, log[k].op) == Some(step)
    && forall q :: n <= q < |log| && q != k && StepOf(loop, log[q].op) == Some(step) ==> q < k && !log[q].ok
  }

  /** Call q is no step that was tried before its turn, or succeeded without being one of these. */
  predicate InTurn(loop: Retry, e: Event, q: nat, at: seq<nat>) {
    var s := StepOf(loop, e.op);
    s.Some? ==> s.value <= |at| && (s.value == |at| ==> !e.ok) && (s.value > 0 ==> at[s.value - 1] < q)
  }

  /** Since call n, the steps were done at these calls, once each and in order. */
  predicate StepsDone(loop: Retry, log: seq<Event>, n: nat, at: seq<nat>) {
    && (forall s :: 0 <= s < |at| ==> Once(loop, log, n, s, at[s]))
    && (forall q :: n <= q < |log| ==> InTurn(loop, log[q], q, at))
  }

  predicate CallFailed(e: Event) {
    !e.ok && !IsReport(e)
  }

  /** Each failed call among n..m is followed by its report, and nothing else is reported. */
  predicate FailuresReported(loop: Retry, log: seq<Event>, n: nat, m: int) {
    && (forall q {:trigger CallFailed(log[q])} :: n <= q < m && q < |log| && CallFailed(log[q]) ==>
          q + 1 < |log| && log[q + 1].op == FailureReport(loop, log[q].op))
    && (forall q {:trigger IsReport(log[q])} :: n <= q < |log| && IsReport(log[q]) ==> n < q && CallFailed(log[q - 1]))
  }

  /** The success is reported with the last of m calls, if at all. */
  predicate NotReportedYet(loop: Retry, log: seq<Event>, n: nat, m: int) {
    forall q :: n <= q < m && q < |log| ==> log[q] != Event(FinalReport(loop), true)
  }

  predicate OwnCalls(loop: Retry, log: seq<Event>, n: nat) {
    forall q :: n <= q < |log| ==> Belongs(loop, log[q].op) || IsReport(log[q])
  }

  /** What a whole loop leaves behind: every step done once and in order, one successful report of it as the last
      call, and exactly the failures on the way reported, each with its reason. */
  ghost predicate RetrySession(loop: Retry, log: seq<Event>, n: nat) {
    && (exists at: seq<nat> :: |at| == Steps(loop) && StepsDone(loop, log, n, at))
    && |log| > n && Last(log, Event(FinalReport(loop), true))
    && NotReportedYet(loop, log, n, |log| - 1)
    && FailuresReported(loop, log, n, |log|)
    && OwnCalls(loop, log, n)
  }

  ghost predicate GoingMeans(loop: Retry, log: seq<Event>, n: nat, p: Progress)
    requires p.Going?
  {
    && (p.failed.Some? ==>
          && |log| > n && CallFailed(log[|log| - 1]) && log[|log| - 1].op == p.failed.value
          && Belongs(loop, p.failed.value))
    && OwnCalls(loop, log, n)
    && (exists at: seq<nat> :: |at| == p.done && StepsDone(loop, log, n, at))
    && NotReportedYet(loop, log, n, |log|)
    && FailuresReported(loop, log, n, if p.failed.Some? then |log| - 1 else |log|)
  }

  lemma OnceStays(loop: Retry, log: seq<Event>, n: nat, step: nat, k: nat, e: Event)
    requires n <= |log| && Once(loop, log, n, step, k) && StepOf(loop, e.op) != Some(step)
    ensures Once(loop, log + [e], n, step, k)
  {
  }

  lemma StepsStay(loop: Retry, log: seq<Event>, n: nat, at: seq<nat>, e: Event)
    requires n <= |log| && StepsDone(loop, log, n, at)
    requires StepOf(loop, e.op).Some? ==> StepOf(loop, e.op).value == |at|
    ensures StepsDone(loop, log + [e], n, if StepOf(loop, e.op).Some? && e.ok then at + [|log|] else at)
  {
    var longer := log + [e];
    var at' := if StepOf(loop, e.op).Some? && e.ok then at + [|log|] else at;
    forall s | 0 <= s < |at| ensures Once(loop, longer, n, s, at'[s]) {
      OnceStays(loop, log, n, s, at[s], e);
    }
    forall q | n <= q < |log| ensures InTurn(loop, log[q], q, at')
      && (StepOf(loop, log[q].op) == Some(|at|) ==> !log[q].ok) {
      assert InTurn(loop, log[q], q, at);
    }
    forall q | n <= q < |longer| ensures InTurn(loop, longer[q], q, at') {
      if q == |log| {
        forall s | 0 <= s < |at| ensures at[s] < |log| {
          assert Once(loop, log, n, s, at[s]);
        }
      }
    }
    if |at'| > |at| {
      assert Once(loop, longer, n, |at|, at'[|at|]);
    }
  }

  lemma FailuresStay(loop: Retry, log: seq<Event>, n: nat, p: Progress, e: Event)
    requires n <= |log| && p.Going? && After(loop, p, e) != Astray
    requires p.failed.Some? ==> |log| > n && CallFailed(log[|log| - 1]) && log[|log| - 1].op == p.failed.value
    requires FailuresReported(loop, log, n, if p.failed.Some? then |log| - 1 else |log|)
    ensures FailuresReported(loop, log + [e], n, if CallFailed(e) then |log| else |log| + 1)
  {
    var longer := log + [e];
    forall q | n <= q < |log| && CallFailed(longer[q]) ensures longer[q + 1].op == FailureReport(loop, longer[q].op) {
      assert CallFailed(log[q]);
    }
    forall q | n <= q < |longer| && IsReport(longer[q]) ensures n < q && CallFailed(longer[q - 1]) {
      if q < |log| {
        assert IsReport(log[q]);
      }
    }
  }

  lemma OthersStay(loop: Retry, log: seq<Event>, n: nat, e: Event)
    requires n <= |log| && OwnCalls(loop, log, n) && NotReportedYet(loop, log, n, |log|)
             && (Belongs(loop, e.op) || IsReport(e))
    ensures OwnCalls(loop, log + [e], n) && NotReportedYet(loop, log + [e], n, |log|)
    ensures e != Event(FinalReport(loop), true) ==> NotReportedYet(loop, log + [e], n, |log| + 1)
  {
  }

  lemma StepOfProgress(loop: Retry, p: Progress, e: Event)
    requires p.Going? && After(loop, p, e) != Astray
    ensures StepOf(loop, e.op).Some? ==> StepOf(loop, e.op).value == p.done
    ensures Belongs(loop, e.op) || IsReport(e)
    ensures var p' := After(loop, p, e);
            if p'.Over? then e == Event(FinalReport(loop), true) && p.done == Steps(loop) && StepOf(loop, e.op).None?
            else && e != Event(FinalReport(loop), true)
                 && p'.done == (if StepOf(loop, e.op).Some? && e.ok then p.done + 1 else p.done)
                 && p'.failed == (if CallFailed(e) then Some(e.op) else None)
                 && (p'.failed.Some? ==> Belongs(loop, e.op))
  {
  }

  lemma MeaningStays(loop: Retry, log: seq<Event>, n: nat, p: Progress, e: Event)
    requires n <= |log| && p.Going? && GoingMeans(loop, log, n, p)
    ensures var p' := After(loop, p, e);
            (p'.Going? ==> GoingMeans(loop, log + [e], n, p')) && (p'.Over? ==> RetrySession(loop, log + [e], n))
  {
    var p' := After(loop, p, e);
    if p' != Astray {
      StepOfProgress(loop, p, e);
      OthersStay(loop, log, n, e);
      FailuresStay(loop, log, n, p, e);
      var at: seq<nat> :| |at| == p.done && StepsDone(loop, log, n, at);
      StepsStay(loop, log, n, at, e);
      var at' := if StepOf(loop, e.op).Some? && e.ok then at + [|log|] else at;
      assert StepsDone(loop, log + [e], n, at');
    }
  }

  /** The meaning of the progress of a loop. */
  lemma {:induction false} ProgressMeans(loop: Retry, log: seq<Event>, n: nat)
    requires n <= |log|
    ensures var p := ProgressOf(loop, log, n);
            (p.Going? ==> GoingMeans(loop, log, n, p)) && (p.Over? ==> RetrySession(loop, log, n))
  {
    if |log| == n {
      assert StepsDone(loop, log, n, []);
    } else {
      var shorter := log[..|log| - 1];
      var p := ProgressOf(loop, shorter, n);
      ProgressMeans(loop, shorter, n);
      if p.Going? {
        MeaningStays(loop, shorter, n, p, log[|log| - 1]);
        assert shorter + [log[|log| - 1]] == log;
      }
    }
  }

  // ---- The two loops ----

  /** A finished reset reset the system successfully exactly once, never tried it again, and reported it once, last;
      exactly the failures on the way were reported, as a failed reset. */
  lemma ResetSessionMeans(log: seq<Event>, n: nat)
    requires RetrySession(ResetRetry, log, n)
    ensures exists k ::
              && n <= k < |log| - 1 && IsReset(log[k])
              && (forall q :: n <= q < |log| && q != k && log[q].op.PluginReset? ==> q < k && !log[q].ok)
    ensures |log| > n && log[|log| - 1] == Event(PatchReset, true)
    ensures forall q :: n <= q < |log| - 1 ==> log[q] != Event(PatchReset, true)
    ensures forall q :: n <= q < |log| && !log[q].ok && !log[q].op.ReportCondition? ==>
              q + 1 < |log| && log[q + 1].op == ReportCondition(ResetReady, false, ResetFailed)
    ensures forall q :: n <= q < |log| && log[q].op.ReportCondition? ==>
              n < q && !log[q - 1].ok && !log[q - 1].op.ReportCondition?
  {
    var at: seq<nat> :| |at| == 1 && StepsDone(ResetRetry, log, n, at);
    assert Once(ResetRetry, log, n, 0, at[0]);
    assert IsReset(log[at[0]]);
    ReportsMean(ResetRetry, log, n);
  }

  lemma ReportsMean(loop: Retry, log: seq<Event>, n: nat)
    requires FailuresReported(loop, log, n, |log|)
    ensures forall q :: n <= q < |log| && !log[q].ok && !log[q].op.ReportCondition? ==>
              q + 1 < |log| && log[q + 1].op == FailureReport(loop, log[q].op)
    ensures forall q :: n <= q < |log| && log[q].op.ReportCondition? ==>
              n < q && !log[q - 1].ok && !log[q - 1].op.ReportCondition?
  {
    forall q | n <= q < |log| && !log[q].ok && !log[q].op.ReportCondition?
      ensures q + 1 < |log| && log[q + 1].op == FailureReport(loop, log[q].op)
    {
      assert CallFailed(log[q]);
    }
    forall q | n <= q < |log| && log[q].op.ReportCondition?
      ensures n < q && !log[q - 1].ok && !log[q - 1].op.ReportCondition?
    {
      assert IsReport(log[q]) && CallFailed(log[q - 1]);
    }
  }

  /** A finished installation applied the cloud-config successfully exactly once and then installed the system
      successfully exactly once, and reported it once, last. */
  lemma InstallSessionMeans(log: seq<Event>, n: nat)
    requires RetrySession(InstallRetry, log, n)
    ensures exists i, j ::
              && n <= i < j < |log| - 1 && CloudConfigured(log[i]) && log[j].op.Install? && log[j].ok
              && (forall q :: n <= q < |log| && q != i && log[q].op.InstallCloudInit? ==> q < i && !log[q].ok)
              && (forall q :: n <= q < |log| && q != j && log[q].op.Install? ==> i < q < j && !log[q].ok)
    ensures |log| > n && log[|log| - 1] == Event(PatchInstalled, true)
    ensures forall q :: n <= q < |log| - 1 ==> log[q] != Event(PatchInstalled, true)
  {
    var at: seq<nat> :| |at| == 2 && StepsDone(InstallRetry, log, n, at);
    var i, j := at[0], at[1];
    assert Once(InstallRetry, log, n, 0, i) && Once(InstallRetry, log, n, 1, j);
    assert InTurn(InstallRetry, log[j], j, at);
    forall q | n <= q < |log| && q != j && log[q].op.Install? ensures i < q < j && !log[q].ok {
      assert InTurn(InstallRetry, log[q], q, at);
    }
    assert CloudConfigured(log[i]) && log[j].op.Install?;
  }

  /** Exactly the failures on the way of an installation were reported: those of the cloud-config as such, all others as
      a failed installation. */
  lemma InstallFailuresMean(log: seq<Event>, n: nat)
    requires RetrySession(InstallRetry, log, n)
    ensures forall q :: n <= q < |log| && !log[q].ok && !log[q].op.ReportCondition? ==>
              q + 1 < |log| && log[q + 1].op ==
                ReportCondition(InstallationReady, false,
                                if log[q].op.InstallCloudInit? || log[q].op == Marshal(CloudConfigDocument)
                                then CloudConfigInstallationFailed else InstallationFailed)
    ensures forall q :: n <= q < |log| && log[q].op.ReportCondition? ==>
              n < q && !log[q - 1].ok && !log[q - 1].op.ReportCondition?
  {
    ReportsMean(InstallRetry, log, n);
  }
}
