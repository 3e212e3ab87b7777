/** An agent acts only on what the management side said, however late the reply arrives: what holds for every reply
    on its way, for every reply in a log, and so for what the agent did. */
module ManagementReplies {
  import opened Common
  import opened Objects
  import opened ElementalApi
  import opened AgentProtocol
  import opened Management
  import opened ManagementSafety
  import opened ManagementRuns

  /** What a reply said about its host is still so. */
  ghost predicate ReplyStands(s: State, hk: Key, r: HostResponse) {
    && hk in s.used
    && (r.bootstrapReady ==> hk in s.owner)
    && (r.needsReset ==> MarkedOrGone(s, hk))
    && (r.installed ==> Sent(Log(s, hk), PatchInstalled))
    && (r.bootstrapped ==> Sent(Log(s, hk), PatchBootstrapped))
  }

  predicate IsReply(e: Event) {
    e.op.PatchRunning? && e.ok
  }

  ghost predicate LogStands(s: State, hk: Key) {
    forall p :: 0 <= p < |Log(s, hk)| && IsReply(Log(s, hk)[p]) ==> ReplyStands(s, hk, Log(s, hk)[p].op.reply)
  }

  ghost predicate RepliesOk(s: State) {
    && (forall a :: a in s.answers ==> ReplyStands(s, a.hk, a.response))
    && (forall hk :: LogStands(s, hk))
  }

  lemma SentStands(before: seq<Event>, after: seq<Event>, op: Op)
    requires before <= after && Sent(before, op)
    ensures Sent(after, op)
  {
    var p :| 0 <= p < |before| && before[p].op == op;
    assert after[p] == before[p];
  }

  lemma ReplyGoesOnStanding(s: State, s': State, hk: Key, r: HostResponse)
    requires Advances(s, s') && ReplyStands(s, hk, r)
    ensures ReplyStands(s', hk, r)
  {
    assert Log(s, hk) <= Log(s', hk);
    if r.needsReset {
      MarkStands(s, s', hk);
    }
    if r.installed {
      SentStands(Log(s, hk), Log(s', hk), PatchInstalled);
    }
    if r.bootstrapped {
      SentStands(Log(s, hk), Log(s', hk), PatchBootstrapped);
    }
  }

  /** A handler says the truth when it answers. */
  lemma FreshReplyStands(s: State, hk: Key)
    requires Inv(s) && hk in s.hosts
    ensures ReplyStands(s, hk, FromElementalHost(s.hosts[hk]))
  {
    assert HostOk(s, hk, s.hosts[hk]);
  }

  lemma AnswersGoOn(s: State, a: Action)
    requires Inv(s) && RepliesOk(s) && Enabled(s, a) && Advances(s, Do(s, a))
    ensures forall answer :: answer in Do(s, a).answers ==> ReplyStands(Do(s, a), answer.hk, answer.response)
  {
    var s' := Do(s, a);
    forall answer | answer in s'.answers ensures ReplyStands(s', answer.hk, answer.response) {
      if answer !in s.answers {
        NewAnswers(s, a, answer);
        FreshReplyStands(s, answer.hk);
      }
      ReplyGoesOnStanding(s, s', answer.hk, answer.response);
    }
  }

  lemma NewAnswers(s: State, a: Action, answer: Answer)
    requires Enabled(s, a) && answer in Do(s, a).answers && answer !in s.answers
    ensures answer.hk in s.hosts && answer.response == FromElementalHost(s.hosts[answer.hk])
  {
  }

  lemma NewEvents(s: State, a: Action, hk: Key)
    requires Enabled(s, a)
    ensures var log, log' := Log(s, hk), Log(Do(s, a), hk);
            || log' == log
            || (a.AgentCalls? && log' == log + [a.e] && (IsReply(a.e) ==> Answer(hk, a.e.op.reply) in s.answers))
  {
  }

  lemma LogGoesOn(s: State, a: Action, hk: Key)
    requires RepliesOk(s) && Enabled(s, a) && Advances(s, Do(s, a))
    ensures LogStands(Do(s, a), hk)
  {
    var s' := Do(s, a);
    var log, log' := Log(s, hk), Log(s', hk);
    NewEvents(s, a, hk);
    forall p | 0 <= p < |log'| && IsReply(log'[p]) ensures ReplyStands(s', hk, log'[p].op.reply) {
      var r := log'[p].op.reply;
      if p < |log| {
        assert LogStands(s, hk) && log'[p] == log[p];
      } else {
        assert Answer(hk, r) in s.answers;
      }
      ReplyGoesOnStanding(s, s', hk, r);
    }
  }

  lemma StepKeepsReplies(s: State, a: Action)
    requires Inv(s) && RepliesOk(s) && Enabled(s, a)
    ensures RepliesOk(Do(s, a))
  {
    StepAdvances(s, a);
    AnswersGoOn(s, a);
    forall hk ensures LogStands(Do(s, a), hk) {
      LogGoesOn(s, a, hk);
    }
  }

  lemma {:induction false} RunKeepsReplies(states: seq<State>, actions: seq<Action>, n: nat)
    requires Run(states, actions) && n < |states|
    ensures RepliesOk(states[n])
  {
    if n == 0 {
      assert states[0] == EMPTY;
    } else {
      RunKeepsReplies(states, actions, n - 1);
      RunKeepsInv(states, actions, n - 1);
      RunStep(states, actions, n - 1);
      StepKeepsReplies(states[n - 1], actions[n - 1]);
    }
  }

  lemma ReachableReplies(s: State)
    requires Reachable(s)
    ensures RepliesOk(s)
  {
    var states, actions, n: nat :| Run(states, actions) && n < |states| && states[n] == s;
    RunKeepsReplies(states, actions, n);
  }

  // ---- In every reachable state ----

  /** The reply that an iteration of an agent works on still stands. */
  lemma RoundsActOnReplies(s: State, hk: Key, p: nat, r: HostResponse)
    requires Reachable(s) && p <= |Log(s, hk)| && InRound(Log(s, hk)[..p], r)
    ensures ReplyStands(s, hk, r)
  {
    ReachableReplies(s);
    var log := Log(s, hk);
    var i :| RoundStart(log[..p], i, r);
    assert LogStands(s, hk) && IsReply(log[i]) && log[i] == Event(PatchRunning(r), true);
  }

  /** A bootstrap configuration is applied only on a host that was linked to a machine; if the host is still there, it
      is linked to that machine and has its secret. */
  lemma BootstrapOnLinkedHostsOnly(s: State, hk: Key, p: nat)
    requires Reachable(s) && p < |Log(s, hk)| && Log(s, hk)[p].op.PluginBootstrap?
    ensures hk in s.owner
    ensures hk in s.hosts ==> s.hosts[hk].machineRef == Some(s.owner[hk]) && s.hosts[hk].bootstrapSecret.Some?
  {
    var log := Log(s, hk);
    ReachableIsOk(s);
    BootstrapHasARound(log, p);
    var r :| NeedsBootstrap(r) && InRound(log[..p], r);
    RoundsActOnReplies(s, hk, p, r);
    if hk in s.hosts {
      assert HostOk(s, hk, s.hosts[hk]);
    }
  }

  lemma BootstrapHasARound(log: seq<Event>, p: nat)
    requires LogOk(log) && p < |log| && log[p].op.PluginBootstrap?
    ensures exists r :: NeedsBootstrap(r) && InRound(log[..p], r)
  {
    BootstrapFollowsOsVersion(log, p);
    var i, j, r :| && RoundStart(log[..p], i, r) && NeedsBootstrap(r)
                   && 0 <= i < j < p && OsVersionSettled(log[j], r.osVersion) && OsVersionInPlace(log, j);
    assert InRound(log[..p], r);
  }

  /** A reset is triggered only on a host that the management side wants reset, and it never takes that back. */
  lemma ResetTriggeredOnDemandOnly(s: State, hk: Key, p: nat)
    requires Reachable(s) && p < |Log(s, hk)| && Log(s, hk)[p].op.TriggerReset?
    ensures MarkedOrGone(s, hk)
  {
    var log := Log(s, hk);
    ReachableIsOk(s);
    Justified(log, p);
    var r :| InRound(log[..p], r) && r.needsReset;
    RoundsActOnReplies(s, hk, p, r);
  }
}
