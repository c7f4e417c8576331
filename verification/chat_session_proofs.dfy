/** What the session controller guarantees, and what it does not, stated as
    lemmas over single events and over arbitrary event sequences. */
module ChatSessionProofs {
  import opened Options
  import opened ChannelKey
  import opened ChatSession
  import opened Text

  /** A channel created by the page: "messaging", two members, keyed by them. */
  predicate IsPairChannel(ch: Channel)
  {
    |ch.members| == 2 && ch == ChannelFor(ch.members[0], ch.members[1])
  }

  /** No toast among the side effects logged from position `from` on. */
  predicate OnlySdkFrom(log: seq<Effect>, from: nat)
  {
    forall k :: from <= k < |log| ==> log[k].Sdk?
  }

  /** The part of the invariant about the page rather than the attempt:
      - only the latest effect run can still be mounted, and none once unmounted;
      - a committed channel comes with the client and is a pair channel. */
  predicate PageValid(s: State)
  {
    && (s.mountedRun.Some? ==> s.mountedRun.value + 1 == s.runs)
    && (!s.alive ==> s.mountedRun.None?)
    && (s.channel.Some? ==> s.chatClient && IsPairChannel(s.channel.value))
    && (s.chatClient ==> s.channel.Some?)
  }

  /** The invariant every reachable state keeps: `PageValid`, and
      - the guard is set exactly while an attempt is in flight, so at most one is;
      - an attempt belongs to an effect run that has happened;
      - a pending `connectUser` was issued on a client holding no user, and the
        client stays empty until it resolves: the client never holds two users;
      - the channel being watched is the one for the attempt's two users. */
  predicate Valid(s: State)
  {
    && PageValid(s)
    && (s.guard <==> s.attempt.Some?)
    && (s.attempt.Some? ==> s.attempt.value.run < s.runs)
    && (s.attempt.Some? && s.attempt.value.phase.Connecting? ==> s.clientUser.None?)
    && (s.attempt.Some? && s.attempt.value.phase.Watching? ==>
          s.attempt.value.phase.channel == ChannelFor(s.attempt.value.me.id, s.attempt.value.target))
  }

  lemma InitValid(clientUser: Option<string>)
    ensures Valid(Init(clientUser))
  {
  }

  lemma StepPreservesValid(s: State, e: Event)
    requires Valid(s)
    ensures Valid(Step(s, e))
  {
    match e
    case Render(i) => RenderPreservesValid(s, i);
    case DisconnectDone => DisconnectDonePreservesValid(s);
    case ConnectDone => ConnectDonePreservesValid(s);
    case WatchDone => WatchDonePreservesValid(s);
    case StepFailed(m) => StepFailedPreservesValid(s, m);
    case Unmount => UnmountPreservesValid(s);
    case CleanupSettled(ok) => CleanupSettledPreservesValid(s, ok);
    case VideoCall(origin) => VideoCallPreservesValid(s, origin);
  }

  lemma RenderPreservesValid(s: State, i: Inputs)
    requires Valid(s)
    ensures Valid(OnRender(s, i))
  {
    if s.alive && s.deps != Some(DepsOf(i)) {
      var s1 := CleanupEffect(s).(runs := s.runs + 1, mountedRun := Some(s.runs), deps := Some(DepsOf(i)));
      assert PageValid(s1);
      InitChatPreservesValid(s1, i, s.runs);
    }
  }

  lemma DisconnectDonePreservesValid(s: State)
    requires Valid(s)
    ensures Valid(OnDisconnectDone(s))
  {
    if s.attempt.Some? && s.attempt.value.phase.Disconnecting? {
      ConnectOrReusePreservesValid(s.(clientUser := None), s.attempt.value);
    }
  }

  lemma ConnectDonePreservesValid(s: State)
    requires Valid(s)
    ensures Valid(OnConnectDone(s))
  {
    if s.attempt.Some? && s.attempt.value.phase.Connecting? {
      OpenChannelPreservesValid(s.(clientUser := Some(s.attempt.value.me.id)), s.attempt.value);
    }
  }

  lemma UnmountPreservesValid(s: State)
    requires Valid(s)
    ensures Valid(OnUnmount(s))
  {
  }

  lemma CleanupSettledPreservesValid(s: State, ok: bool)
    requires Valid(s)
    ensures Valid(OnCleanupSettled(s, ok))
  {
  }

  lemma VideoCallPreservesValid(s: State, origin: string)
    requires Valid(s)
    ensures Valid(if s.alive then HandleVideoCall(s, origin) else s)
  {
  }

  lemma WatchDonePreservesValid(s: State)
    requires Valid(s)
    ensures Valid(OnWatchDone(s))
  {
  }

  lemma StepFailedPreservesValid(s: State, message: string)
    requires Valid(s)
    ensures Valid(OnStepFailed(s, message))
  {
  }

  /** An attempt that is in flight (guard set) at a still-to-be-resumed await. */
  predicate ResumableAt(s: State, a: Attempt)
  {
    s.guard && a.run < s.runs && PageValid(s)
  }

  lemma OpenChannelPreservesValid(s: State, a: Attempt)
    requires ResumableAt(s, a)
    ensures Valid(OpenChannel(s, a))
  {
  }

  lemma ConnectOrReusePreservesValid(s: State, a: Attempt)
    requires ResumableAt(s, a)
    requires s.clientUser.None? || s.clientUser.value == a.me.id
    ensures Valid(ConnectOrReuse(s, a))
  {
    if !(s.clientUser.None? || s.clientUser.value != a.me.id) {
      OpenChannelPreservesValid(s, a);
    }
  }

  lemma InitChatPreservesValid(s: State, i: Inputs, run: nat)
    requires Valid(s) && run < s.runs
    ensures Valid(InitChat(s, i, run))
  {
    if HasAllInputs(i) && !s.guard {
      var a := Attempt(run, i.authUser.value, i.token.value, i.targetId.value, Connecting);
      if !(s.clientUser.Some? && s.clientUser.value != a.me.id) {
        ConnectOrReusePreservesValid(s.(guard := true), a);
      }
    }
  }

  /** The invariant holds after any sequence of events from a valid state. */
  lemma {:induction false} RunPreservesValid(s: State, es: seq<Event>)
    requires Valid(s)
    ensures Valid(Run(s, es))
    decreases |es|
  {
    if |es| > 0 {
      StepPreservesValid(s, es[0]);
      RunPreservesValid(Step(s, es[0]), es[1..]);
    }
  }

  /** Every state the page can reach from its first render is valid. */
  lemma ReachableValid(clientUser: Option<string>, es: seq<Event>)
    ensures Valid(Run(Init(clientUser), es))
  {
    InitValid(clientUser);
    RunPreservesValid(Init(clientUser), es);
  }

  /** Without a token, an auth user or a target, the effect makes no SDK
      call and leaves the guard and any in-flight attempt alone. */
  lemma MissingInputsMakeNoCall(s: State, i: Inputs)
    requires Valid(s)
    requires !HasAllInputs(i)
    ensures var t := Step(s, Render(i));
      && t.log == s.log && t.guard == s.guard && t.attempt == s.attempt
      && t.clientUser == s.clientUser
      && t.chatClient == s.chatClient && t.channel == s.channel && t.loading == s.loading
  {
  }

  /** While the guard is set a new trigger returns at once: no SDK call, the
      in-flight attempt is untouched, and, if the deps did change, that
      attempt's effect run has been cleaned up, so it will commit nothing. */
  lemma GuardDropsTrigger(s: State, i: Inputs)
    requires Valid(s)
    requires s.guard
    ensures var t := Step(s, Render(i));
      && t.log == s.log && t.guard && t.attempt == s.attempt && t.clientUser == s.clientUser
      && (t != s ==> !Mounted(t, s.attempt.value))
  {
  }

  /** Every way an attempt leaves `initChat` releases the guard: its watch
      resolving, any step rejecting, or the early return taken when a
      cleaned-up run's connect resolves. */
  lemma SettlingReleasesGuard(s: State, e: Event)
    requires Valid(s)
    requires s.attempt.Some?
    requires || e.StepFailed?
             || (e.WatchDone? && s.attempt.value.phase.Watching?)
             || (e.ConnectDone? && s.attempt.value.phase.Connecting? && !Mounted(s, s.attempt.value))
    ensures !Step(s, e).guard && Step(s, e).attempt.None?
  {
  }

  /** `connectUser` is only ever issued while the client holds no user, and the
      attempt then waits for exactly that connect. */
  lemma ConnectIssuedOnEmptyClient(s: State, e: Event)
    requires Valid(s)
    ensures var t := Step(s, e);
      forall k :: |s.log| <= k < |t.log| && t.log[k].Sdk? && t.log[k].call.ConnectUser? ==>
        t.clientUser.None? && t.attempt.Some? && t.attempt.value.phase.Connecting?
  {
    if e.Render? {
      RenderConnectsOnEmptyClient(s, e.inputs);
    }
  }

  lemma RenderConnectsOnEmptyClient(s: State, i: Inputs)
    requires Valid(s)
    ensures var t := OnRender(s, i);
      s.log <= t.log &&
      forall k :: |s.log| <= k < |t.log| && t.log[k].Sdk? && t.log[k].call.ConnectUser? ==>
        t.clientUser.None? && t.attempt.Some? && t.attempt.value.phase.Connecting?
  {
  }

  /** Switching users: when the client holds another user, the trigger only
      disconnects; `connectUser` for the new user is issued once that
      disconnect has resolved, on an empty client. */
  lemma SwitchUserDisconnectsFirst(s: State, i: Inputs)
    requires Valid(s) && s.alive && !s.guard
    requires HasAllInputs(i) && s.deps != Some(DepsOf(i))
    requires s.clientUser.Some? && s.clientUser.value != i.authUser.value.id
    ensures var t1 := Step(s, Render(i));
      var t2 := Step(t1, DisconnectDone);
      && Added(s, t1) == [Sdk(DisconnectUser)]
      && t1.attempt.Some? && t1.attempt.value.phase.Disconnecting?
      && Added(t1, t2) == [Sdk(ConnectUser(i.authUser.value, i.token.value))]
      && t2.clientUser.None?
  {
  }

  /** When the client already holds the auth user there is no disconnect and
      no connect: the trigger creates the channel with members exactly
      [me, target] and watches it. */
  lemma SameUserReusesConnection(s: State, i: Inputs)
    requires Valid(s) && s.alive && !s.guard
    requires HasAllInputs(i) && s.deps != Some(DepsOf(i))
    requires s.clientUser == Some(i.authUser.value.id)
    ensures var t := Step(s, Render(i));
      var me := i.authUser.value.id;
      var target := i.targetId.value;
      && Added(s, t) == [Sdk(CreateChannel(Channel("messaging", ChannelId(me, target), [me, target]))),
                         Sdk(Watch(ChannelId(me, target)))]
      && t.clientUser == s.clientUser
  {
  }

  /** An attempt whose effect run has been cleaned up commits nothing: none of
      the three state cells changes and no toast is shown. */
  lemma StaleAttemptCommitsNothing(s: State, e: Event)
    requires Valid(s)
    requires s.attempt.Some? && !Mounted(s, s.attempt.value)
    requires e.DisconnectDone? || e.ConnectDone? || e.WatchDone? || e.StepFailed? || e.CleanupSettled?
    ensures var t := Step(s, e);
      && t.chatClient == s.chatClient && t.channel == s.channel && t.loading == s.loading
      && OnlySdkFrom(t.log, |s.log|)
  {
  }

  lemma UnmountedStepFreezes(s: State, e: Event)
    requires Valid(s) && !s.alive
    ensures var t := Step(s, e);
      && !t.alive && t.chatClient == s.chatClient && t.channel == s.channel && t.loading == s.loading
      && OnlySdkFrom(t.log, |s.log|)
  {
    match e
    case Render(i) =>
    case DisconnectDone =>
    case ConnectDone =>
    case WatchDone =>
    case StepFailed(m) =>
    case Unmount =>
    case CleanupSettled(ok) =>
    case VideoCall(origin) =>
  }

  /** Unmount marks the latest effect run unmounted and, when a client was
      stored in page state, issues exactly one `disconnectUser` on it. */
  lemma UnmountDisconnectsStoredClient(s: State)
    requires Valid(s) && s.alive
    ensures var t := Step(s, Unmount);
      && !t.alive && t.mountedRun.None?
      && Added(s, t) == (if s.chatClient then [Sdk(DisconnectUser)] else [])
      && t.cleanupPending == s.chatClient
      && (s.attempt.Some? ==> !Mounted(t, s.attempt.value))
  {
  }

  /** After unmount nothing that resolves later reaches the page: whatever
      events follow, the state cells keep their values and no toast appears. */
  lemma {:induction false} UnmountFreezesPage(s: State, es: seq<Event>)
    requires Valid(s) && !s.alive
    ensures var t := Run(s, es);
      && t.chatClient == s.chatClient && t.channel == s.channel && t.loading == s.loading
      && OnlySdkFrom(t.log, |s.log|)
    decreases |es|
  {
    if |es| > 0 {
      var s1 := Step(s, es[0]);
      UnmountedStepFreezes(s, es[0]);
      StepPreservesValid(s, es[0]);
      UnmountFreezesPage(s1, es[1..]);
      var t := Run(s1, es[1..]);
      assert Run(s, es) == t;
      forall k | |s.log| <= k < |t.log|
        ensures t.log[k].Sdk?
      {
        if k < |s1.log| {
          assert t.log[k] == s1.log[k];
        }
      }
    }
  }

  /** The channel and client cells change only when a still-mounted
      attempt's watch resolves; the channel then holds the watched channel, the
      client is stored and loading is over, so the chat UI shows. */
  lemma ChannelSetOnlyAfterWatch(s: State, e: Event)
    requires Valid(s)
    requires Step(s, e).channel != s.channel || Step(s, e).chatClient != s.chatClient
    ensures e.WatchDone? && s.attempt.Some? && Mounted(s, s.attempt.value)
    ensures s.attempt.value.phase.Watching?
    ensures Step(s, e).channel == Some(s.attempt.value.phase.channel)
    ensures Ready(Step(s, e))
  {
    OnlyWatchSetsChannel(s, e);
  }

  /** Every event but a resolved watch leaves the channel and client cells. */
  lemma OnlyWatchSetsChannel(s: State, e: Event)
    ensures !e.WatchDone? ==> Step(s, e).channel == s.channel && Step(s, e).chatClient == s.chatClient
  {
    if e.Render? {
      InitChatKeepsChannel(s, e.inputs);
    }
  }

  /** The synchronous part of `initChat` never commits a channel or a client. */
  lemma InitChatKeepsChannel(s: State, i: Inputs)
    ensures OnRender(s, i).channel == s.channel && OnRender(s, i).chatClient == s.chatClient
  {
  }

  /** A failure while mounted shows the error toast and ends loading, but
      never touches the channel or client cells: with no channel yet the loader
      keeps showing, with no error state; after an earlier success the chat
      stays on the previously committed channel. */
  lemma FailureKeepsChannel(s: State, message: string)
    requires Valid(s)
    requires s.attempt.Some? && Mounted(s, s.attempt.value)
    ensures var t := Step(s, StepFailed(message));
      && !t.loading && !t.guard && t.attempt.None?
      && t.channel == s.channel && t.chatClient == s.chatClient
      && (Ready(t) <==> s.channel.Some?)
      && Added(s, t) == [Toast(ErrorToast, "Could not connect to chat: " + message)]
  {
  }

  /** The call invite sends exactly one message, carrying the call URL built
      from the channel id, when a channel exists; otherwise nothing at all. */
  lemma VideoCallSendsOneInvite(s: State, origin: string)
    requires s.alive
    ensures var t := Step(s, VideoCall(origin));
      && (s.channel.None? ==> t == s)
      && (s.channel.Some? ==>
            && |Added(s, t)| >= 1
            && Added(s, t)[0].Sdk? && Added(s, t)[0].call.SendMessage?
            && Added(s, t)[0].call.channelId == s.channel.value.id
            && EndsWith(Added(s, t)[0].call.text, origin + "/call/" + s.channel.value.id)
            && (forall k :: 1 <= k < |Added(s, t)| ==> !Added(s, t)[k].Sdk?))
  {
  }

  /** Running two event sequences one after the other is running their concatenation. */
  lemma {:induction false} RunConcat(s: State, a: seq<Event>, b: seq<Event>)
    ensures Run(s, a + b) == Run(Run(s, a), b)
    decreases |a|
  {
    if |a| == 0 {
      assert a + b == b;
    } else {
      assert (a + b)[0] == a[0];
      assert (a + b)[1..] == a[1..] + b;
      RunConcat(Step(s, a[0]), a[1..], b);
      assert Run(s, a) == Run(Step(s, a[0]), a[1..]);
    }
  }

  /** The whole page and client state after a first successful start. */
  lemma FirstSuccess(i: Inputs)
    requires HasAllInputs(i)
    ensures var me := i.authUser.value;
      var ch := ChannelFor(me.id, i.targetId.value);
      Run(Init(None), [Render(i), ConnectDone, WatchDone])
        == State(Some(me.id), false, 1, Some(0), Some(DepsOf(i)), true, None, true, Some(ch), false, false,
                 [Sdk(ConnectUser(me, i.token.value)), Sdk(CreateChannel(ch)), Sdk(Watch(ch.id))])
  {
    var s0 := Init(None);
    var s1 := Step(s0, Render(i));
    var s2 := Step(s1, ConnectDone);
    var s3 := Step(s2, WatchDone);
    assert s1.attempt.Some? && s1.attempt.value.phase.Connecting?;
    assert s2.attempt.Some? && s2.attempt.value.phase.Watching?;
    assert Run(s0, [Render(i), ConnectDone, WatchDone]) == Run(s1, [ConnectDone, WatchDone]);
    assert Run(s1, [ConnectDone, WatchDone]) == Run(s2, [WatchDone]);
    assert Run(s2, [WatchDone]) == Run(s3, []);
  }

  /** First visit, client empty, all inputs present: connect, create, watch,
      and the chat shows the channel for the two users. */
  lemma HappyPath(i: Inputs)
    requires HasAllInputs(i)
    ensures var t := Run(Init(None), [Render(i), ConnectDone, WatchDone]);
      var me := i.authUser.value.id;
      var ch := ChannelFor(me, i.targetId.value);
      && Ready(t) && t.channel == Some(ch) && t.clientUser == Some(me) && !t.guard
      && t.log == [Sdk(ConnectUser(i.authUser.value, i.token.value)), Sdk(CreateChannel(ch)), Sdk(Watch(ch.id))]
  {
    FirstSuccess(i);
  }

  /** A trigger dropped by the guard is never retried: the in-flight attempt
      belongs to a cleaned-up run and commits nothing, the loader stays up, and
      rendering again with the same deps does not re-run the effect. */
  lemma DroppedTriggerNeverRetried(i1: Inputs, i2: Inputs)
    requires HasAllInputs(i1) && HasAllInputs(i2) && DepsOf(i1) != DepsOf(i2)
    ensures var t := Run(Init(None), [Render(i1), Render(i2), ConnectDone, WatchDone]);
      && t.loading && t.channel.None? && !Ready(t) && !t.guard
      && Step(t, Render(i2)) == t
  {
    var s0 := Init(None);
    var s1 := Step(s0, Render(i1));
    var s2 := Step(s1, Render(i2));
    var s3 := Step(s2, ConnectDone);
    var s4 := Step(s3, WatchDone);
    assert s1.attempt.Some? && s1.attempt.value.phase.Connecting? && s1.attempt.value.run == 0;
    assert s2.attempt == s1.attempt && s2.mountedRun == Some(1);
    assert s3.attempt.None? && s3.loading;
    assert Run(s0, [Render(i1), Render(i2), ConnectDone, WatchDone]) == Run(s1, [Render(i2), ConnectDone, WatchDone]);
    assert Run(s1, [Render(i2), ConnectDone, WatchDone]) == Run(s2, [ConnectDone, WatchDone]);
    assert Run(s2, [ConnectDone, WatchDone]) == Run(s3, [WatchDone]);
    assert Run(s3, [WatchDone]) == Run(s4, []);
  }

  /** After a successful start, a later deps change opens the new target's
      channel; a further change while that watch is pending is dropped, and the
      watch then commits nothing. The page stays ready on the FIRST target's
      conversation, with the guard clear, while the route names the third. */
  lemma DroppedTriggerKeepsStaleConversation(i1: Inputs, i2: Inputs, i3: Inputs)
    requires HasAllInputs(i1) && HasAllInputs(i2) && HasAllInputs(i3)
    requires i2.token == i1.token && i3.token == i1.token
    requires i2.authUser == i1.authUser && i3.authUser == i1.authUser
    requires i1.targetId != i2.targetId && i2.targetId != i3.targetId
    ensures var t := Run(Init(None), [Render(i1), ConnectDone, WatchDone, Render(i2), Render(i3), WatchDone]);
      var me := i1.authUser.value.id;
      && Ready(t) && !t.guard && t.attempt.None?
      && t.channel == Some(ChannelFor(me, i1.targetId.value))
      && t.deps == Some(DepsOf(i3))
      && Step(t, Render(i3)) == t
  {
    var s3 := Run(Init(None), [Render(i1), ConnectDone, WatchDone]);
    FirstSuccess(i1);
    RunConcat(Init(None), [Render(i1), ConnectDone, WatchDone], [Render(i2), Render(i3), WatchDone]);
    assert [Render(i1), ConnectDone, WatchDone] + [Render(i2), Render(i3), WatchDone]
        == [Render(i1), ConnectDone, WatchDone, Render(i2), Render(i3), WatchDone];
    var s4 := Step(s3, Render(i2));
    var s5 := Step(s4, Render(i3));
    var s6 := Step(s5, WatchDone);
    assert s4.attempt.Some? && s4.attempt.value.phase.Watching? && s4.attempt.value.run == 1;
    assert s5.attempt == s4.attempt && s5.mountedRun == Some(2);
    assert s6.channel == s3.channel && !s6.loading && s6.chatClient;
    assert Run(s3, [Render(i2), Render(i3), WatchDone]) == Run(s4, [Render(i3), WatchDone]);
    assert Run(s4, [Render(i3), WatchDone]) == Run(s5, [WatchDone]);
    assert Run(s5, [WatchDone]) == Run(s6, []);
  }

  /** After a successful start, switching to another target whose watch
      rejects shows the error toast but leaves the page ready on the FIRST
      target's channel while the route names the second. */
  lemma FailedSwitchKeepsOldChannel(i1: Inputs, i2: Inputs, message: string)
    requires HasAllInputs(i1) && HasAllInputs(i2)
    requires i2.token == i1.token && i2.authUser == i1.authUser && i1.targetId != i2.targetId
    ensures var t := Run(Init(None), [Render(i1), ConnectDone, WatchDone, Render(i2), StepFailed(message)]);
      var me := i1.authUser.value.id;
      && Ready(t) && !t.guard && t.attempt.None?
      && t.channel == Some(ChannelFor(me, i1.targetId.value))
      && t.deps == Some(DepsOf(i2))
      && |t.log| > 0 && t.log[|t.log| - 1] == Toast(ErrorToast, ConnectErrorText(message))
  {
    var s3 := Run(Init(None), [Render(i1), ConnectDone, WatchDone]);
    FirstSuccess(i1);
    RunConcat(Init(None), [Render(i1), ConnectDone, WatchDone], [Render(i2), StepFailed(message)]);
    assert [Render(i1), ConnectDone, WatchDone] + [Render(i2), StepFailed(message)]
        == [Render(i1), ConnectDone, WatchDone, Render(i2), StepFailed(message)];
    var s4 := Step(s3, Render(i2));
    var s5 := Step(s4, StepFailed(message));
    assert s4.attempt.Some? && s4.attempt.value.phase.Watching? && Mounted(s4, s4.attempt.value);
    assert s5.channel == s3.channel && !s5.loading && s5.chatClient;
    assert Run(s3, [Render(i2), StepFailed(message)]) == Run(s4, [StepFailed(message)]);
    assert Run(s4, [StepFailed(message)]) == Run(s5, []);
  }

  /** An attempt cut off by unmount still finishes switching users: the
      disconnect and connect carry no `mounted` check, and no client was
      stored, so the unmount cleanup issues no disconnect. The shared client
      ends up holding the new user with no page left to use it. */
  lemma UnmountedAttemptLeavesUserConnected(other: string, i: Inputs)
    requires HasAllInputs(i) && other != i.authUser.value.id
    ensures var t := Run(Init(Some(other)), [Render(i), Unmount, DisconnectDone, ConnectDone]);
      && !t.alive && !t.guard && t.attempt.None? && !t.cleanupPending
      && t.clientUser == Some(i.authUser.value.id)
      && t.log == [Sdk(DisconnectUser), Sdk(ConnectUser(i.authUser.value, i.token.value))]
  {
    var s0 := Init(Some(other));
    var s1 := Step(s0, Render(i));
    var s2 := Step(s1, Unmount);
    var s3 := Step(s2, DisconnectDone);
    var s4 := Step(s3, ConnectDone);
    assert s1.attempt.Some? && s1.attempt.value.phase.Disconnecting?;
    assert !s2.alive && !s2.cleanupPending && s2.attempt == s1.attempt;
    assert s3.attempt.Some? && s3.attempt.value.phase.Connecting?;
    assert Run(s0, [Render(i), Unmount, DisconnectDone, ConnectDone]) == Run(s1, [Unmount, DisconnectDone, ConnectDone]);
    assert Run(s1, [Unmount, DisconnectDone, ConnectDone]) == Run(s2, [DisconnectDone, ConnectDone]);
    assert Run(s2, [DisconnectDone, ConnectDone]) == Run(s3, [ConnectDone]);
    assert Run(s3, [ConnectDone]) == Run(s4, []);
  }
}
