/** The chat page's session controller: the effect that connects the current
    user to the shared Stream chat client, opens the one-to-one channel with
    the route's target user and commits it to page state.

    Every `await` of the source becomes an event; a transition is a plain
    function from the state before the event to the state after it. The
    synchronous prefix of `initChat` (up to its first `await`) runs inside the
    `Render` event that (re-)runs the effect. */
module ChatSession {
  import opened Options
  import opened ChannelKey

  /** The authenticated user as the auth query returns it. */
  datatype User = User(id: string, fullName: string, profilePic: string)

  /** What one render of the page sees: the stream-token query's token, the
      auth user (absent while logged out or on a 401) and the route's `id`. */
  datatype Inputs = Inputs(token: Option<string>, authUser: Option<User>, targetId: Option<string>)

  /** The session effect's dependency list: token, `authUser?._id`, target id.
      React re-runs the effect only when one of these changes. */
  datatype Deps = Deps(token: Option<string>, userId: Option<string>, targetId: Option<string>)

  function DepsOf(i: Inputs): Deps
  {
    Deps(i.token, if i.authUser.Some? then Some(i.authUser.value.id) else None, i.targetId)
  }

  /** JavaScript truthiness of an optional string: absent and "" are falsy. */
  predicate Truthy(o: Option<string>)
  {
    o.Some? && o.value != ""
  }

  /** The opening check of `initChat`: token, auth user and target all truthy. */
  predicate HasAllInputs(i: Inputs)
  {
    Truthy(i.token) && i.authUser.Some? && Truthy(i.targetId)
  }

  /** A channel handle as `client.channel(kind, id, { members })` creates it. */
  datatype Channel = Channel(kind: string, id: string, members: seq<string>)

  /** The messaging channel between `me` and `target`. */
  function ChannelFor(me: string, target: string): (ch: Channel)
    ensures ch.kind == "messaging" && ch.members == [me, target]
    ensures ch.id == ChannelId(target, me)
  {
    ChannelIdSymmetric(me, target);
    Channel("messaging", ChannelId(me, target), [me, target])
  }

  /** Calls the page makes into the chat SDK, in the order issued. */
  datatype SdkCall =
    | DisconnectUser
    | ConnectUser(user: User, token: string)
    | CreateChannel(channel: Channel)
    | Watch(channelId: string)
    | SendMessage(channelId: string, text: string)

  datatype ToastKind = ErrorToast | SuccessToast

  /** One observable side effect: an SDK call or a toast shown to the user. */
  datatype Effect = Sdk(call: SdkCall) | Toast(kind: ToastKind, text: string)

  /** The `await` an in-flight `initChat` is suspended at. */
  datatype Phase = Disconnecting | Connecting | Watching(channel: Channel)

  /** An in-flight `initChat`: the effect run it belongs to, the values its
      closure captured, and where it is suspended. */
  datatype Attempt = Attempt(run: nat, me: User, token: string, target: string, phase: Phase)

  /** The page and the shared client.
      - clientUser: id of the user the shared `StreamChat` instance holds;
      - guard: `initializingRef.current`;
      - runs: effect runs so far; run `k` is the `k`-th execution of the effect;
      - mountedRun: the run whose `mounted` flag is still true (only the latest
        run's flag can be, and none after its cleanup);
      - deps: the dependency values of the latest effect run;
      - alive: the page is mounted;
      - chatClient, channel, loading: the three React state cells;
      - cleanupPending: the unmount cleanup's `disconnectUser()` has not settled;
      - log: every SDK call and toast, oldest first. */
  datatype State = State(
    clientUser: Option<string>,
    guard: bool,
    runs: nat,
    mountedRun: Option<nat>,
    deps: Option<Deps>,
    alive: bool,
    attempt: Option<Attempt>,
    chatClient: bool,
    channel: Option<Channel>,
    loading: bool,
    cleanupPending: bool,
    log: seq<Effect>)

  /** The page as first rendered; the shared client may already hold a user
      from an earlier visit. */
  function Init(clientUser: Option<string>): (s: State)
    ensures s.loading && !s.chatClient && s.channel.None? && !Ready(s)
    ensures !s.guard && s.attempt.None? && s.log == []
    ensures s.clientUser == clientUser
  {
    State(clientUser, false, 0, None, None, true, None, false, None, true, false, [])
  }

  /** The chat UI (rather than the loader) is shown. */
  predicate Ready(s: State)
  {
    !s.loading && s.chatClient && s.channel.Some?
  }

  /** The `mounted` flag captured by the attempt's effect run is still true. */
  predicate Mounted(s: State, a: Attempt)
  {
    s.mountedRun == Some(a.run)
  }

  /** The events the page reacts to. */
  datatype Event =
    | Render(inputs: Inputs)     // a render; the effect re-runs if its deps changed
    | DisconnectDone             // `await client.disconnectUser()` resolves
    | ConnectDone                // `await client.connectUser(...)` resolves
    | WatchDone                  // `await currChannel.watch()` resolves
    | StepFailed(message: string) // the pending `await` of `initChat` rejects
    | Unmount                    // the page leaves the tree
    | CleanupSettled(ok: bool)   // the unmount cleanup's `disconnectUser()` settles
    | VideoCall(origin: string)  // the call button is clicked

  /** The `finally` block: release the guard, and stop loading if still mounted. */
  function Finish(s: State, a: Attempt): State
  {
    s.(guard := false, attempt := None, loading := if Mounted(s, a) then false else s.loading)
  }

  /** After the user is connected: bail out if unmounted, else create the
      channel and start watching it. */
  function OpenChannel(s: State, a: Attempt): State
  {
    if !Mounted(s, a) then Finish(s, a)
    else
      var ch := ChannelFor(a.me.id, a.target);
      s.(attempt := Some(a.(phase := Watching(ch))),
         log := s.log + [Sdk(CreateChannel(ch)), Sdk(Watch(ch.id))])
  }

  /** Connect unless the client already holds this user. */
  function ConnectOrReuse(s: State, a: Attempt): State
  {
    if s.clientUser.None? || s.clientUser.value != a.me.id then
      s.(attempt := Some(a.(phase := Connecting)), log := s.log + [Sdk(ConnectUser(a.me, a.token))])
    else
      OpenChannel(s, a)
  }

  /** `initChat` up to its first `await`, for effect run `run`. */
  function InitChat(s: State, i: Inputs, run: nat): State
  {
    if !HasAllInputs(i) || s.guard then s
    else
      var a := Attempt(run, i.authUser.value, i.token.value, i.targetId.value, Connecting);
      var s1 := s.(guard := true);
      if s.clientUser.Some? && s.clientUser.value != a.me.id then
        s1.(attempt := Some(a.(phase := Disconnecting)), log := s.log + [Sdk(DisconnectUser)])
      else
        ConnectOrReuse(s1, a)
  }

  /** The session effect's cleanup: the latest run's `mounted` becomes false. */
  function CleanupEffect(s: State): State
  {
    s.(mountedRun := None)
  }

  function OnRender(s: State, i: Inputs): State
  {
    if !s.alive || s.deps == Some(DepsOf(i)) then s
    else
      var s1 := CleanupEffect(s).(runs := s.runs + 1, mountedRun := Some(s.runs), deps := Some(DepsOf(i)));
      InitChat(s1, i, s.runs)
  }

  function OnDisconnectDone(s: State): State
  {
    if s.attempt.Some? && s.attempt.value.phase.Disconnecting? then
      ConnectOrReuse(s.(clientUser := None), s.attempt.value)
    else s
  }

  function OnConnectDone(s: State): State
  {
    if s.attempt.Some? && s.attempt.value.phase.Connecting? then
      OpenChannel(s.(clientUser := Some(s.attempt.value.me.id)), s.attempt.value)
    else s
  }

  function OnWatchDone(s: State): State
  {
    if s.attempt.Some? && s.attempt.value.phase.Watching? then
      var a := s.attempt.value;
      var s1 := if Mounted(s, a) then s.(chatClient := true, channel := Some(a.phase.channel)) else s;
      Finish(s1, a)
    else s
  }

  /** The error toast of a failed attempt, carrying the rejection's message. */
  function ConnectErrorText(message: string): string
  {
    "Could not connect to chat: " + message
  }

  /** The `catch` block (a toast only while mounted), then `finally`. */
  function OnStepFailed(s: State, message: string): State
  {
    if s.attempt.Some? then
      var a := s.attempt.value;
      var s1 := if Mounted(s, a) then s.(log := s.log + [Toast(ErrorToast, ConnectErrorText(message))]) else s;
      Finish(s1, a)
    else s
  }

  /** Unmount runs both cleanups: the session effect's, and the one that
      disconnects the client once it has been stored in page state. */
  function OnUnmount(s: State): State
  {
    if !s.alive then s
    else
      CleanupEffect(s).(alive := false, cleanupPending := s.chatClient,
                        log := s.log + if s.chatClient then [Sdk(DisconnectUser)] else [])
  }

  /** The cleanup's disconnect is not awaited; a failure is only logged. */
  function OnCleanupSettled(s: State, ok: bool): State
  {
    if s.cleanupPending then s.(cleanupPending := false, clientUser := if ok then None else s.clientUser)
    else s
  }

  /** The text of the call invite for channel `channelId`. */
  function CallInviteText(origin: string, channelId: string): string
  {
    "I've started a video call. Join me here: " + origin + "/call/" + channelId
  }

  /** The confirmation toast once the invite is sent. */
  function CallSentText(): string
  {
    "Video call link sent successfully!"
  }

  /** `handleVideoCall`: with a channel, send the call link and confirm;
      without one, do nothing. */
  function HandleVideoCall(s: State, origin: string): State
  {
    match s.channel
    case None => s
    case Some(ch) =>
      s.(log := s.log + [Sdk(SendMessage(ch.id, CallInviteText(origin, ch.id))),
                         Toast(SuccessToast, CallSentText())])
  }

  /** One event. Side effects are only ever appended to the log. */
  function Step(s: State, e: Event): (t: State)
    ensures s.log <= t.log
  {
    match e
    case Render(i) => OnRender(s, i)
    case DisconnectDone => OnDisconnectDone(s)
    case ConnectDone => OnConnectDone(s)
    case WatchDone => OnWatchDone(s)
    case StepFailed(m) => OnStepFailed(s, m)
    case Unmount => OnUnmount(s)
    case CleanupSettled(ok) => OnCleanupSettled(s, ok)
    case VideoCall(origin) => if s.alive then HandleVideoCall(s, origin) else s
  }

  /** A sequence of events, applied in order. */
  function Run(s: State, es: seq<Event>): (t: State)
    ensures s.log <= t.log
    decreases |es|
  {
    if |es| == 0 then s else Run(Step(s, es[0]), es[1..])
  }

  /** The side effects `t` added after `s`. */
  function Added(s: State, t: State): seq<Effect>
    requires s.log <= t.log
  {
    t.log[|s.log|..]
  }
}
