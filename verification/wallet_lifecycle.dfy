/**
 * The connection lifecycle of the `WalletProvider` component
 * (src/utils/wallet.tsx:30-85) as a value: the four state slots, the closure
 * left behind by the event-wiring effect, and two logs of what went out of the
 * component (notices to the notification sink, calls to the Phantom provider).
 * Each transition is one case of `Apply`; `Run` replays a sequence of them.
 */
module WalletLifecycle {
  import opened Wrappers
  import opened KeyDisplay

  /** A `PublicKey` of @solana/web3.js; its base58 text comes from a `toBase58` parameter. */
  type PublicKey

  /** The injected `window.solana` object, told apart from other objects by `id`. */
  datatype PhantomProvider = PhantomProvider(id: nat, isPhantom: bool)

  /** The event kinds a Phantom provider accepts listeners for (src/utils/wallet.tsx:13). */
  datatype PhantomEvent = Disconnect | Connect | AccountChanged

  /** A call this component issues to a provider; none of their results is awaited. */
  datatype ProviderCall =
    | ConnectCall(target: PhantomProvider, onlyIfTrusted: bool)
    | DisconnectCall(target: PhantomProvider)
    | OnCall(target: PhantomProvider, event: PhantomEvent)

  /** The argument of one `notify` call. */
  datatype Notification = Notification(message: string, description: string)

  /**
   * The second effect of the component: `Idle` when no cleanup is pending, or
   * `Live(captured)` with the `provider` value its handlers and cleanup closed over.
   */
  datatype EventsEffect = Idle | Live(captured: Option<PhantomProvider>)

  datatype WalletState = WalletState(
    walletAvail: bool,
    provider: Option<PhantomProvider>,
    connected: bool,
    pubKey: Option<PublicKey>,
    effect: EventsEffect,
    notifications: seq<Notification>,
    calls: seq<ProviderCall>)

  /** One transition of the component. */
  datatype Step =
    | Detection(solana: Option<PhantomProvider>)    // first effect, with `window.solana`
    | Subscription                                  // second effect, set-up half
    | ConnectEvent(source: PhantomProvider, publicKey: PublicKey)
    | DisconnectEvent(source: PhantomProvider)
    | Teardown                                      // second effect, cleanup half

  /** The state of a freshly mounted component. */
  function Initial(): (s: WalletState)
    ensures !s.walletAvail && s.provider == None && !s.connected && s.pubKey == None
    ensures s.effect == Idle && s.notifications == [] && s.calls == []
  {
    WalletState(false, None, false, None, Idle, [], [])
  }

  /** The notice sent when a provider reports a connection with key text `text`. */
  function ConnectedNotice(text: string): (n: Notification)
    ensures n.message == "Wallet update"
    ensures |n.description| == 20 + |Shorten(text)| <= 40
    ensures n.description[..20] == "Connected to wallet "
    ensures n.description[20..] == Shorten(text)
  {
    Notification("Wallet update", "Connected to wallet " + Shorten(text))
  }

  /** The notice sent when a provider reports a disconnection. */
  const DisconnectedNotice := Notification("Wallet update", "Disconnected from wallet")

  /**
   * The state after `step`. Every transition overwrites some fields and leaves
   * the rest; the logs only ever grow.
   */
  function Apply(toBase58: PublicKey -> string, s: WalletState, step: Step): (r: WalletState)
    ensures r.provider != s.provider || r.walletAvail != s.walletAvail ==> step.Detection?
    ensures s.walletAvail ==> r.walletAvail
    ensures r.pubKey != s.pubKey ==> step.ConnectEvent?
    ensures s.pubKey.Some? ==> r.pubKey.Some?
    ensures r.connected && !s.connected ==> step.ConnectEvent?
    ensures s.calls <= r.calls && s.notifications <= r.notifications
    ensures |r.notifications| <= |s.notifications| + 1
  {
    match step
    case Detection(solana) =>
      if solana.Some? && solana.value.isPhantom then
        s.(provider := solana, walletAvail := true,
           calls := s.calls + [ConnectCall(solana.value, true)])
      else
        s
    case Subscription =>
      s.(effect := Live(s.provider),
         calls := s.calls + if s.provider.Some?
                            then [OnCall(s.provider.value, Connect), OnCall(s.provider.value, Disconnect)]
                            else [])
    case ConnectEvent(_, publicKey) =>
      s.(connected := true, pubKey := Some(publicKey),
         notifications := s.notifications + [ConnectedNotice(toBase58(publicKey))])
    case DisconnectEvent(_) =>
      s.(connected := false, notifications := s.notifications + [DisconnectedNotice])
    case Teardown =>
      match s.effect
      case Idle => s
      case Live(captured) =>
        s.(effect := Idle, connected := false,
           calls := s.calls + if captured.Some? then [DisconnectCall(captured.value)] else [])
  }

  /** The state after the transitions `steps`, in order. */
  function Run(toBase58: PublicKey -> string, s: WalletState, steps: seq<Step>): (r: WalletState)
    decreases |steps|
    ensures s.calls <= r.calls && s.notifications <= r.notifications
    ensures s.walletAvail ==> r.walletAvail
    ensures s.pubKey.Some? ==> r.pubKey.Some?
  {
    if steps == [] then s
    else Apply(toBase58, Run(toBase58, s, steps[..|steps| - 1]), steps[|steps| - 1])
  }

  /** One more transition after a replay is the replay of the longer sequence. */
  lemma RunSnoc(toBase58: PublicKey -> string, s: WalletState, steps: seq<Step>, step: Step)
    ensures Run(toBase58, s, steps + [step]) == Apply(toBase58, Run(toBase58, s, steps), step)
  {
  }

  /** `p` has a listener for `event` registered by this component. */
  ghost predicate HasListener(s: WalletState, p: PhantomProvider, event: PhantomEvent) {
    exists i :: 0 <= i < |s.calls| && s.calls[i] == OnCall(p, event)
  }

  /**
   * What the component keeps true: `walletAvail` is set exactly when a provider
   * is held, only a provider marked `isPhantom` is ever held or called, the only
   * connect call asks for a trusted-only connection, and nobody listens for
   * `accountChanged`.
   */
  ghost predicate Valid(s: WalletState) {
    && s.walletAvail == s.provider.Some?
    && (s.provider.Some? ==> s.provider.value.isPhantom)
    && (s.effect.Live? && s.effect.captured.Some? ==> s.effect.captured.value.isPhantom)
    && (forall i :: 0 <= i < |s.calls| ==> s.calls[i].target.isPhantom)
    && (forall i :: 0 <= i < |s.calls| && s.calls[i].ConnectCall? ==> s.calls[i].onlyIfTrusted)
    && (forall i :: 0 <= i < |s.calls| && s.calls[i].OnCall? ==> s.calls[i].event != AccountChanged)
  }

  /** The notices the steps send, in order. */
  function Notices(toBase58: PublicKey -> string, steps: seq<Step>): seq<Notification>
    decreases |steps|
  {
    if steps == [] then []
    else
      var last := steps[|steps| - 1];
      Notices(toBase58, steps[..|steps| - 1]) +
        match last
        case ConnectEvent(_, k) => [ConnectedNotice(toBase58(k))]
        case DisconnectEvent(_) => [DisconnectedNotice]
        case _ => []
  }

  lemma InitialValid()
    ensures Valid(Initial())
  {
  }

  lemma ApplyPreservesValid(toBase58: PublicKey -> string, s: WalletState, step: Step)
    requires Valid(s)
    ensures Valid(Apply(toBase58, s, step))
  {
  }

  /** Every reachable state keeps `Valid`. */
  lemma {:induction false} RunPreservesValid(toBase58: PublicKey -> string, s: WalletState, steps: seq<Step>)
    requires Valid(s)
    ensures Valid(Run(toBase58, s, steps))
    decreases |steps|
  {
    if steps != [] {
      var prefix := steps[..|steps| - 1];
      RunPreservesValid(toBase58, s, prefix);
      ApplyPreservesValid(toBase58, Run(toBase58, s, prefix), steps[|steps| - 1]);
    }
  }

  /**
   * Starting disconnected, the component is connected only if some connect
   * event arrived and no disconnect event arrived after it.
   */
  lemma {:induction false} ConnectedNeedsConnectEvent(toBase58: PublicKey -> string, s: WalletState, steps: seq<Step>)
    requires !s.connected
    ensures Run(toBase58, s, steps).connected ==>
      exists i :: 0 <= i < |steps| && steps[i].ConnectEvent? &&
        forall j :: i < j < |steps| ==> !steps[j].DisconnectEvent?
    decreases |steps|
  {
    if steps != [] && Run(toBase58, s, steps).connected {
      var n := |steps|;
      var prefix := steps[..n - 1];
      if !steps[n - 1].ConnectEvent? {
        ConnectedNeedsConnectEvent(toBase58, s, prefix);
        var i :| 0 <= i < |prefix| && prefix[i].ConnectEvent? &&
          forall j :: i < j < |prefix| ==> !prefix[j].DisconnectEvent?;
        assert steps[i] == prefix[i];
        forall j | i < j < n
          ensures !steps[j].DisconnectEvent?
        {
          if j < n - 1 {
            assert steps[j] == prefix[j];
          }
        }
      }
    }
  }

  /** A connect event leaves the component connected until a disconnect event or a teardown. */
  lemma {:induction false} ConnectEventSticks(toBase58: PublicKey -> string, s: WalletState, steps: seq<Step>, i: nat)
    requires i < |steps| && steps[i].ConnectEvent?
    requires forall j :: i < j < |steps| ==> !steps[j].DisconnectEvent? && !steps[j].Teardown?
    ensures Run(toBase58, s, steps).connected
    decreases |steps|
  {
    var n := |steps|;
    var prefix := steps[..n - 1];
    if i < n - 1 {
      assert prefix[i] == steps[i];
      forall j | i < j < |prefix|
        ensures !prefix[j].DisconnectEvent? && !prefix[j].Teardown?
      {
        assert prefix[j] == steps[j];
      }
      ConnectEventSticks(toBase58, s, prefix, i);
    }
  }

  /** Without a connect event the key stays what it was: nothing else writes it, not even a disconnect. */
  lemma {:induction false} PubKeyUnchangedWithoutConnect(toBase58: PublicKey -> string, s: WalletState, steps: seq<Step>)
    requires forall i :: 0 <= i < |steps| ==> !steps[i].ConnectEvent?
    ensures Run(toBase58, s, steps).pubKey == s.pubKey
    decreases |steps|
  {
    if steps != [] {
      var prefix := steps[..|steps| - 1];
      assert forall i :: 0 <= i < |prefix| ==> prefix[i] == steps[i];
      PubKeyUnchangedWithoutConnect(toBase58, s, prefix);
    }
  }

  /** The key held is the one carried by the last connect event. */
  lemma {:induction false} PubKeyIsLastConnected(toBase58: PublicKey -> string, s: WalletState, steps: seq<Step>, i: nat)
    requires i < |steps| && steps[i].ConnectEvent?
    requires forall j :: i < j < |steps| ==> !steps[j].ConnectEvent?
    ensures Run(toBase58, s, steps).pubKey == Some(steps[i].publicKey)
    decreases |steps|
  {
    var n := |steps|;
    var prefix := steps[..n - 1];
    if i < n - 1 {
      assert prefix[i] == steps[i];
      forall j | i < j < |prefix|
        ensures !prefix[j].ConnectEvent?
      {
        assert prefix[j] == steps[j];
      }
      PubKeyIsLastConnected(toBase58, s, prefix, i);
    }
  }

  /** The notification log gains exactly one notice per provider event, in order. */
  lemma {:induction false} NotificationsFollowEvents(toBase58: PublicKey -> string, s: WalletState, steps: seq<Step>)
    ensures Run(toBase58, s, steps).notifications == s.notifications + Notices(toBase58, steps)
    decreases |steps|
  {
    if steps != [] {
      var prefix := steps[..|steps| - 1];
      NotificationsFollowEvents(toBase58, s, prefix);
    }
  }

  /**
   * No listener is ever removed: a provider that was once subscribed keeps
   * delivering events to this component, even after the provider slot moved on.
   */
  lemma ListenersNeverDetached(toBase58: PublicKey -> string, s: WalletState, steps: seq<Step>, p: PhantomProvider, event: PhantomEvent)
    requires HasListener(s, p, event)
    ensures HasListener(Run(toBase58, s, steps), p, event)
  {
  }

  /**
   * Mounting on a host with a Phantom provider. In the first commit both effects
   * run: the second one sets up on the provider of that render, still undefined
   * (it is put first here: it touches only the pending effect, detection never
   * does). Detection stores the provider, which re-renders; the pending cleanup
   * then issues no disconnect call, since it closed over `undefined`, and the
   * second effect sets up again on the provider.
   */
  lemma MountWithPhantom(toBase58: PublicKey -> string, p: PhantomProvider)
    requires p.isPhantom
    ensures var r := Run(toBase58, Initial(), [Subscription, Detection(Some(p)), Teardown, Subscription]);
      && r.walletAvail && r.provider == Some(p) && !r.connected && r.pubKey == None
      && r.effect == Live(Some(p)) && r.notifications == []
      && r.calls == [ConnectCall(p, true), OnCall(p, Connect), OnCall(p, Disconnect)]
  {
    var steps := [Subscription, Detection(Some(p)), Teardown, Subscription];
    var s1 := Apply(toBase58, Initial(), Subscription);
    var s2 := Apply(toBase58, s1, Detection(Some(p)));
    var s3 := Apply(toBase58, s2, Teardown);
    assert steps[..1] == [Subscription] && steps[..1][..0] == [];
    assert Run(toBase58, Initial(), steps[..1]) == s1;
    assert steps[..2] == [Subscription, Detection(Some(p))] && steps[..2][..1] == steps[..1];
    assert Run(toBase58, Initial(), steps[..2]) == s2;
    assert steps[..3] == [Subscription, Detection(Some(p)), Teardown] && steps[..3][..2] == steps[..2];
    assert Run(toBase58, Initial(), steps[..3]) == s3;
    assert s3.calls == [ConnectCall(p, true)];
    assert Run(toBase58, Initial(), steps) == Apply(toBase58, s3, Subscription);
  }

  /** Mounting on a host without a Phantom provider changes nothing but the pending effect. */
  lemma MountWithoutPhantom(toBase58: PublicKey -> string, solana: Option<PhantomProvider>)
    requires solana.Some? ==> !solana.value.isPhantom
    ensures Run(toBase58, Initial(), [Subscription, Detection(solana)]) == Initial().(effect := Live(None))
  {
    var steps := [Subscription, Detection(solana)];
    var s1 := Apply(toBase58, Initial(), Subscription);
    assert steps[..1] == [Subscription] && steps[..1][..0] == [];
    assert Run(toBase58, Initial(), steps[..1]) == s1;
    assert Run(toBase58, Initial(), steps) == Apply(toBase58, s1, Detection(solana));
  }
}
