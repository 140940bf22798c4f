/**
 * The `WalletProvider` component (src/utils/wallet.tsx:30-85) as an object:
 * its four state slots are fields that each transition overwrites, and the
 * notices and provider calls it sends out are ghost logs. Every method is
 * tied to the matching case of `WalletLifecycle.Apply`, so the lemmas proved
 * there about sequences of transitions hold of every sequence of calls here.
 */
module WalletProviderComponent {
  import opened Wrappers
  import opened WalletLifecycle

  class WalletProvider {
    /** `PublicKey.toBase58()`, a library call. */
    const toBase58: PublicKey -> string

    var walletAvail: bool
    var provider: Option<PhantomProvider>
    var connected: bool
    var pubKey: Option<PublicKey>
    /** The cleanup left by the second effect, with the provider it closed over. */
    var effect: EventsEffect

    ghost var notifications: seq<Notification>
    ghost var calls: seq<ProviderCall>

    ghost function State(): WalletState
      reads this
    {
      WalletState(walletAvail, provider, connected, pubKey, effect, notifications, calls)
    }

    ghost predicate Valid()
      reads this
    {
      WalletLifecycle.Valid(State())
    }

    /** The initial `useState` values (src/utils/wallet.tsx:31-34). */
    constructor (toBase58: PublicKey -> string)
      ensures Valid() && this.toBase58 == toBase58
      ensures !walletAvail && provider == None && !connected && pubKey == None
      ensures effect == Idle && notifications == [] && calls == []
      ensures State() == Initial()
    {
      this.toBase58 := toBase58;
      walletAvail := false;
      provider := None;
      connected := false;
      pubKey := None;
      effect := Idle;
      notifications := [];
      calls := [];
    }

    /**
     * The first effect, given the host's `window.solana`: a Phantom provider is
     * stored, marked available and asked once for a trusted-only connection;
     * anything else leaves the component untouched.
     */
    method Detect(solana: Option<PhantomProvider>)
      requires Valid()
      modifies this
      ensures Valid()
      ensures solana.Some? && solana.value.isPhantom ==>
        && provider == solana && walletAvail
        && calls == old(calls) + [ConnectCall(solana.value, true)]
      ensures !(solana.Some? && solana.value.isPhantom) ==>
        provider == old(provider) && walletAvail == old(walletAvail) && calls == old(calls)
      ensures connected == old(connected) && pubKey == old(pubKey)
      ensures effect == old(effect) && notifications == old(notifications)
      ensures State() == Apply(toBase58, old(State()), Detection(solana))
    {
      if solana.Some? && solana.value.isPhantom {
        provider := solana;
        walletAvail := true;
        calls := calls + [ConnectCall(solana.value, true)];
      }
    }

    /**
     * The second effect's set-up: listeners for "connect" and then "disconnect"
     * are registered on the provider, if there is one.
     */
    method Subscribe()
      requires Valid()
      modifies this
      ensures Valid()
      ensures effect == Live(provider)
      ensures calls == old(calls) + if provider.Some?
                                    then [OnCall(provider.value, Connect), OnCall(provider.value, Disconnect)]
                                    else []
      ensures walletAvail == old(walletAvail) && provider == old(provider)
      ensures connected == old(connected) && pubKey == old(pubKey) && notifications == old(notifications)
      ensures State() == Apply(toBase58, old(State()), Subscription)
    {
      effect := Live(provider);
      if provider.Some? {
        calls := calls + [OnCall(provider.value, Connect), OnCall(provider.value, Disconnect)];
      }
    }

    /**
     * The "connect" listener, run by a provider this component subscribed to,
     * whether or not it is still the current one.
     */
    method HandleConnect(source: PhantomProvider, publicKey: PublicKey)
      requires Valid() && HasListener(State(), source, Connect)
      modifies this
      ensures Valid()
      ensures connected && pubKey == Some(publicKey)
      ensures notifications == old(notifications) + [ConnectedNotice(toBase58(publicKey))]
      ensures walletAvail == old(walletAvail) && provider == old(provider)
      ensures effect == old(effect) && calls == old(calls)
      ensures State() == Apply(toBase58, old(State()), ConnectEvent(source, publicKey))
    {
      connected := true;
      pubKey := Some(publicKey);
      notifications := notifications + [ConnectedNotice(toBase58(publicKey))];
    }

    /** The "disconnect" listener: the key is kept. */
    method HandleDisconnect(source: PhantomProvider)
      requires Valid() && HasListener(State(), source, Disconnect)
      modifies this
      ensures Valid()
      ensures !connected && pubKey == old(pubKey)
      ensures notifications == old(notifications) + [DisconnectedNotice]
      ensures walletAvail == old(walletAvail) && provider == old(provider)
      ensures effect == old(effect) && calls == old(calls)
      ensures State() == Apply(toBase58, old(State()), DisconnectEvent(source))
    {
      connected := false;
      notifications := notifications + [DisconnectedNotice];
    }

    /**
     * The second effect's cleanup, run when the provider slot changes or the
     * component unmounts: one fire-and-forget disconnect call to the provider
     * the effect closed over, if any, and `connected` cleared whatever it was.
     */
    method Cleanup()
      requires Valid()
      modifies this
      ensures Valid()
      ensures old(effect).Live? ==> !connected && effect == Idle
      ensures old(effect).Live? && old(effect).captured.Some? ==>
        calls == old(calls) + [DisconnectCall(old(effect).captured.value)]
      ensures old(effect).Live? && old(effect).captured.None? ==> calls == old(calls)
      ensures old(effect).Idle? ==> connected == old(connected) && effect == Idle && calls == old(calls)
      ensures walletAvail == old(walletAvail) && provider == old(provider)
      ensures pubKey == old(pubKey) && notifications == old(notifications)
      ensures State() == Apply(toBase58, old(State()), Teardown)
    {
      if effect.Live? {
        if effect.captured.Some? {
          calls := calls + [DisconnectCall(effect.captured.value)];
        }
        connected := false;
        effect := Idle;
      }
    }
  }

  /**
   * The object driven through the mount sequence: both effects of the first
   * commit, then the cleanup and set-up that storing a provider triggers. Its
   * state is the replay of those steps, so the lemmas about `Run` apply to it.
   */
  method Mount(toBase58: PublicKey -> string, solana: Option<PhantomProvider>) returns (w: WalletProvider)
    ensures fresh(w) && w.Valid() && w.toBase58 == toBase58
    ensures solana.Some? && solana.value.isPhantom ==>
      w.State() == Run(toBase58, Initial(), [Subscription, Detection(solana), Teardown, Subscription])
    ensures !(solana.Some? && solana.value.isPhantom) ==>
      w.State() == Run(toBase58, Initial(), [Subscription, Detection(solana)])
  {
    w := new WalletProvider(toBase58);
    ghost var steps: seq<Step> := [];
    assert w.State() == Run(toBase58, Initial(), steps);
    w.Subscribe();
    RunSnoc(toBase58, Initial(), steps, Subscription);
    steps := steps + [Subscription];
    w.Detect(solana);
    RunSnoc(toBase58, Initial(), steps, Detection(solana));
    steps := steps + [Detection(solana)];
    if solana.Some? && solana.value.isPhantom {
      w.Cleanup();
      RunSnoc(toBase58, Initial(), steps, Teardown);
      steps := steps + [Teardown];
      w.Subscribe();
      RunSnoc(toBase58, Initial(), steps, Subscription);
      steps := steps + [Subscription];
      assert steps == [Subscription, Detection(solana), Teardown, Subscription];
    } else {
      assert steps == [Subscription, Detection(solana)];
    }
  }
}
