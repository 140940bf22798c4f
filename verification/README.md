# Wallet connection lifecycle (oyster-swap `WalletProvider`)

A Dafny model of the connection-lifecycle manager of the oyster-swap client
(`src/utils/wallet.tsx`). That component finds an injected Phantom wallet in
the browser and asks it for a silent, trusted-only connection. Detection sets
`provider` and `walletAvail` once. After that, `connected` and `pubKey` follow
the wallet's "connect" and "disconnect" events. The component also tells the
user about each of those events through `notify`.

The project has four modules:

- `Wrappers` (`wrappers.dfy`): `Option`, which stands for the source's
  `undefined` and `null`.
- `KeyDisplay` (`key_display.dfy`): the rule that shortens a base58 key for
  display (`Shorten`), with its laws.
- `WalletLifecycle` (`wallet_lifecycle.dfy`): the lifecycle as a value.
  - `WalletState` holds the four slots and the cleanup closure that the
    event-wiring effect leaves pending (`EventsEffect`). It also holds two
    logs of what the component sends out: notices and provider calls.
  - `Apply` gives one transition. `Run` replays a sequence of them.
  - The lemmas about sequences of transitions are proved here, and so is the
    invariant `Valid`.
- `WalletProviderComponent` (`wallet_provider.dfy`): the class
  `WalletProvider`.
  - Its fields are the four slots and the pending effect. It has ghost logs
    for notices and provider calls.
  - It has one method per transition: `Detect`, `Subscribe`, `HandleConnect`,
    `HandleDisconnect` and `Cleanup`.
  - Each method states its new fields. It also states that its new `State()`
    is the matching `Apply` step, so every lemma about `Run` holds for any
    sequence of method calls. `RunSnoc` extends a replay by one step, and
    the client method `Mount` uses it to show that the object's state after
    the mount sequence is that `Run`.

Modelling choices:

- `PublicKey` is an opaque type. `toBase58` is a function-valued parameter,
  a constant of the object. The base58 encoding itself is library code.
- The host's `window.solana` is an input to `Detect`. It is an
  `Option<PhantomProvider>`, and the record carries the `isPhantom` flag.
  A missing `solana` property and an `undefined` one are both `None`.
- React runs the two effects; here they are explicit method calls. On a
  change of `provider`, React calls `Cleanup` and then `Subscribe`. On
  unmount, it calls `Cleanup`.
- The cleanup closure (src/utils/wallet.tsx:81-84) captured the `provider` of
  the render that set it up. It does not read the current slot. The model
  keeps that captured value in `EventsEffect.Live`.
  - So on mount, the first cleanup closed over `undefined`. It issues no
    disconnect call (`MountWithPhantom`).
  - In React's first commit, detection runs before the event effect. That
    effect still sees the render's `undefined` provider. The model puts that
    first set-up before detection. The result is the same, because the two
    steps write disjoint fields.
- A listener runs only on a provider that this component registered it on.
  `HandleConnect` and `HandleDisconnect` therefore require a matching `on`
  call in the call log. They do not check whether that provider is still
  the current one, and neither does the source.

Three consequences of the code are worth stating outright:

- `substring(length - 7, length)` keeps the last seven characters. So the
  26-letter alphabet shows as `ABCDEFG.....TUVWXYZ` (`ShortenAlphabet`).
- `on` returns no handle, so a listener is never detached. The events of a
  provider that has been replaced still change the state
  (`ListenersNeverDetached`).
- Teardown disconnects the provider that the cleanup closed over, not the
  provider currently in the slot.

## Model

| member | source | states |
|---|---|---|
| KeyDisplay.Shorten | src/utils/wallet.tsx:58-65 | a key text of at most 20 characters is shown unchanged; a longer one is shown as exactly 19 characters: its first 7, five dots, its last 7; the display is never longer than 20 |
| KeyDisplay.ShortenFixedPointIff | src/utils/wallet.tsx:59-65 | the display equals the key text if and only if the text has at most 20 characters |
| KeyDisplay.ShortenIdempotent | src/utils/wallet.tsx:59-65 | shortening a display form again leaves it unchanged |
| KeyDisplay.ShortenMarksElision | src/utils/wallet.tsx:60-64 | for a text without dots, as base58 text is, the display contains a dot exactly when the text was cut |
| KeyDisplay.ShortenAlphabet | src/utils/wallet.tsx:60-64 | the 26-letter alphabet is shown as ABCDEFG.....TUVWXYZ |
| WalletLifecycle.Initial | src/utils/wallet.tsx:31-34 | the mounted component has no wallet available, no provider, is not connected, holds no key, has no pending cleanup and has sent nothing |
| WalletLifecycle.ConnectedNotice | src/utils/wallet.tsx:67-70 | the connect notice has message "Wallet update" and description "Connected to wallet " followed by the shortened key, at most 40 characters in all |
| WalletLifecycle.Apply | src/utils/wallet.tsx:36-85 | only detection changes `provider` or `walletAvail`, and never clears `walletAvail`; only a connect event changes `pubKey`, and no step clears it; only a connect event makes the component connected; both logs only grow, and the notice log by at most one |
| WalletLifecycle.Run | src/utils/wallet.tsx:36-85 | along any sequence of transitions both logs only grow, `walletAvail` is never reset and a held key is never dropped |
| WalletLifecycle.RunSnoc | src/utils/wallet.tsx:36-85 | replaying one more transition is applying it to the replay so far, so a sequence of method calls can be matched step by step against `Run` |
| WalletLifecycle.InitialValid | src/utils/wallet.tsx:31-34 | the initial state satisfies the invariant `Valid` |
| WalletLifecycle.ApplyPreservesValid | src/utils/wallet.tsx:39-84 | every transition keeps the invariant: `walletAvail` exactly when a provider is held, only `isPhantom` providers are held, captured or called, every connect call is trusted-only, nobody listens for `accountChanged` |
| WalletLifecycle.RunPreservesValid | src/utils/wallet.tsx:39-84 | every state reachable from a valid one is valid |
| WalletLifecycle.ConnectedNeedsConnectEvent | src/utils/wallet.tsx:53-84 | starting disconnected, the component is connected only if some connect event arrived with no disconnect event after it |
| WalletLifecycle.ConnectEventSticks | src/utils/wallet.tsx:53-84 | after a connect event the component stays connected until a disconnect event or a teardown |
| WalletLifecycle.PubKeyUnchangedWithoutConnect | src/utils/wallet.tsx:72-80 | without a connect event the held key never changes; disconnects and teardowns leave it in place |
| WalletLifecycle.PubKeyIsLastConnected | src/utils/wallet.tsx:53-56 | the held key is the one carried by the last connect event |
| WalletLifecycle.NotificationsFollowEvents | src/utils/wallet.tsx:53-80 | the notice log gains exactly one notice per connect or disconnect event, in order, and nothing else |
| WalletLifecycle.ListenersNeverDetached | src/utils/wallet.tsx:50-85 | a provider that has a listener keeps it through every later transition, including a provider change |
| WalletLifecycle.MountWithPhantom | src/utils/wallet.tsx:36-85 | after mounting with a Phantom provider, that provider is held and available, nothing is connected, no key is held and nothing is notified; the calls are one trusted-only connect and then the two listener registrations, with no disconnect |
| WalletLifecycle.MountWithoutPhantom | src/utils/wallet.tsx:36-48 | without a Phantom provider mounting leaves the initial state, apart from a pending cleanup over `undefined` |
| WalletProviderComponent.Mount | src/utils/wallet.tsx:30-85 | a fresh, valid object driven through the first commit's two effects, and, when a Phantom provider was stored, through the cleanup and set-up that follow, ends in the state `Run` gives for those steps |
| WalletProviderComponent.WalletProvider.constructor | src/utils/wallet.tsx:31-34 | the object starts in the initial state |
| WalletProviderComponent.WalletProvider.Detect | src/utils/wallet.tsx:39-47 | a Phantom `window.solana` is stored, `walletAvail` set and exactly one trusted-only connect call issued; otherwise nothing changes and no call is made; `connected` and `pubKey` are never touched |
| WalletProviderComponent.WalletProvider.Subscribe | src/utils/wallet.tsx:53-72 | a cleanup over the current provider becomes pending, and that provider, if any, gets a "connect" then a "disconnect" listener; nothing else changes |
| WalletProviderComponent.WalletProvider.HandleConnect | src/utils/wallet.tsx:53-71 | the component is connected with the event's key, and exactly one notice is appended: "Wallet update" / "Connected to wallet " + the shortened key |
| WalletProviderComponent.WalletProvider.HandleDisconnect | src/utils/wallet.tsx:72-80 | the component is disconnected, the key is kept, and exactly one notice "Wallet update" / "Disconnected from wallet" is appended |
| WalletProviderComponent.WalletProvider.Cleanup | src/utils/wallet.tsx:81-84 | a pending cleanup sets `connected` to false whatever it was, and issues exactly one disconnect call to the provider it captured, or none if it captured `undefined`; the key and the provider slot stay |

## Left out

- React scheduling: when the effects run, re-renders, and the `WalletContext`
  with its `useWallet` accessor (src/utils/wallet.tsx:11, 86-110). Consumers
  also get `setPubKey` and `setProvider` through the context. Those setters
  are not modelled as transitions, so the model changes the provider only by
  detection.
- The results of `connect` and `disconnect`. They are promises that nobody
  awaits and that have no `.catch`. A rejection changes no state of the
  component. It surfaces only as an unhandled promise rejection, which the
  model does not record. The model records only that each call was issued.
- The `console.log` calls, and `WALLET_PROVIDERS`, which nothing in the
  component reads.
- The `accountChanged` event kind. It is declared, but nothing ever listens
  for it.
- The base58 encoding inside `PublicKey.toBase58()`. It is library code,
  given here as a parameter.
- String lengths in JavaScript count UTF-16 code units; here they count
  Dafny characters. The two agree on base58 text, which is ASCII.
- `src/components/accountInfo.tsx`. It only renders: a floating-point
  balance formatted with `toFixed(6)`, and `shortenAddress` and `Identicon`,
  whose source is not part of this model.
