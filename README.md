# Generic sign-in builder

A model of the Swift playground `BuildPattern.playground/Contents.swift`: a
generic fluent builder `SignInBuilder<T>` that fills in a
`SignInProvider<T>`. The provider holds four optional credentials (`email`,
`password`, `facebookToken`, `googleToken`) and one payload `instance` of
type `T`, made once when the provider is made. Each setter writes one field
of the builder's one provider and returns the builder itself; `build`
returns that same provider object, not a copy.

Files:

- `wrappers.dfy` — `Option`, standing for Swift's optionals.
- `credentials.dfy` (module `CredentialSpec`) — the provider's state as a
  value (`Credentials`), one setter call as a value (`Setter`), and what a
  setter or a chain of setters does to the state (`Apply`, `ApplyAll`,
  `LastWrite`), with the lemmas about chains: the last write wins, order
  does not matter across fields, nothing is ever cleared, the payload never
  changes.
- `builder.dfy` (module `Builder`) — the two classes. Every setter is
  specified against `Apply`, with the fields it does not write framed out;
  `Build` returns the inner provider and modifies nothing.
- `scenarios.dfy` (module `Scenarios`) — the playground's three payload types
  (each built with the constants its `init()` sets) and its three sign-in
  chains; `BuildIsLiveView`, which shows that `build` hands out a live,
  shared object; and `ChainInEitherOrder`, which shows that an email setter
  and a password setter give the same state in either order on two
  separate builders.

Design choices:

- The payload type's `init()` is not called by the model; the value it would
  produce is passed to the constructors. The cast `as? T` in the source
  always succeeds, so `instance` is `Some(payload)` from the start.
- `innerBuild` is a `const` field: the source declares it `private var` but
  never assigns it after its initialiser, so one builder always works on one
  provider.
- `build` returns a live view (the source's behaviour): a setter called after
  `build` is seen through the object `build` returned.
- The Facebook and Google scenarios take the token as a parameter instead
  of the playground's fixed token string, so they hold for every token.

## Model

| member | source | states |
|---|---|---|
| CredentialSpec.Initial | BuildPattern.playground/Contents.swift:18-28 | a fresh provider has every credential field absent and its payload present and equal to the value the payload type's `init()` made |
| CredentialSpec.Apply | BuildPattern.playground/Contents.swift:50-83 | one setter makes its own field hold its text and leaves the other three fields and the payload as they were |
| CredentialSpec.ApplyAll | BuildPattern.playground/Contents.swift:50-83 | any chain of setters keeps the payload unchanged and never turns a present credential back into an absent one |
| CredentialSpec.ApplyAllSnoc | BuildPattern.playground/Contents.swift:50-83 | chaining one more setter onto a chain applies it to the chain's result |
| CredentialSpec.ApplyAllAppend | BuildPattern.playground/Contents.swift:50-83 | running two chains one after the other gives the state of their concatenation |
| CredentialSpec.LastWriteWins | BuildPattern.playground/Contents.swift:51-81 | after a chain each field holds the text of the last setter that wrote it, or its earlier value if none did |
| CredentialSpec.FromInitial | BuildPattern.playground/Contents.swift:18-28 | a new builder followed by a chain yields exactly the last write per field (absent if never written) and the construction-time payload |
| CredentialSpec.OrderIndependent | BuildPattern.playground/Contents.swift:51-81 | two chains with the same last write per field give the same provider state, whatever their order |
| CredentialSpec.ApplyCommutes | BuildPattern.playground/Contents.swift:51-81 | setters of two different fields commute |
| CredentialSpec.Overwrite | BuildPattern.playground/Contents.swift:51-81 | a second write to a field replaces the first |
| CredentialSpec.SwapAdjacent | BuildPattern.playground/Contents.swift:50-83 | within any chain, swapping two adjacent setters of different fields leaves the final state unchanged |
| CredentialSpec.SameFieldsSame | BuildPattern.playground/Contents.swift:18-23 | a provider state is determined by its four credential fields and its payload |
| Builder.SignInProvider.constructor | BuildPattern.playground/Contents.swift:25-28 | the four credentials start absent and `instance` holds the payload |
| Builder.SignInBuilder.constructor | BuildPattern.playground/Contents.swift:40-43 | a new builder owns a new provider in the initial state |
| Builder.SignInBuilder.SetEmail | BuildPattern.playground/Contents.swift:50-53 | writes `email` only, leaves password, both tokens and the payload unchanged, returns the builder itself |
| Builder.SignInBuilder.SetPassword | BuildPattern.playground/Contents.swift:60-63 | writes `password` only, leaves the other fields and the payload unchanged, returns the builder itself |
| Builder.SignInBuilder.SetFacebookToken | BuildPattern.playground/Contents.swift:70-73 | writes `facebookToken` only, leaves the other fields and the payload unchanged, returns the builder itself |
| Builder.SignInBuilder.SetGoogleToken | BuildPattern.playground/Contents.swift:80-83 | writes `googleToken` only, leaves the other fields and the payload unchanged, returns the builder itself |
| Builder.SignInBuilder.Build | BuildPattern.playground/Contents.swift:87-89 | returns the builder's own inner provider object and changes no state |
| Scenarios.UserSignInExample | BuildPattern.playground/Contents.swift:99-107 | `setEmail("test@host.com").setPassword("test123").build()` has those two values, both tokens absent and the payload present |
| Scenarios.FacebookSignInExample | BuildPattern.playground/Contents.swift:111-125 | a Facebook-token-only chain sets only that token and the payload keeps the API key "some api key" its `init()` sets |
| Scenarios.GoogleSignInExample | BuildPattern.playground/Contents.swift:128-145 | a Google-token-only chain sets only that token and the payload keeps the API key "some api key" and host "https://google.com" its `init()` sets |
| Scenarios.BuildIsLiveView | BuildPattern.playground/Contents.swift:87-89 | two `build` calls return the same object, and a setter called between them is visible through the first result |
| Scenarios.ChainInEitherOrder | BuildPattern.playground/Contents.swift:50-63 | email-then-password and password-then-email on two builders give equal provider states, equal to the `ApplyAll` of the chain |

## Left out

- `SignInProvider.elementType` and the metatype `init()` / `as? T` cast: Swift's runtime type machinery; the model takes the payload value as a constructor argument instead, and the cast cannot fail.
- `UserSignIn.session` (`URLSession.shared`): a foreign framework object; `UserSignIn` is modelled as a payload with no data.
- The `SignInDataSource` protocol: a read-only view of the four credential fields, which are plain readable fields of the provider class here.
- The `SignInBuilderDataSource` requirement `init()`: stands as the payload value handed to the constructors; `T` has no other requirement.
- Access control (`private`, `fileprivate(set)`): Dafny has no field visibility usable here (export sets are not used); the provider's payload `instance` is an internal `var` in the source (no access modifier) and no builder operation writes it.
- Payload identity: the source's payload types are `final class`es and each provider allocates its own payload through `T.init()`, so two providers never share one; the model makes payloads value datatypes passed to the constructors, so two builders can be handed the same value, and freshness of the payload per provider is not modelled.
- `print` calls and the top-level script: console output; the three chains are kept as the scenario methods.
