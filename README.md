# Authentication context of a React Native chat app, in Dafny

This project models `AuthContextProvider` from `context.js`. It is the session-state coordinator of a mobile chat application that delegates identity and storage to Firebase. The model covers:

- the provider's two pieces of state: `user` (null or a user record) and the tri-state `isAuthenticated` (`undefined`, `true`, `false`);
- the `onAuthStateChanged` callback and the profile enrichment done by `updateUserData`;
- the results of `login`, `register` and `logout`, and the error-message translation inside them;
- the `useAuth` hook.

Calls into Firebase are not modelled. `signInWithEmailAndPassword`, `createUserWithEmailAndPassword`, `signOut` and `setDoc` each appear as their settled outcome, a `Result` parameter. `getDoc` appears as the `Option<ProfileDoc>` snapshot passed to `ApplyProfile`; a rejection is listed under "Left out". The Firestore `users` collection is a `map<string, ProfileDoc>`. `register` receives it and returns it updated.

Files:

- `wrappers.dfy`: `Option` and `Result`.
- `strings.dfy`: `Includes`, the model of JavaScript's `String.prototype.includes`, and its characterisation by occurrence.
- `messages.dfy`: the error codes and Portuguese texts, and the two translation chains of `login` and `register`.
- `auth_context.dfy`: the state, the specification functions `OnEvent`, `Enrich`, `Step` and `Run` over traces of actions, the class `AuthContextProvider`, `UseAuth`, and the lemmas about traces.

Behaviour of the code that the model reproduces as written:

- Error classification. When no code matches, the raw backend message is returned. No executed code has an "unknown" outcome; `'Erro desconhecido'` appears only in the comment at `context.js:131-136`.
- Stale enrichment results. A fetch does not check that its identity is still current before applying its result. `SignOutRaceBreaksAgreement` shows the consequence: after a sign-out, a late fetch puts a user back while `isAuthenticated` stays `false`. `LateFetchOverlaysPreviousUser` shows another: after a second user signs in, the first user's late fetch overlays the first user's profile, and the flag still agrees.
- Captured user. `updateUserData` spreads the `user` value of the render in which the subscription was made. The effect has an empty dependency list (`context.js:26`), so that value is the mount-time `null`. The class holds it as the constant `mountUser`, and `ApplyProfile` overlays onto it, so an enriched user keeps only `username`, `profileUrl` and `userId`. `MountTimeCaptureDropsIdentity` states the same of `Enrich`.
- Partial registration. If sign-up succeeds but writing the profile document fails, the code neither rolls back nor retries. It reports the translated failure, and the model leaves the store unchanged.

## Model

| member | source | states |
|---|---|---|
| `Strings.IncludesIffOccurs` | context.js:44-45 | the left-to-right `includes` scan succeeds exactly when the needle occurs at some index of the text |
| `Messages.LoginMessage` | context.js:43-45 | login's translated message is `'E-mail inválido'`, `'E-mail ou Senha errada'` or the raw message; a message containing `(auth/invalid-email)` always becomes `'E-mail inválido'` |
| `Messages.RegisterMessage` | context.js:72-74 | register's translated message is `'E-mail inválido'`, `'Esse e-mail já está em uso'` or the raw message; a message containing `(auth/invalid-email)` always becomes `'E-mail inválido'` |
| `Messages.LoginFirstMatchWins` | context.js:43-46 | although the second check runs on the rewritten `msg`, `(auth/invalid-email)` wins, then `(auth/invalid-credential)` applies, and any other message passes through unchanged |
| `Messages.RegisterFirstMatchWins` | context.js:72-75 | `(auth/invalid-email)` wins, then `(auth/email-already-in-use)` applies, and any other message passes through unchanged |
| `Messages.InvalidEmailTextCarriesNoCode` | context.js:44-45 | `'E-mail inválido'` contains none of the three error codes, so no later check in either chain can rewrite it |
| `Messages.WrongCredentialsTextCarriesNoCode` | context.js:44-45 | `'E-mail ou Senha errada'` contains neither login code |
| `Messages.EmailInUseTextCarriesNoCode` | context.js:73-74 | `'Esse e-mail já está em uso'` contains neither register code |
| `Messages.LoginMessageIdempotent` | context.js:43-45 | translating an already translated login message changes nothing |
| `Messages.RegisterMessageIdempotent` | context.js:72-74 | translating an already translated register message changes nothing |
| `Messages.EmbeddedCodeTranslated` | context.js:43-45 | in both the login and the register chain, a backend message that embeds a code between any text is translated into that code's text, unless an earlier code in the chain also occurs |
| `AuthContext.OnEvent` | context.js:16-23 | after an identity event, `isAuthenticated` is `true` exactly when the event carries an identity, `user` agrees with it, and a sign-in stores the bare identity with no profile fields |
| `AuthContext.Enrich` | context.js:32-35 | enrichment never changes `isAuthenticated`; with no document nothing changes; with a document `user` is present, carries its `username`, `profileUrl` and `userId`, and takes its identity fields from the captured value |
| `AuthContext.FlagFollowsLastEvent` | context.js:14-24 | over any trace of events and fetches, `isAuthenticated` is decided by the latest identity event alone and is unchanged before the first; if that event carried an identity, `user` is present |
| `AuthContext.NoEventYet` | context.js:14-24 | a trace has no latest identity event exactly when it contains no identity event |
| `AuthContext.PendingOnlyBeforeFirstEvent` | context.js:9-24 | from mount, in any trace where fetches follow sign-ins, `isAuthenticated` is `undefined` only for the empty trace, and `user` is then null |
| `AuthContext.EventRestoresAgreement` | context.js:16-23 | after any trace that ends in an identity event, `isAuthenticated == true` holds exactly when `user` is present |
| `AuthContext.SignOutRaceBreaksAgreement` | context.js:14-35 | sign-in, sign-out, then a late profile fetch yields `isAuthenticated == false` with a user present |
| `AuthContext.LateFetchOverlaysPreviousUser` | context.js:14-35 | sign-in of A, sign-in of B, then A's late profile fetch leaves B signed in with A's profile fields on `user` |
| `AuthContext.MountTimeCaptureDropsIdentity` | context.js:13-36 | enrichment through the mount-time closure, which captured `null`, leaves a user with only the three profile fields |
| `AuthContext.RegisteredProfileServesLaterSignIn` | context.js:65-69 | the document written by a successful register is what a later sign-in event's enrichment overlays onto `user` |
| `AuthContext.UseAuth` | context.js:86-93 | `useAuth` yields the provider's value when there is one, and otherwise fails with the fixed "must be wrapped" message |
| `AuthContext.AuthContextProvider.constructor` | context.js:9-10 | at mount, `user` is null and `isAuthenticated` is `undefined` |
| `AuthContext.AuthContextProvider.OnAuthEvent` | context.js:14-24 | the callback moves the state as `OnEvent` does, leaves the flag agreeing with `user`, and asks for the profile of the event's uid only when there is an identity |
| `AuthContext.AuthContextProvider.ApplyProfile` | context.js:28-36 | `user` changes only when the document exists, and then becomes the document's three fields overlaid on the mount-time `null`, with no identity fields; `isAuthenticated` is outside its frame |
| `AuthContext.AuthContextProvider.Login` | context.js:38-48 | success exactly when sign-in succeeds, with no message; otherwise `success: false` and the login translation of the error message; it changes no provider state |
| `AuthContext.AuthContextProvider.Logout` | context.js:49-56 | success exactly when sign-out succeeds; otherwise the raw message and the error itself, untranslated |
| `AuthContext.AuthContextProvider.Register` | context.js:57-77 | success exactly when sign-up and the document write both succeed; then the store gains `{username, profileUrl, userId: uid}` under the uid and `data` is the identity; on any failure the store is unchanged and the message is the register translation of the failing call's error |

## Left out

- The Firebase SDK calls are external network and storage calls. Only their outcomes are inputs, so `email` and `password` do not appear.
- The React mechanics are not modelled: `createContext`, the `Provider` element, the `useEffect` subscription and its unsubscribe on unmount. They are framework lifecycle.
- Concurrency is modelled only as interleavings of whole actions in `Run`. Each action is an identity event or a settled fetch. Promise scheduling itself is not modelled.
- A rejected `getDoc` is an unhandled rejection in `updateUserData`. The state is unchanged, which is what happens when no fetch result is applied, so it has no action of its own.
- The `console.log` in `register` is output only.
- `getDoc` is modelled as a map lookup (`Fetch`) on the `users` collection; the store itself is external.
- The registration session's own enrichment is not covered: `createUserWithEmailAndPassword` signs the new user in, and the resulting fetch may run before `setDoc` settles and miss the document. `RegisteredProfileServesLaterSignIn` covers only a sign-in after the write.
- Strings are sequences of Unicode scalar values, while JavaScript's `includes` works on UTF-16 code units. The three codes are ASCII, so the translation is unaffected.
- `Identity` keeps only `uid` of Firebase's user object, the one field the provider reads. The other fields are carried unchanged until an enrichment replaces the user, and the model does not need them.
- The commented-out refactor proposals at `context.js:95-162` are not executed code.
- `ChatList.js`, `ChatRoomHeader.js` and `CustomMenuItems.js` are not part of this model. They are presentational components: float-based sizing, random list keys, and no state of their own.
