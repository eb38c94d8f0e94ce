# LegalIQ front-end core, modelled in Dafny

This project models the logic of the LegalIQ web front-end that is more than markup:

- the chained document-store wrapper `db` (`collection → doc → collection …`, `add`, `get`, `set`, `update`, the `FieldValue` helpers);
- the chat-history append entry point `updateChatHistory`;
- the session provider (`currentUser`, `loading`, its operations and the identity-service notification);
- the sign-up form (minimum password length, error-code messages, close on success);
- the header's user labels and `closeMenu`;
- the translation tables: the merge of the keyed sections and the transposition into per-language tables.

One Dafny module per source file:

| file | module | source |
|---|---|---|
| `wrappers.dfy` | `Wrappers` | `Option`, `Result`, JavaScript truthiness of an optional string |
| `store_adapter.dfy` | `StoreAdapter` | services/firebaseConfig.ts |
| `chat_history.dfy` | `ChatHistory` | services/firestoreService.ts |
| `auth_context.dfy` | `AuthContext` | contexts/AuthContext.tsx |
| `sign_up_modal.dfy` | `SignUpModal` | components/SignUpModal.tsx |
| `header.dfy` | `Header` | components/Header.tsx |
| `translation_types.dfy` | `TranslationTypes` | translations/types.ts |
| `translations.dfy` | `Translations` | translations.ts |

How the outside world appears:

- **Store handles** are values (`CollectionHandle`, `DocHandle`, `AddedDoc`) bound to a path. Building a handle issues no store call. It returns the handle, or the error the store's `collection()` and `doc()` throw for a path with the wrong number of segments: a collection path has an odd number of non-empty `/`-separated segments, a document path an even number. Each store operation returns the one delegate call it makes, as a `StoreCall` value (`GetDoc`, `SetDoc`, `UpdateDoc`, `AddDoc`).
- A member the source's handle object lacks (`get` on the id-less handle) is a `TypeError` in JavaScript. The model returns `Failure(NotAFunction(...))` for it.
- **The document store** is `ChatHistory.RecordingStore`, which records every call issued to it. Whether the store rejects a call is a parameter.
- **The identity service** is `AuthContext.IdentityService`, which records every call the provider issues. Its answers are method parameters: the credential from account creation, the profile-update error, `auth.currentUser` after the awaits, and the sign-in results.
- **React state** becomes class fields. `AuthProvider` has `currentUser` and `loading`, plus `subscribed` for the mount effect's listener. `SignUpForm` has `error` and a count of `onClose` calls. `HeaderHost` has the `isMobileMenuOpen` prop and the record of the callbacks invoked.
- **The session state machine** has a reference definition, `Step`/`Run`, over `Session(currentUser, loading)`. The provider's methods are proved to follow it. The lemmas about `Run` state the properties over every sequence of events.

What the code does, in a few places where it is easy to assume more:

- `logIn`, `logOut` and `signInWithGoogle` pass the identity service's answer through unchanged and classify no errors. The error-code mapping lives in the sign-up form.
- Every notification sets `loading` to false, not only the first. The state reached is the same.
- After `signUp`, `currentUser` becomes whatever the identity service reports as its current account (`auth.currentUser`).
- `updateChatHistory` builds the document reference before its `try`, so a user or analysis id with a `/` in it can make the reference check throw, and the returned promise rejects with no store call and no log line.
- The model's arguments are values, so `updateChatHistory` cannot change the caller's `newMessages`.
- The id-less doc handle's `collection(subPath)` builds `path/subPath`, with no id segment. The chained `add` result builds `path/newId/subPath`.

## Model

| member | source | states |
|---|---|---|
| `StoreAdapter.Collection` | services/firebaseConfig.ts:66-67 | `db.collection(path)` succeeds exactly when `path` has an odd number of segments, and the handle is bound to exactly `path`; otherwise it fails with the invalid-collection-path error |
| `StoreAdapter.Doc` | services/firebaseConfig.ts:70-89 | a missing or empty id gives the id-less handle on the same collection path and checks nothing. A present id is checked by the store's `doc()`: the handle is bound to that id exactly when `path/id` has an even number of segments |
| `StoreAdapter.SubCollectionPath` | services/firebaseConfig.ts:74-75 | on a bound handle `collection(s)` builds `p/id/s`; on the id-less handle, `p/s` with no id segment (line 98) |
| `StoreAdapter.SubCollection` | services/firebaseConfig.ts:74-98 | `collection(s)` on a doc handle succeeds exactly when the path it builds is a collection path, and is then bound to it; otherwise it fails with the invalid-collection-path error for that path |
| `StoreAdapter.JoinSegments` | services/firebaseConfig.ts:75 | joining two paths with `/` adds their segment counts |
| `StoreAdapter.Id` | services/firebaseConfig.ts:84 | the `id` property is present exactly on a bound handle, and is then the bound, non-empty id |
| `StoreAdapter.Ref` | services/firebaseConfig.ts:72 | a bound handle's operations use the reference `(p, id)`; the id-less handle has no reference |
| `StoreAdapter.Get` | services/firebaseConfig.ts:82 | `get` exists only on a bound handle and issues exactly one `getDoc` on `(p, id)` |
| `StoreAdapter.Set` | services/firebaseConfig.ts:79-80 | `set` exists only on a bound handle and issues exactly one `setDoc` on `(p, id)` with `data` and `options` unchanged |
| `StoreAdapter.Update` | services/firebaseConfig.ts:77 | `update` exists only on a bound handle and issues exactly one `updateDoc` on `(p, id)` with `data` unchanged |
| `StoreAdapter.CollectionAdd` | services/firebaseConfig.ts:102-103 | `add` on a collection issues exactly one `addDoc` on collection `p` with `data` unchanged |
| `StoreAdapter.DocAdd` | services/firebaseConfig.ts:90-91 | only the id-less doc handle has `add`, and it issues the same single `addDoc` as the collection's `add` |
| `StoreAdapter.Added` | services/firebaseConfig.ts:91-96 | what `add` resolves to carries the collection path of the call and the id the store generated |
| `StoreAdapter.AddedSubCollection` | services/firebaseConfig.ts:94-95 | the added document's `collection(s)` succeeds exactly when `p/newId/s` is a collection path, and is then bound to it; otherwise it fails with the invalid-collection-path error for that path |
| `StoreAdapter.ServerTimestampHelper` | services/firebaseConfig.ts:115-122 | `serverTimestamp()` of both `FieldValue` sets (lines 115 and 122) yields the store's server-timestamp primitive |
| `StoreAdapter.ArrayUnionHelper` | services/firebaseConfig.ts:116-123 | `arrayUnion(...)` of both `FieldValue` sets (lines 116 and 123) hands the primitive the same elements in the same order |
| `StoreAdapter.DescendPath` | services/firebaseConfig.ts:74-75 | nesting composes: a chain of `doc(id).collection(s)` steps that resolves is bound to the root path followed by each step's segments, with an id segment only for a non-empty id |
| `StoreAdapter.DescendResolves` | services/firebaseConfig.ts:66-75 | a chain of single-segment ids and names from a valid collection path always resolves |
| `StoreAdapter.DocThenCollection` | services/firebaseConfig.ts:74-75 | for a valid `p` and single-segment `id` and `s`, `collection(p).doc(id).collection(s)` resolves and is bound to `p/id/s` |
| `StoreAdapter.EmptyIdIsIdLess` | services/firebaseConfig.ts:71-99 | `doc("")` equals `doc()` and always succeeds; it offers `add` but neither `get`, `set` nor `update` |
| `StoreAdapter.AddedThenCollection` | services/firebaseConfig.ts:102-108 | the sub-collection of a freshly added document is the one reached by `doc(newId).collection(s)`, i.e. `p/newId/s` |
| `StoreAdapter.IdLessSubCollectionRejected` | services/firebaseConfig.ts:98 | on a valid collection path `p` and a single-segment `s`, the id-less handle's `collection(s)` always fails: `p/s` has an even number of segments |
| `StoreAdapter.SubCollectionWithAutoId` | services/firebaseConfig.ts:98 | corrected `collection(s)`: on a bound handle it is the source's; on the id-less handle it places `s` under a store-minted id, as a bound handle with that id would |
| `StoreAdapter.AutoIdSubCollectionResolves` | services/firebaseConfig.ts:88-98 | with the correction, `collection(p).doc().collection(s)` resolves and is bound to `p/autoId/s`, and `collection(p).doc()` keeps its `add` |
| `ChatHistory.ValidArguments` | services/firestoreService.ts:16 | the guard: a non-empty user id, a non-empty analysis id and at least one message |
| `ChatHistory.AnalysisHandle` | services/firestoreService.ts:21 | the chained reference, when it resolves, is bound to collection `users/{userId}/analyses` and to `analysisId` |
| `ChatHistory.AnalysisHandleResolves` | services/firestoreService.ts:21 | for present ids the reference resolves if and only if both ids have an odd number of segments; otherwise building it fails with the invalid-document-path error |
| `ChatHistory.PlainIdsResolve` | services/firestoreService.ts:21 | ids without `/` always give the reference to `users/{userId}/analyses/{analysisId}` |
| `ChatHistory.ChatHistoryPayload` | services/firestoreService.ts:24-26 | the payload has the single field `chatHistory`, an array-union of the new messages in order |
| `ChatHistory.Planned` | services/firestoreService.ts:16-26 | it returns early exactly on invalid arguments. With valid arguments it rejects exactly when the reference cannot be built, with that error. Otherwise it sends one `update` on `users/{userId}/analyses/{analysisId}` with the `chatHistory` payload |
| `ChatHistory.PlainIdsSend` | services/firestoreService.ts:16-26 | with ids without `/` and at least one message, exactly one update is sent, to `users/{userId}/analyses/{analysisId}` |
| `ChatHistory.UpdateChatHistory` | services/firestoreService.ts:11-31 | invalid arguments: no store call and a warning. A reference that cannot be built: no store call, no log, and a rejected promise. Otherwise exactly one recorded `update` with that target and payload; a store failure only logs an error |
| `AuthContext.Step` | contexts/AuthContext.tsx:83-86 | every event replaces `currentUser` with the value it carries; a notification sets `loading` to false, and the sign-up refresh leaves `loading` alone |
| `AuthContext.LoadingNeverReturns` | contexts/AuthContext.tsx:50-86 | once `loading` is false, no sequence of events makes it true again |
| `AuthContext.LoadingUntilNotified` | contexts/AuthContext.tsx:83-86 | after any events, `loading` is true if and only if it was true and no notification arrived |
| `AuthContext.RendersChildren` | contexts/AuthContext.tsx:102 | the provider renders its children exactly when `loading` is false |
| `AuthContext.RendersAfterFirstNotification` | contexts/AuthContext.tsx:100-103 | from the initial state, children are rendered if and only if some notification has arrived |
| `AuthContext.LastEventDecidesUser` | contexts/AuthContext.tsx:53-86 | the current user is the one carried by the last notification or refresh, and is unchanged when there was none |
| `AuthContext.UserClearedOnlyByEvent` | contexts/AuthContext.tsx:70-86 | a signed-in user becomes null only through an event that carries null; `logOut` cannot clear it |
| `AuthContext.SignUpCalls` | contexts/AuthContext.tsx:55-58 | `signUp` first creates the account with `(email, password)`. It then calls `updateProfile` with `displayName` on the credential's user if and only if the credential carries a user |
| `AuthContext.SignUpOutcome` | contexts/AuthContext.tsx:53-62 | `signUp` succeeds if and only if account creation succeeds and the profile update, when made, succeeds. On success it returns the creation credential; otherwise it returns the first failure |
| `AuthContext.UseAuth` | contexts/AuthContext.tsx:37-43 | `useAuth` fails with its fixed message if and only if no provider value is present; otherwise it returns that value |
| `AuthContext.AuthProvider.constructor` | contexts/AuthContext.tsx:50-51 | the provider starts with `currentUser = null`, `loading = true` and no listener |
| `AuthContext.AuthProvider.Mount` | contexts/AuthContext.tsx:81-83 | the mount effect subscribes once and leaves the session unchanged |
| `AuthContext.AuthProvider.Unmount` | contexts/AuthContext.tsx:88 | the effect's cleanup releases the subscription and leaves the session unchanged |
| `AuthContext.AuthProvider.OnAuthStateChanged` | contexts/AuthContext.tsx:83-86 | while subscribed, a notification moves the session by `Step`; after teardown it changes nothing |
| `AuthContext.AuthProvider.SignUp` | contexts/AuthContext.tsx:53-63 | issues exactly the calls of `SignUpCalls` and returns `SignUpOutcome`. On success it sets `currentUser` to the service's current account (a `Step` by the refresh). On failure the session is unchanged |
| `AuthContext.AuthProvider.LogIn` | contexts/AuthContext.tsx:65-68 | one email/password sign-in call, its answer returned, the provider's state untouched |
| `AuthContext.AuthProvider.LogOut` | contexts/AuthContext.tsx:70-73 | one sign-out call, its answer returned, the provider's state untouched (the user is not cleared here) |
| `AuthContext.AuthProvider.SignInWithGoogle` | contexts/AuthContext.tsx:75-79 | one popup sign-in with a Google provider, its answer returned, the provider's state untouched |
| `SignUpModal.SignUpErrorMessage` | components/SignUpModal.tsx:39-52 | the three known codes map to their own messages, each if and only if that code is given. Every other code maps to the generic message, and no message is empty |
| `SignUpModal.Render` | components/SignUpModal.tsx:67-89 | a closed modal renders nothing; an open one shows the alert if and only if the error is non-empty, and shows that error |
| `SignUpModal.SignUpForm.constructor` | components/SignUpModal.tsx:25 | the form starts with an empty error and no close requests |
| `SignUpModal.SignUpForm.HandleSubmit` | components/SignUpModal.tsx:27-54 | a password shorter than 6 sets the length message and calls nothing. Otherwise `signUp` is called with `(email, password, name)`. On success the error is cleared and `onClose` called once; on failure `onClose` is not called and the error is the code's message |
| `SignUpModal.SignUpForm.HandleGoogleSignUp` | components/SignUpModal.tsx:56-65 | one popup sign-in. Success clears the error and calls `onClose` once; any failure sets the one fixed Google message |
| `Header.LocalPart` | components/Header.tsx:61 | `split('@')[0]` is a prefix of the address without `@`, followed in the address by `@` unless it is the whole address |
| `Header.DesktopLabel` | components/Header.tsx:61 | the desktop label is the display name when it is set; otherwise it is the part of the title before its first `@`, the whole title when it has none |
| `Header.MobileLabel` | components/Header.tsx:123 | the mobile label is the display name when it is set, otherwise the full title |
| `Header.Title` | components/Header.tsx:59 | the `title` attribute of both labels is the email, or `''` without one |
| `Header.LocalPartOfAddress` | components/Header.tsx:61 | the local part of `name@domain` is `name` when `name` has no `@` |
| `Header.LocalPartWithoutAt` | components/Header.tsx:61 | an address without `@` is its own local part |
| `Header.DesktopLabelCases` | components/Header.tsx:61 | the desktop label is the display name if it is non-empty. Otherwise it is the part of the email before its first `@`, the whole email if it has no `@`, or nothing without an email |
| `Header.LabelsAgree` | components/Header.tsx:59-123 | with a display name both labels show it. Without one, the mobile label is the full email of the title and the desktop label a prefix of it. The title is the email or `''` |
| `Header.HeaderHost.CloseMenu` | components/Header.tsx:24-28 | afterwards the menu is closed; it toggles exactly when the menu was open, so a closed menu is left alone |
| `Header.ButtonCallback` | components/Header.tsx:125-132 | the logout, log-in and sign-up buttons of the mobile menu invoke `onLogout`, `onOpenLoginModal` and `onOpenSignUpModal` respectively, each callback for its button only, and never the menu toggle itself |
| `Header.HeaderHost.MobileAction` | components/Header.tsx:125-132 | a mobile-menu action (logout, log in, sign up) invokes its callback and then `closeMenu` |
| `TranslationTypes.ParseLanguage` | translations/types.ts:1 | a string is a `Language` if and only if it is one of `en, hi, bn, mr, te`, and then its tag is that string |
| `TranslationTypes.CodeRoundTrip` | translations/types.ts:1 | language tags are distinct and parse back to their language |
| `TranslationTypes.LanguagesEnumerate` | translations/types.ts:3 | `LANGUAGES` is exactly `en, hi, bn, mr, te` in that order, without duplicates; every `Language` is in it |
| `TranslationTypes.EntryExtensional` | translations/types.ts:5 | a section entry is determined by its strings for the five languages |
| `Translations.Combine` | translations.ts:16-27 | the spread keeps every key of every section, and the last section overrides the others on its keys |
| `Translations.CombineKeys` | translations.ts:16-27 | the merged key set is the union of the sections' key sets |
| `Translations.CombineLaterWins` | translations.ts:16-27 | a key takes its entry from the last section spread that has it |
| `Translations.CombinedTranslations` | translations.ts:16-27 | `combinedTranslations` keeps every common key, and `aiFeaturesSection`, spread last, overrides the others |
| `Translations.CombinedTranslationsKeys` | translations.ts:16-27 | `combinedTranslations` has exactly the keys of the ten sections, and `aiFeaturesSection`, spread last, wins every shared key |
| `Translations.BuildTranslations` | translations.ts:31-41 | the table has a row for every language of `LANGUAGES` and only those. Each row has exactly the keys of `combinedTranslations`, and `translations[l][k] == combinedTranslations[k][l]` |
| `Translations.TransposeRoundTrip` | translations.ts:31-41 | reading the transposed table back by key gives `combinedTranslations` again |
| `Translations.TransposeUnique` | translations.ts:31-41 | the transposed table is determined by `combinedTranslations` |

## Left out

- Firebase initialisation and configuration (environment variables, the init guard, the named database, `auth = firebase.auth()`): configuration and I/O.
- The store's and the identity service's own behaviour: account creation, popups, persistence, snapshots, whether `arrayUnion` de-duplicates, whether `update` fails on a missing document, which id `addDoc` generates. They appear only as recorded calls and as answers passed in.
- `StoreAdapter.Id`: the SDK reports the last path segment as a reference's id. The model takes the id as given.
- `StoreAdapter.Collection`: the store also rejects a path that contains `//`; the model checks only the segment count, so it accepts such a path.
- `StoreAdapter.Doc`: the store rejects an id that contains `//`; the model accepts it when the segment count is even.
- `StoreAdapter.SubCollection`: a built path that contains `//`, such as one from a sub-collection name `"/x"`, is accepted on its segment count, where the store rejects it.
- `StoreAdapter.AddedSubCollection`: `p/newId/s` that contains `//` is accepted on its segment count, where the store rejects it.
- `ChatHistory.AnalysisHandle`: ids that make the reference path contain `//` are accepted on their segment counts, where the store rejects them.
- `ChatHistory.AnalysisHandleResolves`: its "resolves if and only if both ids have an odd number of segments" counts segments only. An id such as `a/` has one segment, so the lemma says the reference resolves, but the store throws on the `//` in `users/a//analyses`. For ids that give no `//`, the equivalence is the store's.
- `AuthContext.AuthProvider.SignUp`: the model does not promise that the account `currentUser` is set to carries the new display name; that depends on the identity service.
- Promises, `await` and scheduling: each operation is one atomic step. Re-rendering, and a notification that arrives between the awaits of `signUp`, are not modelled.
- `console.warn` and `console.error`: recorded only as `ChatHistory.LogLine`.
- `hooks/useTranslations` (lookup and `{placeholder}` substitution), the `App` component that owns `isMobileMenuOpen`, and the `Navbar` are not part of this model. `toggleMobileMenu` is modelled as a flip of the menu state.
- The string contents of the ten translation sections: data, not logic. `CombinedTranslations` takes them as a parameter.
- Markup, CSS, icons and modal layout of the sign-up form and the header.
- `SignUpModal.SignUpForm.HandleSubmit`: JavaScript's `password.length` counts UTF-16 code units; the model counts characters.
- `Header.DesktopLabelCases`: an `undefined` label (no display name, no email) renders as nothing; the model writes it as the empty string. The same holds for `Header.LabelsAgree`.
- Errors without a code: an error without a `code` falls to the generic message in the source; the model always carries a code string, so such an error is any code outside the three known ones.

## Findings

| source | as written | input that shows it | evidently intended | confidence | as-written member | corrected member |
|---|---|---|---|---|---|---|
| services/firebaseConfig.ts:98 | the id-less handle's `collection(subPath)` passes `${path}/${subPath}` to `db.collection`, which has an even number of segments whenever `path` is a collection path and `subPath` is a single segment (more generally, has an odd number of segments) | `db.collection('users').doc().collection('analyses')` builds `users/analyses`, two segments, and `collection()` throws | a sub-collection of a document with a minted id, `path/autoId/subPath`, as an argument-less `doc()` gives in the chained API the wrapper imitates; the id-less handle keeps its `add` | medium; not executed | `StoreAdapter.IdLessSubCollectionRejected` | `StoreAdapter.SubCollectionWithAutoId` |
