# SecureShare: verified model

SecureShare hands out one-time secrets. A sender seals a text in the browser, the server keeps
the ciphertext in Redis and a status row in PostgreSQL, and the first holder of the link with
the right passphrase gets the bytes, which are destroyed in the same step. Inbound, an employee
sends a request link; a client seals a reply to the employee's public key; the employee reads it
once.

The project models the parts of the repository whose correctness is not visible from any one
function, and proves what they keep.

* **The back end as a concurrent protocol** (`Domain`, `Store`, `Protocol`, `Invariants`,
  `Effects`, `Steps`, `Pending`, `Theorems`, `Origins`, `Destroyed`). Every Redis command and every SQL statement of
  every handler is one step of one thread; seconds, expiries and the sweeper are steps too. A
  run is any sequence of steps of any number of handlers. Invariants are kept by rely and
  guarantee, and the theorems hold after every run.
* **Handlers one at a time** (`Atomic`, `Promises`, `Uninterrupted`, `Serial`, `Server`). Each
  handler run alone is proved to be a run of the protocol that ends where one big-step function
  says. `Promises` states, on the two stores alone, what each handler answers and when, and all
  that it leaves behind. Handler-atomic runs keep more: the row tells the whole story of its
  secret. `Server` is the imperative back end, a class that updates Redis and two tables in
  place, proved to do the same and to keep those promises.
* **What does not hold, and exactly when it does** (`Races`, with `Continuations`, `Delivery`,
  `Requests`, `Replies` and `Exposure`): runs that break a claim the code's comments make, and for each the
  condition, over all runs, under which it holds.
* **The inbound key protocol** (`Crypto`, `Keys`, `Vault`, `Employee`, `Inbound`): one employee's
  keypair across any interleaving of browser tabs, password changes, administrator resets and
  domain password changes, up to the theorem that nothing is destroyed that cannot be read.
* **Smaller cores**: sessions (`Sessions`), the rate limiter (`Limiter`), login lockout
  (`Lockout`), the directory filter and ranking (`Ldap`), the activity feed (`Paging`), base64
  (`Base64`), the outbound envelope (`Envelope`), links in a decrypted text (`Linkify`) and the
  reveal page's tickets (`RevealPage`).

Cryptography is a parameter: a `Suite` (`Crypto`) or `Browser` (`Envelope`) is any family of
functions that meets the stated laws, and a lemma shows that such a family exists. SHA-256 of
link tokens and verifiers is a free symbol.

`dafny verify dfyconfig.toml` checks everything.

## Where the code and its documentation disagree

* `Backend/store.py:49-51` says `take_blob` has one caller; it has two,
  `Backend/routes_secrets.py:114` and `Backend/routes_requests.py:281`. The model follows the code.
* `Backend/routes_requests.py:226-228` says that a reply is readable only by its owner. The public
  routes serve it like any link to whoever names it with the path segment `"reply:" + rid`, which
  the holder of the request token can compute, and its row has no verifier
  (`Races.ReplyToStranger`). `Exposure.StrangerIffNoVerifier` says exactly which secrets can go to
  a caller who shows nothing; what a reader needs to decrypt a reply is the employee's key.
* "Delivered implies viewed" is false of interleaved reveals (`Races.DeliveredYetExpired`).
  `Delivery.ViewedForGood` says exactly when a delivered link ends as viewed; a delivered link is
  always closed (`Theorems.DeliveredIsClosed`), and one handler at a time it is always viewed
  (`Serial.ViewedIffDelivered`).
* "At most max_attempts wrong passphrases are checked" is false of interleaved reveals
  (`Races.GuessedPastTheLimit`). While a secret can still be taken it fails exactly when two or
  more handlers have counted a last failure and not yet dropped the key, and then by exactly their
  number less one (`Theorems.GuessesExactly`); one handler at a time it holds
  (`Serial.WrongVerifierCosts`).
* "A reply is delivered once, and it is the accepted one" is false of interleaved submissions
  (`Races.ReplyReadTwice`). From the moment the request is fulfilled it holds for ever exactly when
  no submission that found the request open is still in flight (`Replies.OnceForGood`). Which bytes
  are then the reply is decided by the last put before the row is inserted
  (`Replies.LastPutIsRead`): the accepted ones, unless a submission that is later refused stored
  its own in between. One handler at a time the claim holds (`Serial.ReplyOnce`).
* `revoke_request` refuses a request that is not open, but its UPDATE
  (`Backend/routes_requests.py:137-139`) looks at no status: a request that was fulfilled meanwhile
  becomes withdrawn, and the owner of the accepted reply is refused it. A fulfilled request stays fulfilled exactly when no handler that
  found it open is about to withdraw it (`Requests.StatusForGood`).
* `take_reply` never looks at the reply's row, so even one at a time a reply that was marked
  expired can still be delivered and stays marked expired (`Serial.ReplyMarkedIffActive` says
  exactly when).
* "Sign out everywhere" misses a session whose age is exactly the absolute cap, for what is left
  of that second, where its user's set is gone: the cap is tested with `>` while the set expires
  at the cap (`Sessions.RevokedExactly`, `Sessions.EscapeNeeds`).

## Model

| member | source | states |
|---|---|---|
| Store.Client.Take | Backend/store.py:49-51 | GETDEL: the bytes go to one caller, the key is gone, no other key changes |
| Store.Client.Drop | Backend/store.py:54-56 | the bytes and the failure counter are gone, and no other key or counter changes |
| Store.Client.Bump | Backend/store.py:63-68 | counts one more failure of this secret and of no other; the first one starts the counter's time to live and no later one extends it |
| Store.Client.Issue | Backend/store.py:73-76 | the ticket answers with this secret for exactly 300 seconds, and every other ticket as before |
| Store.Client.Consume | Backend/store.py:79-81 | a ticket answers once and is gone, and every other ticket answers as before |
| Store.Client.Put | Backend/store.py:45-46 | these bytes are what a read finds for exactly their time to live; every other key reads as before at any later second |
| Store.Client.Exists | Backend/store.py:59-60 | true exactly when the bytes can still be taken |
| Store.PutLasts | Backend/store.py:45-46 | after any number of seconds the bytes are there exactly if the time to live is not over, and other keys as without the put |
| Store.IssueLasts | Backend/store.py:73-76 | the same of a ticket, with 300 seconds |
| Store.BumpLasts | Backend/store.py:63-68 | the same of the failure counter, whose time the first failure alone sets |
| Effects.SweepKeeps | Backend/main.py:46-49 | a sweeper pass at any moment keeps the stores' invariant and the promise other handlers rely on |
| Effects.PassKeeps | Backend/store.py:45-76 | so does a second in which keys expire |
| Invariants.Stable | Backend/routes_secrets.py:80-125 | whatever the others do, what a handler in flight has read and still relies on stays true |
| Steps.EffectKeeps | Backend/routes_requests.py:199-258 | every command of every handler keeps the stores' invariant and the promise to the others |
| Steps.StepKeeps | Backend/routes_secrets.py:80-125 | one step of one handler among any others keeps the whole invariant |
| Steps.ActionKeeps | Backend/main.py:41-56 | so does every action: calls coming in, steps, sweeper passes and seconds |
| Steps.RunKeeps | Backend/routes_sender.py:62-109 | the invariant holds after every run of every interleaving |
| Theorems.BlobsConserved | Backend/store.py:45-60 | over every run, for every key: puts are takes, drops, expiries and overwrites, and one more if the bytes are there |
| Theorems.OutboundOnce | Backend/routes_secrets.py:114-117 | a link's bytes are stored at most once and leave the store at most once, however many reveals race |
| Theorems.GoneStaysGone | Backend/routes_sender.py:77-90 | once a link's bytes are gone they never come back and nothing more is ever given out |
| Theorems.NoDeliveryAfterDrop | Backend/routes_secrets.py:104-109 | nothing is given out after a drop that destroyed or revoked |
| Theorems.ServedToTheRight | Backend/routes_secrets.py:98-125 | bytes go out only to staff who own the reply or are administrators, or to a holder who showed the preimage of the row's verifier if it has one; no reply's row has one |
| Theorems.RepliesAreSubmissions | Backend/routes_requests.py:223-235 | whatever is stored or has been served as the reply to a request is some client's submission to it |
| Theorems.StoreAndRowAgree | Backend/routes_secrets.py:59-64 | at rest a live row has its bytes; a closed link never has any, and an expired one keeps them only past its deadline |
| Theorems.DeliveredIsClosed | Backend/routes_secrets.py:114-121 | at rest, a link that was delivered is not active |
| Theorems.ViewedWasDelivered | Backend/routes_secrets.py:119-120 | viewed means that the bytes were taken before |
| Theorems.NeverReopened | Backend/routes_secrets.py:41-45 | no row ever goes back to active |
| Theorems.ClosedOnlyRevoked | Backend/routes_sender.py:140-144 | a closed row changes its status only to revoked, only by revoke_secret, only for its owner or an administrator |
| Theorems.RowChanges | Backend/routes_secrets.py:41-45 | over every run, every change of a row's status: revoked only by the last statement of a revocation by its owner or an administrator; while active, viewed only by the handler that has the bytes in hand, closed by a handler's own last statement, or swept after its deadline |
| Theorems.SweptClean | Backend/main.py:46-49 | right after any sweep no active row is past its deadline and no other row has changed, and what was past its deadline is never active again |
| Destroyed.DestroyedIsUsedUp | Backend/routes_secrets.py:99-109 | over every run a secret is destroyed only after as many wrong verifiers as its row allows |
| Origins.LinksAreCreated | Backend/routes_sender.py:57-98 | over every run a link's row and all that is ever stored or served for it come from one and the same call: owner, digest of the verifier, attempts, deadline and bytes |
| Origins.RequestsAreAsked | Backend/routes_requests.py:64-94 | over every run every request carries the caller, the whole key and the clamped deadline of one create_request of that run |
| Delivery.ViewedForGood | Backend/routes_secrets.py:119-120 | a delivered link is viewed at every later rest exactly when, at the marking statement, its row was active and no handler that had found it active was about to revoke it |
| Delivery.AlwaysSole | Backend/routes_secrets.py:114-120 | on every run at most one handler has a link's bytes in hand, and until it is done the row is not viewed |
| Delivery.SealedStays | Backend/routes_sender.py:134-144 | viewed with no revocation under way stays viewed on every continuation |
| Continuations.RestNow | Backend/routes_secrets.py:80-125 | from every state of every run all handlers can be brought to their end |
| Replies.AcceptedIsRead | Backend/routes_requests.py:233-247 | on every run, a reply is taken at most once and all that is stored or served for it is the accepted bytes, as long as no submission stores its own after the accepted one stored its |
| Replies.LateIsRead | Backend/routes_requests.py:233-247 | a submission that stores its bytes when the row is there is refused, and until they are overwritten whoever takes the reply takes them |
| Replies.LateIsHandedOut | Backend/routes_requests.py:276-289 | once the request is fulfilled its owner can be given whatever is stored, at once |
| Replies.LastPutIsRead | Backend/routes_requests.py:233-247 | the bytes put last while there is no row are the reply, taken at most once, be they of a submission that is refused later |
| Replies.OnceForGood | Backend/routes_requests.py:233-289 | once the request is fulfilled and its bytes are stored or taken, "delivered once and as these bytes" holds on every continuation exactly when no submission that found the request open, with bytes it may store, is in flight |
| Replies.TwiceNeedsRefused | Backend/routes_requests.py:233-281 | a reply is taken more than once only where a submission stored its bytes between two takes, with the row already there |
| Replies.LinkServesItsBytes | Backend/routes_sender.py:76-90 | whatever is served for a link, at any time, is what was stored for it, at any time |
| Exposure.StrangerIffNoVerifier | Backend/routes_secrets.py:98-125 | from every reachable state a live secret can go to a caller who shows nothing exactly when its row has no verifier |
| Exposure.RepliesAreOpen | Backend/routes_requests.py:226-247 | so every waiting reply can |
| Theorems.CounterCountsAll | Backend/store.py:63-68 | while a link can still be opened its Redis counter is the number of wrong verifiers ever sent: it never dies early |
| Theorems.GuessesExactly | Backend/routes_secrets.py:99-109 | while the bytes can still be taken, with n handlers that counted a last failure and have yet to drop the key: wrong verifiers are below max_attempts exactly when n is 0, are max_attempts - 1 + n otherwise, and exceed max_attempts exactly when n is 2 or more |
| Theorems.BudgetHolds | Backend/routes_secrets.py:99-109 | so at rest a secret that can still be opened has been tried wrongly fewer than max_attempts times |
| Theorems.TicketsBoundChecks | Backend/store.py:73-81 | verifier checks of a secret are at most the tickets issued for it, and each ticket was spent at most once |
| Theorems.FulfilledHasReply | Backend/routes_requests.py:231-252 | fulfilled names the request's own reply, whose row has the request's owner and deadline |
| Theorems.AcceptedAtMostOnce | Backend/routes_requests.py:233-252 | however many clients submit at once, at most one is told that it was accepted |
| Requests.NeverOpenAgain | Backend/routes_requests.py:125-163 | a request that was fulfilled, withdrawn or has expired is never open again |
| Requests.StatusForGood | Backend/routes_requests.py:125-140 | a fulfilled (or expired) request stays so on every continuation exactly when no handler that found it open is about to withdraw it |
| Requests.RequestChanges | Backend/routes_requests.py:125-252 | over every run, every change of a request's status: withdrawn only by the last statement of a withdrawal by its owner or an administrator, fulfilled or expired only while open, expired only after its deadline |
| Theorems.RequestPinned | Backend/routes_requests.py:84-93 | a request keeps its owner, its deadline and its pinned key for ever |
| Pending.FulfilsAfterInsert | Backend/routes_requests.py:234-252 | only the submission whose row was inserted goes on to fulfil the request |
| Pending.AcceptCount | Backend/routes_requests.py:248-258 | a submission is counted as accepted exactly when it fulfils |
| Uninterrupted.HandleIsRun | Backend/routes_secrets.py:50-125 | every handler run alone is a run of the protocol that ends exactly where its big step says |
| Atomic.RevealAlone | Backend/routes_secrets.py:80-125 | the interleaved steps of a reveal, taken in a row, are the reveal as one function |
| Atomic.MetaAlone | Backend/routes_secrets.py:50-75 | the same for the metadata request |
| Atomic.CreateAlone | Backend/routes_sender.py:62-109 | the same for creating a secret: key first, row second |
| Atomic.RevokeAlone | Backend/routes_sender.py:128-145 | the same for revoking |
| Atomic.SubmitAlone | Backend/routes_requests.py:199-258 | the same for a client's submission, with its loaded request and its three writes |
| Atomic.ReplyAlone | Backend/routes_requests.py:261-292 | the same for reading a reply |
| Atomic.WithdrawAlone | Backend/routes_requests.py:125-140 | the same for withdrawing a request |
| Promises.CreateDoes | Backend/routes_sender.py:62-109 | what is refused; else the row of the caller with the hashed verifier and the clamped deadline, the bytes up to that deadline, and nothing else |
| Promises.MetaDoes | Backend/routes_secrets.py:50-75 | each answer and when; a ticket for 300 seconds and the attempts left, or the row marked expired, and nothing else |
| Promises.RevealDoes | Backend/routes_secrets.py:80-125 | each answer and when; the ticket is spent whatever comes of it once the row is live; bytes out and viewed, one more failure in both stores, or destroyed at the last |
| Promises.RevokeDoes | Backend/routes_sender.py:128-145 | revoked exactly for the owner or an administrator of an active secret: bytes, counter and status, and nothing else |
| Promises.AskDoes | Backend/routes_requests.py:64-94 | refused exactly without a key; else an open request of the caller with the caller's whole key and the clamped deadline |
| Promises.LoadDoes | Backend/routes_requests.py:145-165 | passes exactly an open request before its deadline, marks one past it, and touches nothing else |
| Promises.ViewDoes | Backend/routes_requests.py:168-195 | an answerable request shows its pinned key |
| Promises.SubmitDoes | Backend/routes_requests.py:199-258 | each answer and when; an accepted submission is stored up to the deadline as a live reply of the request's owner, and fulfils |
| Promises.TakeReplyDoes | Backend/routes_requests.py:261-292 | each answer and when; the bytes out exactly for the owner or an administrator of a fulfilled request while they are there, and the row viewed if it was active |
| Promises.WithdrawDoes | Backend/routes_requests.py:125-140 | withdrawn exactly for the owner or an administrator of an open request, and nothing else |
| Promises.SweepDoes | Backend/main.py:46-49 | exactly the active rows past their deadline become expired |
| Promises.SecondDoes | Backend/store.py:45-76 | a second later exactly the keys whose time has come are gone |
| Serial.SeriallyKeeps | Backend/routes_secrets.py:80-125 | one handler at a time, nothing is ever owed between the two stores |
| Serial.LiveSecretCounts | Backend/routes_secrets.py:99-112 | a live secret's row counter, its Redis counter and the number of wrong verifiers are one number, below the maximum |
| Serial.MetaShows | Backend/routes_secrets.py:50-75 | a live secret always shows its metadata, with max_attempts less the wrong verifiers so far |
| Serial.WrongVerifierCosts | Backend/routes_secrets.py:99-112 | a wrong verifier costs exactly one attempt, and exactly the last allowed one destroys |
| Serial.ViewedIffDelivered | Backend/routes_secrets.py:114-121 | for links, viewed exactly when the bytes were given out |
| Serial.ReplyOnce | Backend/routes_requests.py:233-289 | a reply is stored exactly as often as it was accepted, at most once, which is when its request is fulfilled, and leaves the store at most once |
| Serial.ReplyMarkedIffActive | Backend/routes_requests.py:281-289 | a delivered reply ends as viewed exactly when its row was still active |
| Serial.ClosedForEver | Backend/routes_secrets.py:41-45 | a closed secret keeps its status for ever |
| Races.DeliveredYetExpired | Backend/routes_secrets.py:114-121 | a run of two reveals that delivers the bytes and ends as expired before the deadline |
| Races.GuessedPastTheLimit | Backend/routes_secrets.py:99-109 | a run of two reveals that are both checked on a budget of one, with the bytes still there |
| Races.ReplyReadTwice | Backend/routes_requests.py:231-247 | a run of two submissions whose one accepted reply is read twice, the second time with the bytes that were refused |
| Races.ReplyToStranger | Backend/routes_requests.py:226-247 | a run that hands a reply to a caller who showed nothing |
| Server.ReadCapped | Backend/routes_sender.py:46-57 | answers as if the whole upload were read: too large, empty, or its bytes |
| Server.Backend.constructor | Backend/main.py:41-56 | an empty server is in order |
| Server.Backend.CreateSecret | Backend/routes_sender.py:62-109 | keeps the promise of Promises.CreateDoes in place; the bytes can be taken under the new link |
| Server.Backend.SecretMeta | Backend/routes_secrets.py:50-75 | keeps the promise, shows exactly live secrets with what is left of their budget, and never touches the bytes |
| Server.Backend.RevealSecret | Backend/routes_secrets.py:80-125 | gives the bytes exactly for a live row, a ticket of its own and a matching verifier; then they are gone and the row is viewed |
| Server.Backend.WrongVerifier | Backend/routes_secrets.py:99-112 | the failing branch: count, copy the count, destroy when nothing remains |
| Server.Backend.RevokeSecret | Backend/routes_sender.py:128-145 | revokes exactly an active secret for its owner or an administrator; its bytes are gone |
| Server.Backend.CreateRequest | Backend/routes_requests.py:64-94 | keeps the promise: refused exactly without a key, and otherwise the caller's whole key is pinned |
| Server.Backend.LoadOpenRequest | Backend/routes_requests.py:145-165 | lets through exactly an open request before its deadline, and marks one that is past it |
| Server.Backend.ViewRequest | Backend/routes_requests.py:168-195 | shows the pinned key of exactly an open request before its deadline |
| Server.Backend.SubmitRequest | Backend/routes_requests.py:199-258 | run alone it never hits the primary key; accepted means stored and fulfilled |
| Server.Backend.StoreReply | Backend/routes_requests.py:230-252 | the three writes, and the crash in between when the row is there already |
| Server.Backend.TakeReply | Backend/routes_requests.py:261-292 | hands the stored bytes out, once, exactly to the owner or an administrator of a fulfilled request while they are there |
| Server.Backend.RevokeRequest | Backend/routes_requests.py:125-140 | withdraws exactly an open request for its owner or an administrator, and only that request |
| Server.Backend.SweepPass | Backend/main.py:46-53 | closes exactly the active rows past their deadline, returns exactly those, and changes no other |
| Crypto.SomeSuite | Frontend/src/lib/keys.ts:32-43 | the laws asked of the key functions can be met |
| Keys.UnwrapFinds | Frontend/src/lib/keys.ts:78-85 | whatever password opens a matching bundle finds its one private key |
| Keys.CreateMatches | Frontend/src/lib/keys.ts:46-75 | a new bundle holds the private half of its public key, and its password opens it |
| Keys.RewrapMoves | Frontend/src/lib/keys.ts:100-126 | re-wrapping succeeds exactly when the old password opens; it keeps the keypair and the new password opens it |
| Keys.OpenSealed | Frontend/src/lib/keys.ts:148-195 | what is sealed to a public key opens with its private half: the cuts at 65 and 77 are where the parts were put |
| Keys.SetAt | Frontend/src/lib/keys.ts:169-172 | writes one part of a buffer and nothing else |
| Keys.FillWrapped | Frontend/src/lib/keys.ts:65-67 | the buffer is the IV and then the ciphertext |
| Keys.FillSealed | Frontend/src/lib/keys.ts:169-173 | the buffer is the ephemeral key, the IV and the ciphertext |
| Vault.UnlockDoes | Frontend/src/lib/vault.ts:76-117 | an unlock ends with a matching pair; the tab holds it exactly when the password opens and storage works; an existing key is replaced only by a rotating unlock that cannot open it |
| Vault.MigrateDoes | Frontend/src/lib/vault.ts:130-141 | true exactly when there is a key, the old password opens it and the tab can store it; keeps the keypair; a wrong old password writes nothing |
| Vault.LoginDoes | Frontend/src/lib/auth.tsx:70-91 | a wrong password does nothing; the right one ends with a keypair, the old one whenever it opens or is the domain's, held by the tab exactly when it opens and storage works, and the password kept exactly for a domain key that stays shut |
| Vault.PromptDoes | Frontend/src/lib/vault.ts:165-168 | the prompt never touches an existing key and opens it exactly with its password |
| Vault.ChangeDoes | Frontend/src/pages/ChangePassword.tsx:33-52 | with the right current password the new one signs in and opens the same keypair, which the tab holds if it can; a key it does not open is left as it was; otherwise nothing changes |
| Vault.MoveDoes | Frontend/src/components/KeyMigration.tsx:29-39 | the password is forgotten exactly when the move works, and then the same keypair opens with the password of this sign-in |
| Vault.StartOverDoes | Frontend/src/components/KeyMigration.tsx:41-45 | always ends with the new keypair, opened by the password of this sign-in and held by the tab if it can |
| Vault.TakenIsRead | Frontend/src/pages/Requests.tsx:118-136 | when the page's check lets it take the reply, what was sealed to the pinned key opens |
| Vault.Browser.UnlockVault | Frontend/src/lib/vault.ts:76-117 | the slots and the server's bundle change as the specification says; without allowRotate an existing bundle stays |
| Vault.Browser.Move | Frontend/src/lib/vault.ts:130-141 | migrateKey in place |
| Vault.Browser.Abandon | Frontend/src/lib/vault.ts:147-151 | abandonKey in place |
| Vault.Browser.StashPair | Frontend/src/lib/vault.ts:27-34 | where storage works no password is needed any more and the slots stay a pair; where it is refused nothing changes |
| Vault.Browser.ForgetPair | Frontend/src/lib/vault.ts:36-43 | the password is needed again and no reply can be taken from this tab |
| Vault.Browser.UnlockWithPassword | Frontend/src/lib/vault.ts:165-168 | the unlock prompt, and when it answers true |
| Vault.Browser.SignIn | Frontend/src/lib/auth.tsx:70-91 | sign-in in place: rotation only for local accounts, and the password kept only for a domain key that will not open |
| Vault.Browser.ChangeForm | Frontend/src/pages/ChangePassword.tsx:33-52 | the server's change, the re-wrap and the unlock in order (Vault.ChangeDoes says what they achieve), whether the password has changed, and when the page warns |
| Vault.Browser.MigrateForm | Frontend/src/components/KeyMigration.tsx:29-39 | the migration form in place; it closes exactly when the key was moved, and then the tab holds it |
| Vault.Browser.StartOverForm | Frontend/src/components/KeyMigration.tsx:41-45 | issuing a new key in place |
| Vault.Browser.SignOut | Frontend/src/lib/auth.tsx:98-104 | no reply can be taken from this tab, no password is kept, and the server keeps the key |
| Employee.AlwaysFits | Frontend/src/lib/vault.ts:76-151 | over any interleaving of tabs (opened, shared, duplicated, reloaded), password changes and resets, bundle and slots are always halves of one keypair, and a local password opens its key unless it was reset since |
| Employee.OnlyReplacedBy | Frontend/src/lib/auth.tsx:86-89 | a keypair is replaced only by the button that says so on a domain account, or by the first sign-in after a resetpw that cannot open it |
| Employee.KeyIsKept | Frontend/src/lib/vault.ts:95-116 | with no reset and no starting over the published key is the same for ever |
| Employee.DomainChangeRecovers | Frontend/src/components/KeyMigration.tsx:29-39 | after a domain password change the previous password brings the same key back |
| Employee.LocalDay | Frontend/src/pages/ChangePassword.tsx:33-52 | signing in, changing the password, signing out and signing in with the new one ends with the same key in the tab, and with none in between |
| Employee.DomainSignIn | Frontend/src/lib/auth.tsx:86-91 | after a domain password change the sign-in keeps the shut key and the password for the migration form |
| Employee.DomainRecovers | Frontend/src/components/KeyMigration.tsx:29-45 | from there moving, starting over and the prompt each give the tab the key that they should |
| Employee.ResetThenSignIn | Frontend/src/lib/vault.ts:95-116 | a resetpw signs every tab out; the temporary password then signs in to a key that it opens, the old one if it opened that |
| Inbound.TakenRepliesOpen | Frontend/src/pages/Requests.tsx:94-136 | any run of the stores, any day of tabs, any stale row: if the check lets the tab go on, the bytes served open there to a text that some client sealed to the key with which the employee asked |
| Inbound.PinnedWasAsked | Backend/routes_requests.py:84-93 | the key in any listed row is the one that its owner's create_request carried |
| Inbound.KeptKeyReads | Frontend/src/pages/Requests.tsx:94-136 | with no reset and no starting over since a request was made, any tab that is given a password of the key passes the check and opens every reply sealed for it |
| Inbound.TakesExactly | Frontend/src/pages/Requests.tsx:118-130 | the check goes on exactly when the tab holds the pinned keypair |
| Inbound.ReplyIsSealed | Backend/routes_requests.py:180-196 | all that is handed out for a request was sealed to its pinned key |
| Inbound.SameKeyThroughout | Backend/routes_requests.py:84-93 | what the row showed at any two moments is the same key |
| Sessions.IndexHolds | Backend/auth.py:49-65 | on every run a user's set holds every session below the absolute cap and outlives it |
| Sessions.RevokedExactly | Backend/auth.py:129-134 | right after signing out everywhere or a password change, an older token is accepted for that user exactly when its session is exactly as old as the cap and no longer in the user's set |
| Sessions.RevokedForEver | Backend/auth.py:129-134 | however the run goes on no older token is accepted for that user, but for one of those within the same second |
| Sessions.NewTokenWorks | Backend/routes_auth.py:365-373 | the token that a password change issues is accepted |
| Sessions.CapSecondSurvives | Backend/auth.py:97-106 | a session kept in use until the cap escapes, in the shipped configuration too |
| Sessions.EscapeNeeds | Backend/config.py:59-60 | the configurations in which any session can escape, exactly |
| Sessions.RegularUseLives | Backend/auth.py:95-106 | a session used more often than every idle window less 300 seconds, not signed out and not older than the cap, is never lost |
| Sessions.UnusedLives | Backend/auth.py:49-60 | a session that nobody uses is accepted for exactly the idle window, and no longer than the cap |
| Sessions.LazySliding | Backend/auth.py:102-106 | sliding after a drift of 300 seconds keeps no session an eager store drops, expires at most 300 seconds sooner, and keeps all that an eager store with a window 300 seconds shorter keeps |
| Sessions.EagerResets | Backend/auth.py:104-106 | where nothing drifts, an accepted request puts the expiry at a full window from now |
| Sessions.Keeper.CreateSession | Backend/auth.py:49-65 | session and set in place |
| Sessions.Keeper.LoadSession | Backend/auth.py:79-115 | accepts exactly a stored session no older than the cap |
| Sessions.Keeper.DestroySession | Backend/auth.py:118-125 | the token is gone |
| Sessions.Keeper.DestroyAllSessions | Backend/auth.py:129-134 | the loop over the set deletes exactly the sessions in it |
| Sessions.Keeper.ChangePassword | Backend/routes_auth.py:365-373 | every session goes, then one is issued |
| Limiter.BucketAdmits | Backend/store.py:86-93 | however clock reads, INCRs, EXPIREs and late calls interleave, of the calls counted in the window of their moment exactly the first `limit` are let through |
| Limiter.WindowAdmits | Backend/store.py:86-93 | any stretch of `window` seconds lets through at most twice the limit of such calls |
| Limiter.LateAdmits | Backend/store.py:86-93 | counting also calls that come after their window, one counter lets through fewer than twice the limit in any `window` seconds |
| Limiter.WindowBoundIsMet | Backend/store.py:86-93 | across the edge of two windows twice the limit does get through |
| Limiter.ConfiguredBounds | Backend/config.py:195-210 | as configured: at most 20 reveals of one secret an hour, 10 sign-ins to one account in 15 minutes, 6 submissions to one request an hour, and so on for all ten limits |
| Limiter.Gate.RateOk | Backend/store.py:86-93 | says yes exactly while fewer than `limit` calls were answered in the current bucket |
| Lockout.ChecksTakeTime | Backend/routes_auth.py:198-208 | the (5k+1)-th real password check comes no sooner than the first k locks last |
| Lockout.ChecksBounded | Backend/routes_auth.py:198-208 | at most 5 checks at once and 5 an hour, over any span |
| Lockout.BoundIsMet | Backend/routes_auth.py:199-208 | someone who retries as each lock ends meets the bound exactly |
| Lockout.WaitedClosed | Backend/config.py:62-64 | the locks add up to 2700 seconds and then an hour each |
| Lockout.Row.SignIn | Backend/routes_auth.py:177-224 | turned away exactly while locked or inactive and then nothing changes; a right password clears both columns; every fifth failure in a row locks for 900, 1800 and then 3600 seconds, and no other failure moves the lock |
| Ldap.EscLoop | Backend/ldap_auth.py:107-120 | the loop prints the escaped value |
| Ldap.EscReads | Backend/ldap_auth.py:107-120 | whatever is typed reads back as one assertion value up to its own parenthesis (RFC 4515, section 3) |
| Ldap.EscSpelled | Backend/ldap_auth.py:107-120 | the six escapes, character by character |
| Ldap.EscInjective | Backend/ldap_auth.py:143-148 | escaping is injective |
| Ldap.LocalForm | Backend/ldap_auth.py:144-148 | comparing the escaped forms is asking for an '@' in what was typed |
| Ldap.BeforeAtCuts | Backend/ldap_auth.py:144 | the local part is what stands before the first '@' |
| Ldap.PrintReads | Backend/ldap_auth.py:158-162 | every printed filter reads back as itself, whatever follows it |
| Ldap.SearchFilter | Backend/ldap_auth.py:143-162 | the filter text reads back as exactly the intended tree, for every identifier and group |
| Ldap.GateHolds | Backend/ldap_auth.py:143-162 | what the filter matches is exactly an enabled person in the required group whose principal name, mail or account name is what was typed, or whose account name is the part before its '@' |
| Ldap.ResolveEntries | Backend/ldap_auth.py:165-184 | nobody for no candidate, the one for one; of several exactly the only one with that account name, else with that principal name, else with that mail, and otherwise nobody |
| Ldap.ChooseIsBest | Backend/ldap_auth.py:174-184 | the ranking by counting matches is that choice |
| Ldap.ChosenIsUniqueBest | Backend/ldap_auth.py:171-184 | with several candidates one is chosen exactly when it is the only exact match at its rank and no better rank has any |
| Ldap.OrderNeverMatters | Backend/ldap_auth.py:171-184 | the order the directory returns its objects in does not matter |
| Paging.BuildQuery | Backend/audit.py:102-121 | clauses and parameters stay in step: the text selects exactly the rows asked for, and the limit is clamped to 1..500 |
| Paging.PagesAreTheLog | Backend/routes_admin.py:33-39 | following next_cursor while rows are added yields exactly the matching rows present at the first page, once each, newest first, in exactly n / limit + 1 calls |
| Base64.RoundTrip | Frontend/src/lib/crypto.ts:25-36 | every byte string comes back, padded or not (RFC 4648, section 4) |
| Base64.UrlRoundTrip | Frontend/src/lib/crypto.ts:38-39 | the fragment's key uses only URL-safe characters and comes back (RFC 4648, section 5) |
| Base64.GroupIsNumber | Frontend/src/lib/crypto.ts:25-29 | three bytes and their four digits are one number, most significant first |
| Base64.CharRuns | Frontend/src/lib/crypto.ts:25-29 | the alphabet of RFC 4648, section 4 |
| Base64.Vectors | Frontend/src/lib/crypto.ts:25-29 | agrees with the first test vectors of RFC 4648, section 10 |
| Base64.Refuses | Frontend/src/lib/crypto.ts:31-36 | a text with any other character is refused |
| Base64.SameKeyText | Frontend/src/pages/Requests.tsx:120 | the page's comparison of two texts is equality of keys, and would never succeed without removing the line breaks PostgreSQL prints |
| Base64.ToBinary | Frontend/src/lib/crypto.ts:25-29 | the loop that builds the binary string |
| Base64.FromBinary | Frontend/src/lib/crypto.ts:31-36 | the loop that fills the bytes, undone by the other |
| Base64.BinaryInjective | Frontend/src/lib/crypto.ts:25-36 | equal binary strings are equal bytes |
| Envelope.UnpackPacked | Frontend/src/lib/crypto.ts:88-101 | the header comes back, with anything after it ignored |
| Envelope.PackInto | Frontend/src/lib/crypto.ts:88-94 | the first four bytes are the length, most significant first, and the rest is the header |
| Envelope.OpenSealed | Frontend/src/lib/crypto.ts:111-160 | with the link, the text comes back exactly for the passphrase it was sealed with |
| Envelope.OpensOnlyWithLink | Frontend/src/lib/crypto.ts:111-160 | with any other key of a link's length no passphrase opens: the fragment is needed |
| Envelope.CheckIsExact | Backend/security.py:28-37 | the server's check lets through exactly that passphrase |
| Envelope.OutboundRoundTrip | Frontend/src/lib/crypto.ts:111-166 | sealed, stored, looked up, revealed and opened: the right passphrase gets the text, a wrong one no bytes |
| Envelope.SomeBrowser | Frontend/src/lib/crypto.ts:43-61 | the laws asked of the key derivations can be met |
| Linkify.Render | Frontend/src/components/ui.tsx:98-127 | the pieces join to the text; the links are the matches from left to right, stripped |
| Linkify.StripKeepsScheme | Frontend/src/components/ui.tsx:104-107 | a stripped match is still an http or https address, holds no space or quote and ends in no stripped punctuation |
| Linkify.SchemeIs | Frontend/src/components/ui.tsx:96 | an address starts with http:// or https:// in any letter case and with nothing else |
| Linkify.NextIsLeftmost | Frontend/src/components/ui.tsx:96-103 | the scan finds the leftmost match |
| RevealPage.TicketsSentOnce | Frontend/src/pages/Reveal.tsx:52-75 | whatever user and server do, the page never sends a ticket twice nor one it was not given |
| RevealPage.View.DoReveal | Frontend/src/pages/Reveal.tsx:52-66 | sends the first ticket once and fetches a new one for every retry |
| RevealPage.View.Fetched | Frontend/src/pages/Reveal.tsx:59-66 | the fetched ticket is sent, and was not sent before |
| RevealPage.View.Answered | Frontend/src/pages/Reveal.tsx:66-84 | opened, a retry for a wrong passphrase, gone for 403 and 410, and an error for anything else |
| RevealPage.View.NotLoaded | Frontend/src/pages/Reveal.tsx:37-45 | metadata that cannot be loaded: gone for 404 and 410, else an error; nothing is sent |
| RevealPage.View.NotFetched | Frontend/src/pages/Reveal.tsx:59-84 | a retry whose ticket cannot be fetched ends as an answer with that status would; nothing is sent |

## Left out

* Sub-second time and clock differences: application, Redis and PostgreSQL share one clock in
  whole seconds. Handlers do not crash or time out halfway.
* Secrecy: nothing is stated about what an attacker can learn; SHA-256, AES-GCM, PBKDF2, HKDF and
  ECDH are symbols with laws. Texts with lone surrogates or a leading byte order mark, which the
  text coders change, are outside the round trips.
* Rate limits, audit records, webhooks and mail inside the handlers: they change neither store's
  secrets and only end a handler early, except that submit_request's own limit is a step.
* Uninterrupted.HandleIsRun: takes a token or ticket that was never drawn before; a repeated draw just
  waits in the protocol, where the code relies on 256 random bits.
* Protocol rows hold what the properties need: labels, timestamps, sizes, key-derivation columns
  and notification targets are not modelled; the preset table of create_secret is a number.
* Envelope.OutboundRoundTrip: nothing happens between the three requests, and the page without a
  passphrase field opens with the empty passphrase.
* Vault.Browser.StashPair: a tab whose storage accepts the first write and refuses the second is
  not modelled; neither is a request to the server that fails on the network, so a sign-in always
  reaches the key. Each vault action of one tab is atomic.
* Inbound.TakenRepliesOpen: is about submissions made by the client page, which seals to the key
  that the open request shows, and about requests with a pinned key; rows from before that column
  was added have none, and the page's check is then skipped.
* Limiter.WindowAdmits: leaves out calls that were delayed past the end of their window;
  Limiter.LateAdmits bounds those counter by counter.
* Limiter.Gate.RateOk: is one call with no other in between its steps.
* Employee.AlwaysFits: tabs that share a session cookie keep it separately, so one that was signed
  out elsewhere may still act here; the code allows less.
* Lockout.ChecksTakeTime: logins to one account come one at a time; two at once can read the same
  counter. The counter's SMALLINT limit is not modelled.
* Paging.PagesAreTheLog: ids become visible in increasing order; a transaction that commits late
  with a smaller id is not modelled.
* Ldap.ReadFilter: reads the and, or, not, equality and extensible forms, which is all that is
  printed; presence, substring and ordering filters are refused. Escapes above 7f are refused.
* Network binds, TLS, cookies, headers, CSRF, provisioning, password policy and the stored form of
  password hashes: straight-line code around library calls.
* RevealPage.TicketsSentOnce: two clicks before the page has drawn its disabled button are one.
* React rendering, the token's length check before a session lookup, and manage.py apart from
  resetpw.
