# Barber profile reconciler, in Dafny

A model of `onUserRoleChange`, the single Cloud Function of the barber app.
The function runs whenever a `users/{userId}` document is updated. It compares the
`role` field of the document before and after the update and then does one of three things:

- it does nothing when the role did not change;
- it creates or overwrites `barbers/{userId}` with a fresh profile when the new role is `"barber"`;
- it deletes `barbers/{userId}` when the old role was `"barber"` and the new one is not.

Files:

- `wrappers.dfy` (module `Wrappers`): `Option`, for document fields that may be absent.
- `role_change.dfy` (module `RoleChange`): the snapshot and profile records and the decision `Decide`.
  It also holds the store effect `Apply` and the whole handler on the collection's contents, `Reconcile`.
  The class `BarbersCollection` is the shared `barbers` collection handle.
  Its `OnUserRoleChange` method is the handler body, calling `SetDoc` / `DeleteDoc` in place.
- `delivery.dfy` (module `Delivery`): traces of updates handled one after another.
  It proves that handling updates in order keeps the invariant "a profile exists exactly for users whose latest role is `"barber"`".
  It also shows that duplicates are harmless and that reordering is not.

Modelling choices:

- A document field is an `Option<string>`, and `None` is a field the document lacks (`undefined`).
  Two absent roles are equal, as `undefined === undefined` is in JavaScript.
- `username || ""` becomes `OrEmpty`. A present string is kept, and an absent one becomes `""`.
- The server timestamp written into `createdAt` is the store's write time.
  It is modelled as a parameter `now` (per update: `writeTime`), and a stored document is `BarberDoc(profile, createdAt)`.
- `rating: 0.0` is the real `0.0`. No arithmetic is done on it.
- Whether the store accepts a `set`/`delete` is a parameter `available`.
  A failed call changes nothing, and the handler returns `StoreFailed` unchanged.
  A handler that returns `null` is `NoWrite`.

Observation: the trigger fires only on updates. A user document that is created with role `"barber"` therefore gets no profile.
A deleted user document whose role was `"barber"` keeps its profile.
The mirror invariant in `Delivery` is stated for update traces only, because that is all the source handles.

## Model

| member | source | states |
|---|---|---|
| `RoleChange.OrEmpty` | functions/index.js:41-42 | a present field value is kept as is; an absent field gives `""` |
| `RoleChange.NewProfile` | functions/index.js:40-46 | the new profile's fullName and email come from the user's username and email (or `""` when absent); bio is the welcome text, services empty, rating 0.0, totalRatings 0 |
| `RoleChange.Decide` | functions/index.js:21-64 | the role comparisons amount to the two-state machine: create exactly when not-barber becomes barber (with `NewProfile(after)`), delete exactly when barber becomes not-barber, nothing when both or neither are barber; equal roles (both absent included) never act |
| `RoleChange.Apply` | functions/index.js:34-60 | `set` puts exactly the profile and write time at `id`, `delete` removes `id`, and a delete of a missing document changes nothing; every other document keeps its presence and contents |
| `RoleChange.Reconcile` | functions/index.js:14-65 | unchanged role, or the same barber bit on both sides, leaves the collection unchanged; promotion stores the new profile at `userId`, overwriting; demotion removes `userId`; only `userId` is touched; if `userId`'s presence matched the old role being barber, it matches the new role afterwards |
| `RoleChange.RedeliveryOverwrites` | functions/index.js:40-60 | running the handler a second time for the same update leaves what a single run with the later write time leaves |
| `RoleChange.ReconcileIdempotent` | functions/index.js:40-60 | running the handler twice on the same update and write time leaves the same collection as once |
| `RoleChange.WriteTimeOnlyAffectsCreatedAt` | functions/index.js:40-48 | two runs of one update that differ only in write time leave the same documents with the same profiles |
| `RoleChange.DecideDependsOnlyOnBarberBits` | functions/index.js:21-64 | the action depends only on whether each role is `"barber"` and on the new username and email, not on which non-barber role was held |
| `RoleChange.PromotionExample` | functions/index.js:29-48 | customer to barber with username "Al" and email "al@x.com" stores the profile {Al, al@x.com, welcome bio, [], 0.0, 0} |
| `RoleChange.DemotionExample` | functions/index.js:52-60 | barber to customer deletes the profile document |
| `RoleChange.NonBarberChangesExample` | functions/index.js:21-64 | admin to admin, and customer to manager, make no store call |
| `RoleChange.BarbersCollection.SetDoc` | functions/index.js:34-48 | `set` on an available store replaces barbers/{id} with the profile stamped with the write time; on failure the collection is unchanged and the failure returned; either way one `set` call is recorded |
| `RoleChange.BarbersCollection.DeleteDoc` | functions/index.js:57-60 | `delete` on an available store removes barbers/{id}, whether or not it existed; on failure the collection is unchanged; either way one `delete` call is recorded |
| `RoleChange.BarbersCollection.OnUserRoleChange` | functions/index.js:14-65 | the handler makes no store call when `Decide` says NoOp, exactly one `set` of `NewProfile(after)` on promotion and exactly one `delete` on demotion (the call history grows by exactly that); it reports a failure exactly when it called an unavailable store, and on success leaves the collection as `Reconcile` of the old one |
| `Delivery.Replay` | functions/index.js:12-65 | handling a trace of updates never changes the profile of a user the trace does not update |
| `Delivery.ReconcileKeepsMirror` | functions/index.js:21-64 | if profiles exist exactly for barber users, one update that starts from the user's latest snapshot keeps that so |
| `Delivery.ReplayKeepsMirror` | functions/index.js:12-65 | handling an in-order trace of updates keeps profiles in step with the users' latest roles (proof by induction on the trace) |
| `Delivery.DuplicateDeliveryIsHarmless` | functions/index.js:40-60 | an update delivered twice in a row leaves what its later delivery alone leaves |
| `Delivery.ReorderedDeliveryBreaksMirror` | functions/index.js:12-65 | a promotion followed by a demotion keeps the mirror in order, but handled in reverse it leaves a profile for a non-barber user |

## Left out

- Firebase wiring: the `require`s, `admin.initializeApp()` and the registration of the `users/{userId}` update trigger (functions/index.js:1-5, 12-13). These are foreign library calls; the trigger's delivery is modelled only as the traces in `Delivery`.
- `logger.log` calls: logging only, with no effect on the store.
- Promises and `async`: a store call is modelled as done-or-failed (`Reply`). The error values of the Firestore client are not modelled.
- Null and non-string values in `role`, `username` or `email` are not modelled; fields are absent or strings. For `role` this cannot change the action, because `Decide` depends only on whether each role is `"barber"` (`DecideDependsOnlyOnBarberBits`). For `username` and `email`, `v || ""` copies a truthy non-string value (a number, an array) into the profile as is and turns a falsy one (`null`, `0`, `false`, `NaN`) into `""`; the model captures neither case.
- `FieldValue.serverTimestamp()` is modelled as the write time supplied by the store, an integer parameter; its real value and clock are not modelled.
- `rating` is a floating-point number in the source; the model keeps it as the real `0.0` because no arithmetic is performed on it.
- Concurrent runs of the handler for the same user: the source does nothing about them. The model composes runs sequentially; `ReorderedDeliveryBreaksMirror` shows what an out-of-order delivery does.
