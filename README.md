# LocalStore storefront: a Dafny model of its client-side decision logic

LocalStore is a React storefront over a hosted backend (authentication, two
tables, a realtime presence channel). Almost all of it is I/O and markup. This
project models the three pieces of sequential decision logic it has and proves
what they promise:

- **Cart and catalog filter** (`components/Storefront.tsx`, module `Storefront`):
  adding merges by product id, removing filters by id, the total and the badge
  are left folds, the catalog is projected by category, and the add-product form
  is reset after a successful insert. As in the component, every operation builds
  a new value, so the module is made of datatypes, functions and lemmas.
  Prices are whole cents.
- **Application shell** (`App.tsx`, module `App`): a class `AppComponent` holds
  the state flags (`user`, `isReady`, `error`, `needsSetup`, `isSettingUp`,
  `setupSql`, `isLoading`). Each async handler is split at its `await`: one
  method runs the part before it, and another takes the awaited outcome as a
  parameter. `Render` is the chain of checks that picks one of five screens.
- **Live cursors** (`components/RealtimeCursors.tsx`, module `RealtimeCursors`):
  a class `CursorLayer` with a method per event (subscription status, sync,
  join, leave, pointer move, teardown). It records every payload passed to
  `track`. `Rendered` picks the other participants to draw.

Shared records (`types.ts`) are in module `Types`. `Filter` (the model of
`Array.prototype.filter`) and `IsSubsequence` are in module `Seqs`.

The model follows the code as written. These behaviours of it are easy to miss:

- JavaScript truthiness is kept. A selected category of `''` shows the whole
  catalog, as `null` does. An empty error string would not be shown. An empty
  setup script counts as absent. An empty metadata username falls back to
  `'Anonymous'`.
- A table error other than `42P01` sets `error`, but it is only displayed when
  `needsSetup` is false. After the setup page has appeared, a failed re-check
  keeps the setup page on screen. The same holds for a failed script fetch
  (`CompleteSetup`).
- Signing out only clears `user`. `isReady`, `error` and `needsSetup` keep their
  values, and no probe runs.
- `isReady` is set but never read by the render.
- An existing cart line keeps the product snapshot it was created with. So
  adding a product whose price has since changed raises the total by the price
  stored on the line (`AddToCartTotal`).

## Model

| member | source | states |
|---|---|---|
| `Storefront.AddToCart` | components/Storefront.tsx:72-79 | For an id already in the cart: the same length, the same products, and a quantity one higher on the lines with that id and unchanged elsewhere. For a new id: the old lines unchanged, plus exactly one new line at the end holding the product with quantity 1. Either way the id is then in the cart. |
| `Storefront.RemoveFromCart` | components/Storefront.tsx:83-85 | No line with that id remains. The result is a subsequence of the cart (order kept). Each other line keeps its multiplicity. An absent id leaves the cart unchanged. |
| `Storefront.CartTotal` | components/Storefront.tsx:87 | The left fold equals the sum over the lines of price times quantity, and is 0 for the empty cart. |
| `Storefront.Reduce` | components/Storefront.tsx:87 | The `reduce` left fold (used at lines 87 and 137) from any start value equals that value plus the reference sum `SumBy` of the weights. |
| `Storefront.Increment` | components/Storefront.tsx:76 | The `map` keeps the length, and each line becomes itself with one more unit when it is for the id, and stays as it was otherwise. |
| `Seqs.Filter` | components/Storefront.tsx:84-90 | `Array.prototype.filter` (lines 84 and 90): every kept element satisfies the predicate, each element keeps its multiplicity when it satisfies the predicate and has none otherwise, the result is no longer than the input, and when every element satisfies the predicate the result is the input. |
| `Storefront.BadgeCount` | components/Storefront.tsx:137 | The badge number is the sum of the quantities, and is at least the number of lines in a valid cart. |
| `Storefront.Badge` | components/Storefront.tsx:135-139 | The badge is drawn iff the cart has lines. It shows the quantity sum, which is at least 1 for a valid cart. |
| `Storefront.AddToCartTotal` | components/Storefront.tsx:72-87 | With unique ids, adding raises the total by the price stored on the line the product is already on. For a new product it raises the total by the product's own price. |
| `Storefront.AddToCartBadge` | components/Storefront.tsx:72-79 | With unique ids, every add raises the badge count by exactly 1. |
| `Storefront.IncrementSum` | components/Storefront.tsx:76 | With unique ids, the `map` that bumps the one line for an id changes any per-line sum only by that line's change. |
| `Storefront.RemoveSum` | components/Storefront.tsx:84 | With unique ids, removing a present id shortens the cart by one and lowers any per-line sum by that line's weight. |
| `Storefront.RemoveFromCartTotal` | components/Storefront.tsx:83-87 | With unique ids: removing a present id drops one line, lowers the total by that line's amount and lowers the badge by its quantity. Removing an absent id leaves the total unchanged. |
| `Storefront.AddToCartValid` | components/Storefront.tsx:72-79 | Adding keeps ids unique and every quantity at least 1. |
| `Storefront.RemoveFromCartUnique` | components/Storefront.tsx:84 | Removing keeps ids unique. |
| `Storefront.RemoveFromCartValid` | components/Storefront.tsx:83-85 | Removing keeps ids unique and every quantity at least 1. |
| `Storefront.ApplyAllValid` | components/Storefront.tsx:72-85 | Under any sequence of adds and removes, ids stay unique and quantities stay at least 1. |
| `Storefront.QuantitiesAtLeastLines` | components/Storefront.tsx:137 | When every quantity is at least 1, the quantities add up to at least the number of lines. |
| `Storefront.FilteredProducts` | components/Storefront.tsx:89-91 | A falsy selection gives the whole list. Otherwise the result is exactly the products whose category equals the selection, in original order and with their multiplicities. |
| `Storefront.DefaultCategory` | components/Storefront.tsx:62 | It is the first category's id, or `''` when there are no categories. The fallback to `''` never changes the result. |
| `Storefront.FetchComplete` | components/Storefront.tsx:34-44 | Only the lists that came back are replaced, wholesale. Returned categories preselect the first one in the form when there is one. Loading ends. The cart, selection and dialogs are untouched. |
| `Storefront.InitialStoreFacts` | components/Storefront.tsx:12-28 | The initial hooks hold an empty, valid cart of total 0 with no badge, an empty listing, the empty form and loading on; the mount-time fetch then ends loading whatever it returns. |
| `Storefront.HandleAddProduct` | components/Storefront.tsx:46-66 | On an insert error the state is unchanged. On success the form is emptied with the default category, the dialog closes and a re-fetch begins. The cart and catalog are untouched. |
| `Storefront.OnAddToCart` | components/Storefront.tsx:72-81 | The cart becomes `AddToCart` of the old cart and the drawer opens. Nothing else changes. |
| `Storefront.AddThenFetchForm` | components/Storefront.tsx:59-64 | After a successful add and the re-fetch it starts, the form is empty. Its category is the first of the newly fetched categories, or else the default of the old list. The dialog is closed, loading has ended and the cart is untouched. |
| `Seqs.FilterIsSubsequence` | components/Storefront.tsx:84 | `filter` keeps the surviving elements in their original order. |
| `Seqs.SubsequenceMembers` | components/RealtimeCursors.tsx:31-34 | Every element of a subsequence is an element of the whole: the helper behind `AbsentKeyNotRendered`, which gives that only keys of the latest snapshot are drawn. |
| `App.Render` | App.tsx:110-231 | Auth iff there is no user, so the second no-user test is dead. Spinner iff there is a user and loading. The error page iff there is a user, nothing is loading, the error is truthy and the schema is not missing; it shows that error. The setup page iff there is a user, nothing is loading and the schema is missing; it shows the script if one is held. The storefront iff there is a user, nothing is loading, the schema is present and the error is falsy. |
| `App.StoreShownIff` | App.tsx:110-231 | When no error string is empty, the storefront is shown iff the user is non-null, nothing is loading, `needsSetup` is false and `error` is null. |
| `App.AppComponent.constructor` | App.tsx:27-33 | The initial flags: no user, not ready, no error, schema not missing, no script, loading. The auth screen is shown. |
| `App.AppComponent.StartProbe` | App.tsx:64-65 | The probe starts: `isLoading` is true and nothing else changes. A signed-in user sees the spinner. |
| `App.AppComponent.CompleteProbe` | App.tsx:66-88 | `42P01` sets `needsSetup`, clears `error` and keeps `isReady`. Another table error sets "Connection Error: " plus the message, keeping `needsSetup` and `isReady`. Success sets ready, clears `needsSetup` and `error`. A throw sets the fixed unreachable message. Loading always ends. Also states which screen a signed-in user then sees. |
| `App.AppComponent.InitAuth` | App.tsx:36-50 | The session's user, or none, is stored, and a probe starts iff there is a session; without one, loading ends. A throw stores "Authentication failed: " plus the message or 'Unknown error', and loading ends. |
| `App.AppComponent.OnAuthStateChange` | App.tsx:54-59 | `user` becomes the session's user or null. The probe is re-run iff a session is present. Nothing else changes. Without a session the auth screen is shown. |
| `App.AppComponent.StartSetup` | App.tsx:91-92 | `isSettingUp` becomes true and nothing else changes. |
| `App.AppComponent.CompleteSetup` | App.tsx:93-100 | Success stores the script. Failure sets the fixed error message. `isSettingUp` ends false. While the schema is missing the setup page stays on screen either way. |
| `RealtimeCursors.DisplayName` | components/RealtimeCursors.tsx:45 | The name is never empty. It is the metadata username when that is truthy, and otherwise 'Anonymous'. |
| `RealtimeCursors.Rendered` | components/RealtimeCursors.tsx:73-76 | Exactly the keys other than self with a non-empty presence list are drawn, each from element 0 of its list and in entry order. |
| `RealtimeCursors.AbsentKeyNotRendered` | components/RealtimeCursors.tsx:31-34 | A key that the latest snapshot lacks is never drawn, whatever earlier snapshots held. |
| `RealtimeCursors.CursorLayer.constructor` | components/RealtimeCursors.tsx:16-17 | The cursors start empty and the colour is the palette entry of the drawn index. Nothing is yet published, subscribed or listening. |
| `RealtimeCursors.CursorLayer.Payload` | components/RealtimeCursors.tsx:54-60 | A payload carries the user's id, display name and session colour, and the given position. |
| `RealtimeCursors.CursorLayer.Mount` | components/RealtimeCursors.tsx:19-63 | With no user nothing is subscribed or installed. Otherwise the channel is subscribed and the listener installed. Cursors and payloads are unchanged. |
| `RealtimeCursors.CursorLayer.OnStatus` | components/RealtimeCursors.tsx:41-51 | Exactly one payload at (0, 0) is published iff the status is 'SUBSCRIBED' on a live subscription. Other statuses publish nothing. |
| `RealtimeCursors.CursorLayer.OnSync` | components/RealtimeCursors.tsx:31-34 | `cursors` becomes the snapshot wholesale. The view is the render of the snapshot. A key present before but absent from the snapshot is gone. |
| `RealtimeCursors.CursorLayer.OnJoin` | components/RealtimeCursors.tsx:35-37 | Nothing changes. |
| `RealtimeCursors.CursorLayer.OnLeave` | components/RealtimeCursors.tsx:38-40 | Nothing changes. |
| `RealtimeCursors.CursorLayer.OnMouseMove` | components/RealtimeCursors.tsx:53-61 | While listening, each move publishes exactly one payload at the given position. Otherwise nothing is published. |
| `RealtimeCursors.CursorLayer.Teardown` | components/RealtimeCursors.tsx:65-68 | The listener is removed and the channel unsubscribed. Cursors and payloads are unchanged. |

The invariant `CursorLayer.Valid` is kept by every method. It says the colour is
one of the eight palette entries, fixed at construction. It also says every
published payload carries that colour, the user's id and the display name, and
that listening coincides with being subscribed. `AppComponent.Valid` (no empty
error message) is likewise kept by every method. `AppComponent.SignInScenario`
and `RealtimeCursors.SessionScenario` show what a caller can conclude from the
contracts alone.

## Left out

- Backend calls (`auth.getSession`, `onAuthStateChange`, `from().select/insert`,
  `channel`, `track`, `presenceState`, `unsubscribe`) are not modelled as
  behaviour. Their outcomes are method or function arguments, and a publish is
  recorded in `CursorLayer.published`.
- Concurrency between in-flight requests is not modelled. Two probes running at
  once finish in whatever order their `CompleteProbe` calls are made.
- The insert payload of `handleAddProduct` is not modelled. It relies on
  `parseFloat`/`parseInt` of the form fields, which is floating-point parsing.
- Prices are integer cents. Float prices and `toFixed(2)` formatting are left out.
- Pointer normalisation `clientX / innerWidth * 100` is floating point.
  `OnMouseMove` takes the already normalised coordinates.
- `Math.random` palette indexing becomes a constructor argument below 8.
- `CursorLayer.user` is fixed for the life of an instance, although the effect also re-runs when `user` changes. In the app every user change either clears `user` or sets `isLoading`, and either one unmounts the layer, so a new user always gets a new instance. Since the colour is drawn on every construction, it is fixed for one mount of the layer, not for a whole sign-in.
- `CursorLayer.Mount` requires that the layer is not already subscribed. React
  runs the effect's cleanup before it runs the effect again.
- Presence payloads are assumed to have the cursor payload's shape. The presence
  metadata that the channel adds to each payload is not modelled.
- `proxy-server.js`, `components/Auth.tsx` and `services/geminiService.ts` are not
  part of this model. They are pass-through I/O, form UI over opaque auth calls,
  and a constant SQL string. The script fetched by `handleSetup` is an argument.
- JSX markup, CSS, animations, `console.log`, `alert`, the clipboard, sign-out's
  backend call, and the category and dialog toggles that only set one field are
  left out.
