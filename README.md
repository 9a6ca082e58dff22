# Hotel booking administration: service, access control and create-hotel form

This project is a Dafny model of the core of a hotel-booking administration
app. An agency creates hotel systems. A hotelier manages one hotel's bookings.
Guests fill in their details through a booking link. The model covers four
parts of the app:

- **The hotel and booking service** (`src/lib/hotel-service.ts`), as the class
  `HotelService.Store`. Its state is the `hotels` and `bookings` document
  collections and the blob store that holds logos, identity documents and
  payment proofs. Every requested blob deletion is recorded in order. The
  service operations are methods on this state:
  - create, read, update and delete of hotels;
  - create, read, guest-details update and delete of bookings;
  - the cascading delete of a hotel with its bookings, their files and its logo.
- **The authentication provider** (`src/contexts/auth-context.tsx`), as the class
  `AuthContext.AuthProvider`:
  - the redirect it issues when a user signs in (`RedirectTarget`);
  - the "redirecting" screen it shows in place of its children;
  - logout;
  - the `useAuth` guard.
- **The route guard** (`src/components/auth/protected-route.tsx`), as pure
  functions:
  - the effect's decision (wait, redirect to login, log out then redirect, stay)
    and the effects each decision issues;
  - the separate test that decides whether the guarded page is rendered.
- **The create-hotel form** (`src/app/admin/create-hotel/page.tsx`), as the class
  `CreateHotelPage.CreateHotelPage`. Its handlers edit the form record:
  - dotted-key input, where `parseInt` is applied to `port`;
  - the meal-type toggle;
  - room-category set, append and remove, by copying to an array and shifting;
  - building the credentials text;
  - submitting, with its guard and its error classification.

JavaScript values appear as `JsValues.Value`. Plain objects are field maps
(`JsValues.Fields`). The model includes the parts of JavaScript these files
depend on: truthiness, `String(v)` and template interpolation (an absent
value prints as `undefined`), `split`, `parseInt(s, 10)`, `startsWith` and
`includes`. The model takes the outside world as parameters: document ids,
the clock, upload results, the set of blob URLs whose deletion the storage
rules refuse, and the set of stored URLs that `ref` rejects. Router calls, sign-out, toasts and clipboard writes are recorded
in the order they are issued.

The code differs from its own comments and messages in four places. Each one
is stated and proved as a lemma or an `ensures`:

- `createHotel` writes the hotel document before it uploads the logo. The page
  shows a banner saying that creation was aborted when the upload is refused,
  but the document is still stored (`HandleCreateHotel`, last `ensures`).
- The agency arm of the provider's public-page fallback can never fire. The
  hotelier arm fires only when the hotelId claim is falsy, and then it can navigate to
  `/dashboard/undefined` (`RedirectTargetCases`, `HotelierWithoutHotelId`).
- The guard's render test ignores the hotelId claim. A hotelier signed in for
  another hotel sees the page while logout is under way
  (`RenderGateIgnoresHotelId`).
- A role other than `agency` or `hotelier` leaves a signed-in user on the
  redirecting screen with no redirect, on any page outside `/admin` and
  `/dashboard` (`UnknownRoleIsStuck`).

## Model

| member | source | states |
|---|---|---|
| `HotelService.ToHotel` | src/lib/hotel-service.ts:30-40 | the returned hotel has the document's keys plus `id`, every document field unchanged, and `id` set to the document id unless the document holds its own `id` |
| `HotelService.Store.GetHotels` | src/lib/hotel-service.ts:42-48 | the list has one entry per stored hotel, and every stored hotel appears in it as converted by `toHotel`; an empty collection gives the empty list |
| `HotelService.Store.GetHotel` | src/lib/hotel-service.ts:50-59 | null exactly when no such document exists; otherwise the document's fields with its id |
| `HotelService.Store.CreateHotel` | src/lib/hotel-service.ts:61-86 | the document is stored under a fresh id with `createdAt`, and nothing else is touched; with a logo, the upload goes to `hotel-logos/<id>/<name>` and its URL is written into the document and the result; a failed upload throws after the document is already stored; without a logo the result has no `logoUrl` |
| `HotelService.Store.UpdateHotel` | src/lib/hotel-service.ts:88-118 | with a new logo, a stored logo URL that `ref` rejects aborts the update with nothing changed, since that call sits outside the `try`; otherwise deletion of the stored hotel's old logo is requested first (a refusal is swallowed and leaves that blob), then the upload adds the new blob at `hotel-logos/<id>/<name>` and its URL goes into the patch; a failed upload is its own error and changes no document; without such an abort or a failed upload, an existing document always succeeds: the patch is merged over its fields and the result is the document read back; a missing document is the not-found error with no document changed |
| `HotelService.Store.DeleteHotel` | src/lib/hotel-service.ts:121-147 | the hotel document is removed; every booking of the hotel that has a non-empty id is removed; file deletion is requested for exactly those bookings' attachments and the hotel's logo, with the logo last; every such blob is gone unless the storage rules refuse its deletion; nothing else is removed |
| `HotelService.Store.DeleteListedBookings` | src/lib/hotel-service.ts:126-131 | the loop deletes every listed booking with a truthy id and the files of exactly those bookings |
| `HotelService.Store.DeleteLogoOf` | src/lib/hotel-service.ts:133-143 | deletion is requested for the logo read at the start, if it has one, and failures are swallowed |
| `HotelService.AllListedDone` | src/lib/hotel-service.ts:126-131 | after the loop over the query result, the bookings deleted are exactly the hotel's bookings whose id is non-empty |
| `HotelService.BookingsOf` | src/lib/hotel-service.ts:169-179 | the ids selected by `where('hotelId', '==', hotelId)`: exactly the stored bookings with that hotelId |
| `HotelService.Store.GetBookingsForHotel` | src/lib/hotel-service.ts:169-179 | the list's ids are exactly the bookings of the hotel, without repeats, each with its stored document |
| `HotelService.Store.GetBooking` | src/lib/hotel-service.ts:181-188 | null exactly when no such document exists; otherwise the stored document with its id |
| `HotelService.Store.CreateBooking` | src/lib/hotel-service.ts:191-207 | the booking is stored under a fresh id with `hotelId` forced to the given hotel and `lastChanged` set to now; the booking read back is returned and belongs to that hotel |
| `HotelService.StatusFor` | src/lib/hotel-service.ts:220 | a deposit gives `Partial Payment`, full payment gives `Confirmed`, and no other mapping occurs |
| `HotelService.Store.UpdateBookingGuestDetails` | src/lib/hotel-service.ts:209-229 | a missing booking is the error "Booking not found" with nothing written; otherwise guest details, notes, payment option, the derived status and `lastChanged` are overwritten, and every other field and document is kept |
| `HotelService.AttachmentUrls` | src/lib/hotel-service.ts:240-243 | at most three files; a URL is among them exactly when it is a non-empty ID front, ID back or payment proof URL of the booking |
| `HotelService.Store.DeleteBlob` | src/lib/hotel-service.ts:247-254 | every deletion is requested; the blob is gone unless the storage rules refuse, and a refusal or a missing object is swallowed |
| `HotelService.Store.DeleteFiles` | src/lib/hotel-service.ts:246-255 | deletion is requested for every collected file, in order; each blob is gone unless refused; the documents are untouched |
| `HotelService.Store.DeleteBooking` | src/lib/hotel-service.ts:231-259 | a missing booking changes nothing; otherwise its attachments are requested for deletion in order (front, back, proof) and the document is removed |
| `HotelService.BookingDeleted` | src/lib/hotel-service.ts:127-130 | one more deleted booking adds exactly its own files to the deleted bookings, the attempted files and the removed blobs |
| `AuthContext.RedirectTarget` | src/contexts/auth-context.tsx:35-46 | only agency and hotelier users are ever redirected, and an agency user only to `/admin` |
| `AuthContext.RedirectingScreen` | src/contexts/auth-context.tsx:66 | the screen is always shown while loading; otherwise only to a signed-in user with claims on a page outside `/admin` and `/dashboard` |
| `AuthContext.RedirectTargetCases` | src/contexts/auth-context.tsx:35-46 | the redirect chain reduces to: agency users outside `/admin` go to `/admin`; hoteliers with a truthy hotelId outside `/dashboard` go to their dashboard; hoteliers without one go to `/dashboard/undefined`, but only from a public page; nobody else is redirected |
| `AuthContext.AgencyRedirect` | src/contexts/auth-context.tsx:38-39 | an agency user is sent to `/admin` exactly when outside it |
| `AuthContext.HotelierWithoutHotelId` | src/contexts/auth-context.tsx:42-45 | a hotelier with no hotelId claim on a public page is sent to `/dashboard/undefined` |
| `AuthContext.RedirectSettles` | src/contexts/auth-context.tsx:35-46 | after a redirect the target page issues no further redirect and shows no redirecting screen |
| `AuthContext.ScreenMeansRedirect` | src/contexts/auth-context.tsx:66 | with claims as roles are assigned (agency, or hotelier with a hotel id), the redirecting screen appears after loading only on a page the user is redirected away from |
| `AuthContext.UnknownRoleIsStuck` | src/contexts/auth-context.tsx:42-46 | any other truthy role keeps the user on the redirecting screen outside `/admin` and `/dashboard`, with no redirect |
| `AuthContext.UseAuth` | src/contexts/auth-context.tsx:82-88 | outside a provider the hook throws "useAuth must be used within an AuthProvider"; inside, it returns the provided value |
| `AuthContext.AuthProvider.constructor` | src/contexts/auth-context.tsx:20-22 | the provider starts with no user, no claims and loading set |
| `AuthContext.AuthProvider.AuthStateChanged` | src/contexts/auth-context.tsx:27-31 | loading is set; a signed-in user is recorded and claims are awaited; with nobody signed in, user and claims are cleared and loading ends |
| `AuthContext.AuthProvider.TokenResolved` | src/contexts/auth-context.tsx:31-53 | the token's claims are stored, at most one navigation is issued (the one `RedirectTarget` names), and loading ends |
| `AuthContext.AuthProvider.Logout` | src/contexts/auth-context.tsx:59-63 | sign-out, then session removal, then navigation to `/`, in that order, with no other state change |
| `AuthContext.AuthProvider.Context` | src/contexts/auth-context.tsx:66-79 | children get a context value exactly when the redirecting screen is not shown, and that value is never in the loading state |
| `ProtectedRoute.IsAuthorized` | src/components/auth/protected-route.tsx:37-49 | an authorized user has claims whose role is the required one and, on a hotelier route, whose hotelId equals the required one |
| `ProtectedRoute.RendersChildren` | src/components/auth/protected-route.tsx:62-68 | the page is rendered only when not loading, signed in, and the role claim is the required one |
| `ProtectedRoute.Decide` | src/components/auth/protected-route.tsx:24-56 | the guard waits exactly while loading, redirects exactly when signed out, and stays exactly when the user is authorized; every other case is logout followed by a redirect |
| `ProtectedRoute.DecisionEffects` | src/components/auth/protected-route.tsx:26-56 | waiting and staying issue nothing; signed out issues one redirect to the login path; unauthorized issues the three logout effects and then the redirect |
| `ProtectedRoute.AuthorizationRule` | src/components/auth/protected-route.tsx:37-49 | authorized exactly when the role claim equals the required role and, on a hotelier route, the hotelId claim strictly equals the required one (two absent values are equal); on an agency route the hotelId plays no part |
| `ProtectedRoute.AbsentClaimsNeverAuthorized` | src/components/auth/protected-route.tsx:37-49 | without claims nobody is authorized and nothing is rendered |
| `ProtectedRoute.SignedOutOrLoading` | src/components/auth/protected-route.tsx:26-34 | while loading nothing happens; signed out, the only effect is the login redirect, never a sign-out |
| `ProtectedRoute.UnauthorizedLogsOutFirst` | src/components/auth/protected-route.tsx:52-55 | an unauthorized user is signed out before any navigation, and the last navigation goes to the login path |
| `ProtectedRoute.RenderGateIgnoresHotelId` | src/components/auth/protected-route.tsx:62-71 | every authorized state renders; the states that render without authorization are exactly hotelier routes with the right role and a different hotelId claim, and those are being logged out |
| `ProtectedRoute.GuardUnderProviderNeverWaits` | src/components/auth/protected-route.tsx:26-28 | inside the provider the guard's loading branch never fires, because the provider hides its children while loading |
| `CreateHotelPage.InputChanged` | src/app/admin/create-hotel/page.tsx:57-73 | the new form has the old keys plus the id's first dot-separated segment, and every other top-level field is unchanged |
| `CreateHotelPage.DottedInput` | src/app/admin/create-hotel/page.tsx:57-69 | an id `a.b` (further segments ignored) updates only field `b` of record `a`: `a`'s other fields and every other top-level field are kept, and only `port` is parsed as an integer |
| `CreateHotelPage.UndottedInput` | src/app/admin/create-hotel/page.tsx:70-72 | an id without a dot sets that top-level field to the text |
| `CreateHotelPage.PortInput` | src/app/admin/create-hotel/page.tsx:67 | typing the decimal text of an integer of magnitude at most 2^53 into a port field stores that integer |
| `CreateHotelPage.MealTypeToggled` | src/app/admin/create-hotel/page.tsx:75-83 | the item is in the new list exactly when it was not in the old one; the count of every other item is unchanged; an absent item is appended at the end, and a present one is filtered out by `Without`, which keeps the order of the rest |
| `CreateHotelPage.Without` | src/app/admin/create-hotel/page.tsx:79 | the filter removes every occurrence of the item and keeps the count of every other item; the order of the kept items is fixed by `WithoutKeepsOrder` and `WithoutOne` |
| `CreateHotelPage.WithoutKeepsOrder` | src/app/admin/create-hotel/page.tsx:79 | `filter` keeps order: filtering a concatenation is the concatenation of the filtered parts |
| `CreateHotelPage.WithoutOne` | src/app/admin/create-hotel/page.tsx:79 | a single item is kept exactly when it differs from the one filtered out |
| `CreateHotelPage.ToggleTwiceRestores` | src/app/admin/create-hotel/page.tsx:75-83 | ticking an absent meal type and then unticking it gives back the original list |
| `CreateHotelPage.MealTypeChanged` | src/app/admin/create-hotel/page.tsx:76-81 | only `mealTypes` changes, and the toggled item's membership flips |
| `CreateHotelPage.SetRoomCategory` | src/app/admin/create-hotel/page.tsx:85-89 | the length is kept, position `index` holds the new value, and every other position is unchanged |
| `CreateHotelPage.RoomCategoryAdded` | src/app/admin/create-hotel/page.tsx:91-93 | exactly one empty category is appended and the rest is kept |
| `CreateHotelPage.SpliceStart` | src/app/admin/create-hotel/page.tsx:97 | `splice` starts inside the list, and a valid index starts at itself |
| `CreateHotelPage.RemovedAt` | src/app/admin/create-hotel/page.tsx:95-99 | one shorter; earlier positions are unchanged and later ones move down by one |
| `CreateHotelPage.RemoveRoomCategory` | src/app/admin/create-hotel/page.tsx:95-99 | the copied array with `splice(index, 1)` applied: exactly the entry at the start position is removed, in order; a start at the end removes nothing |
| `CreateHotelPage.AddThenRemoveRestores` | src/app/admin/create-hotel/page.tsx:91-99 | appending a category and removing the last one gives back the list |
| `CreateHotelPage.RemoveThenInsertRestores` | src/app/admin/create-hotel/page.tsx:95-99 | putting the removed category back at its position gives back the list |
| `CreateHotelPage.Credentials` | src/app/admin/create-hotel/page.tsx:117-126 | a text is produced exactly when both the hotelier's email and password are truthy, and it starts with "E-Mail: " |
| `CreateHotelPage.CredentialsRoundTrip` | src/app/admin/create-hotel/page.tsx:126 | the copied text gives back the email and password when the email has no line break |
| `CreateHotelPage.ClassifyCreateError` | src/app/admin/create-hotel/page.tsx:155-172 | the codes `storage/unknown` and `storage/unauthorized` raise the permission banner; any other error is the data toast exactly when its message contains "invalid data", and the generic toast otherwise |
| `CreateHotelPage.CreateHotelPage.constructor` | src/app/admin/create-hotel/page.tsx:28-55 | the form starts with empty texts, the SMTP host `smtp.gmail.com` on port 587, breakfast as the only meal type and three room categories; there is no logo, no loading and no error |
| `CreateHotelPage.CreateHotelPage.HandleInputChange` | src/app/admin/create-hotel/page.tsx:57-73 | the error is cleared and the form becomes `InputChanged` of the old form |
| `CreateHotelPage.CreateHotelPage.HandleMealTypeChange` | src/app/admin/create-hotel/page.tsx:75-83 | the form becomes `MealTypeChanged` of the old form; nothing else changes |
| `CreateHotelPage.CreateHotelPage.HandleRoomCategoryChange` | src/app/admin/create-hotel/page.tsx:85-89 | only `roomCategories` changes, to the old list with position `index` replaced |
| `CreateHotelPage.CreateHotelPage.AddRoomCategory` | src/app/admin/create-hotel/page.tsx:91-93 | only `roomCategories` changes, to the old list with one empty category appended |
| `CreateHotelPage.CreateHotelPage.HandleRemoveRoomCategory` | src/app/admin/create-hotel/page.tsx:95-99 | only `roomCategories` changes, to the spliced list |
| `CreateHotelPage.CreateHotelPage.HandleFileChange` | src/app/admin/create-hotel/page.tsx:101-106 | the error is cleared; the first chosen file becomes the logo, and choosing none keeps the previous one |
| `CreateHotelPage.CreateHotelPage.CopyCredentials` | src/app/admin/create-hotel/page.tsx:117-133 | with both fields filled, the credentials text goes to the clipboard and a confirmation is shown; otherwise only the warning is shown |
| `CreateHotelPage.CreateHotelPage.HandleCreateHotel` | src/app/admin/create-hotel/page.tsx:135-176 | without a name or domain only a toast is shown and the store is unchanged; otherwise exactly one document is added under the new id, holding the form with `createdAt` (and `logoUrl` when the logo upload succeeds), the uploaded logo is the only new blob, and no deletion is requested; success shows a toast and navigates to `/admin`; failure is reported as `ClassifyCreateError` says; loading ends; a permission banner always means the form was stored without a logo |

## Left out

- The real Firestore, Storage and Auth calls are left out. Collections are maps and the blob store is a map of URLs. Upload outcomes, new ids and the clock are parameters.
- The order of query results is left out. `getHotels` and `getBookingsForHotel` are specified as sets with distinct entries.
- `createdAt.toDate()` and the other timestamp conversions are left out. Timestamps are opaque naturals and bookings' dates are carried unchanged.
- `HotelService.Store.CreateBooking`: its "Failed to create and retrieve booking." error is not modelled, because a sequential read-back of a document just written always finds it.
- `HotelService.Store.UpdateHotel`: the model does not capture that the caller's patch object is mutated with `logoUrl`. Dotted field paths in `updateDoc` keys are treated as plain keys, and the codes and messages of the not-found and invalid-URL errors stand in for Firebase's.
- `JsValues.ParseInt`: a JavaScript number is a double, but `Number(n)` holds an unbounded integer. Above 2^53 in magnitude, `parseInt` rounds and the model does not; `CreateHotelPage.PortInput` is stated only for integers a double holds exactly.
- `HotelService.LogoUrl` treats only a non-empty string `logoUrl` as a logo. A truthy non-string value cannot be stored by these forms.
- `HotelService.Store.CreateHotel`: validation failures of `addDoc` itself are not modelled. The document write always succeeds, so the "invalid data" branch of the page is reached only through `ClassifyCreateError`.
- `CreateHotelPage.SubRecord`: spreading a non-object value (a string or array under a dotted key's first segment) gives the empty record, while JavaScript would give index keys. No input of the form puts such a value there.
- `CreateHotelPage.MealTypesOf` and `CreateHotelPage.RoomCategoriesOf` read any non-array value as the empty list.
- `CreateHotelPage.SetRoomCategory` requires a valid index. The source's assignment past the end would grow the array with holes, but the form only passes the index of an existing row.
- `generatePassword` is left out, because it uses `Math.random`.
- The React rendering, the stale `formData` closure in the category handlers, and async interleaving of concurrent callbacks are left out. Each handler runs to completion in the model.
- The `then` of the clipboard write is assumed to succeed: the confirmation toast follows the write. Toasts, clipboard writes and router calls are recorded values.
- The provider's resubscription when `pathname` changes is left out. `TokenResolved` takes the pathname current when the token arrives.
- `src/lib/auth-actions.ts`, `src/lib/user-roles.ts`, the pages that render these components and the AI flow are not part of this model.
