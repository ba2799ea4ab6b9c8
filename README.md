# FleetFlow rules in Dafny

FleetFlow is a fleet-logistics web dashboard with three roles: the fleet owner (`admin`), the driver and the supplier. Everything runs in the browser, on fixed mock tables and React component state. The session is a flag, a role and a name mirrored into `localStorage`.

This project models the decisions that dashboard makes, and proves what they guarantee:

- **Session** (`src/contexts/AuthContext.tsx`). `AuthProvider` is a class whose three cells are rebuilt from storage on mount. Login and logout change those cells and the shared `LocalStorage` object together. Lemmas show that a reload reproduces the session and that logout is idempotent.
- **Routing** (`src/App.tsx`). `ProtectedRoute` and `DashboardRouter` are pure decisions. The route table is a literal list. Its patterns are distinct static paths plus a last `*`, so react-router's ranking by specificity picks the same route as taking the first match. Lemmas prove which pages each role can reach:
  - admin-only paths never render for a driver or a supplier;
  - driver-only paths never render for an admin or a supplier;
  - `/` redirects;
  - unlisted paths render NotFound;
  - no path renders nothing.
- **Admin dashboard** (`src/pages/AdminDashboard.tsx`):
  - the fleet status badge, with its fallback colour;
  - the expense approval list, whose pending count drops by one per decision;
  - the driver status toggle, an involution that moves the "available" figure by one;
  - the 90-day licence badge;
  - the Universal Vault: role filtering, the 10-day badge, and the "expired" and "expiring" figures of a vehicle group, including when one document is counted in both.
- **Document vault component** (`src/components/DocumentVault.tsx`). The 7/30-day expiry badge and the row icon.
- **Supplier portal** (`src/pages/SupplierPortal.tsx`):
  - the case-insensitive DO search, proved order-preserving, case-blind and narrowing as the query grows;
  - the selection toggle;
  - the truck and bilty lookups with their empty fallbacks.
- **Auth page** (`src/pages/AuthPage.tsx`). The form is a class. Submit is guarded on the role and derives the display name from the email. A submit is proved to land on the role's own dashboard.
- **Driver dashboard, health gauge, digital bilty**. The trip card of `DriverDashboard.tsx`, the colour bands of `HealthGauge.tsx`, and the status badge and label of `DigitalBilty.tsx`.

Colours are modelled as `Styles.Tone` values: a badge is a `Tag(text, tone)`, not a CSS class string. The `Severity` order of the tones lets the monotonicity lemmas say "a later expiry is never more urgent".

Facts about the code that shape the model:

- **Trip.** The driver's trip is one boolean, flipped by one button (`src/pages/DriverDashboard.tsx:21`, `108`). There is no further trip lifecycle, and the model has exactly that flag.
- **Expiry badges.** There are three separate expiry classifiers, and all three are modelled as written:
  - 7/30 days in `DocumentVault.tsx`;
  - 10 days in the admin vault;
  - 90 days on the licence badge.
- **Day counts.** The admin vault and the licence badge round the day count up with `Math.ceil`, modelled as `AdminDashboard.CeilDays`. `DocumentVault.tsx` gets its day count from date-fns `differenceInDays`, which is the input of `DocumentVault.ExpiryTag`.
- **Role values.** A role restored from storage is whatever string was stored (`src/contexts/AuthContext.tsx:25`). `Session.AuthState` therefore holds an `Option<string>`, and the guards test its truthiness as the code does.

## Model

| member | source | states |
|---|---|---|
| Session.Restore | src/contexts/AuthContext.tsx:24-26 | authenticated iff the auth key is stored with a non-empty value; the role is the stored role text if any; the name is the stored name or "" |
| Session.StoreAfterLogin | src/contexts/AuthContext.tsx:32-34 | the three session keys are set to "true", the role name and the name; every other key is kept |
| Session.StoreAfterLogout | src/contexts/AuthContext.tsx:41-43 | exactly the three session keys are removed; every other key keeps its value |
| Session.LoginSurvivesReload | src/contexts/AuthContext.tsx:24-34 | restoring from the storage a login wrote yields the authenticated state that login set |
| Session.LogoutSurvivesReload | src/contexts/AuthContext.tsx:24-26 | restoring after a logout yields the anonymous state, whatever else is stored |
| Session.LogoutIdempotent | src/contexts/AuthContext.tsx:37-44 | a second logout leaves storage as the first left it |
| Session.LoginOverridesHistory | src/contexts/AuthContext.tsx:28-35 | the session rebuilt after a login does not depend on an earlier logout |
| Session.LocalStorage.GetItemAt | src/contexts/AuthContext.tsx:24-26 | returns the stored value, or None for a missing key |
| Session.LocalStorage.SetItem | src/contexts/AuthContext.tsx:32-34 | the storage map gains or overwrites exactly that key |
| Session.LocalStorage.RemoveItem | src/contexts/AuthContext.tsx:41-43 | the storage map loses exactly that key |
| Session.AuthProvider.constructor | src/contexts/AuthContext.tsx:24-26 | the provider's cells equal `Restore` of the current storage |
| Session.AuthProvider.Login | src/contexts/AuthContext.tsx:28-35 | cells become (true, role, name) and storage becomes `StoreAfterLogin` of the old storage |
| Session.AuthProvider.Logout | src/contexts/AuthContext.tsx:37-44 | cells become anonymous and storage becomes `StoreAfterLogout` of the old storage |
| Session.ReloadAfterLogin | src/contexts/AuthContext.tsx:24-35 | a second provider mounted over the same storage after a login shows the same session |
| Session.LogoutTwice | src/contexts/AuthContext.tsx:37-44 | two logouts leave the same cells and storage as one |
| Routing.ProtectedRoute | src/App.tsx:16-23 | unauthenticated goes to /auth; no role list, or a falsy role, renders the children; otherwise renders iff the role is listed, else goes to /dashboard |
| Routing.DashboardRouter | src/App.tsx:25-30 | driver iff role is "driver"; supplier portal iff "supplier"; admin dashboard for every other role, null included |
| Routing.MatchTable | src/App.tsx:41-60 | the first matching route of the table, for every path: each listed path gets its own element and every other path gets the catch-all |
| Routing.PatternsDistinct | src/App.tsx:41-60 | the table's patterns are pairwise distinct and `*` is only the last one |
| Routing.NoRouteShadowed | src/App.tsx:41-60 | each route is the one its own path selects, so no route hides another and the order of the table decides no match |
| Routing.Resolve | src/App.tsx:40-61 | /auth renders the auth page; / redirects to /dashboard; /dashboard and /bilties are guarded with no role list around `DashboardRouter`; the admin paths are guarded for admin around the admin dashboard; the driver paths are guarded for driver around the driver dashboard; every unlisted path renders NotFound |
| Routing.UnauthenticatedGoesToAuth | src/App.tsx:18 | signed out, every guarded path redirects to /auth |
| Routing.AdminPathsExcludeOthers | src/App.tsx:19-21 | /fleet, /documents, /analytics, /alerts and /settings never render for a driver or a supplier; a signed-in one is sent to /dashboard |
| Routing.DriverPathsExcludeOthers | src/App.tsx:19-21 | /trips, /expenses and /profile never render for an admin or a supplier; a signed-in one is sent to /dashboard |
| Routing.GuardedPathsAdmitTheirRole | src/App.tsx:46-55 | the admin paths render the admin dashboard for an admin and the driver paths render the driver dashboard for a driver |
| Routing.SharedPathsDispatchByRole | src/App.tsx:42-58 | signed in, /dashboard and /bilties render `DashboardRouter` of the role |
| Routing.RootAndUnlistedPaths | src/App.tsx:43 | "/" redirects to /dashboard and any unlisted path renders NotFound |
| Routing.NeverBlank | src/App.tsx:60 | every path either redirects or renders a page |
| AdminDashboard.FleetStatusTone | src/pages/AdminDashboard.tsx:291-298 | active is the success colour, maintenance the danger colour, and idle or any other status text the warning colour |
| AdminDashboard.PendingCount | src/pages/AdminDashboard.tsx:416 | the pending figure is at most the number of expenses |
| AdminDashboard.Decide | src/pages/AdminDashboard.tsx:402-404 | same length; the record with the id takes the decision, every other record is unchanged |
| AdminDashboard.DecideLowersPending | src/pages/AdminDashboard.tsx:402-404 | with unique ids, deciding a pending record lowers the pending figure by exactly one |
| AdminDashboard.DecideNeverAddsPending | src/pages/AdminDashboard.tsx:402-404 | no decision raises the pending figure |
| AdminDashboard.ExpenseRowControls | src/pages/AdminDashboard.tsx:456-469 | approve/reject buttons iff the record is pending, otherwise a badge showing its status |
| AdminDashboard.ExpensesSection.constructor | src/pages/AdminDashboard.tsx:400 | the list starts as the mock expense table, whose ids are unique |
| AdminDashboard.ExpensesSection.HandleAction | src/pages/AdminDashboard.tsx:402-404 | the list becomes `Decide` of the old list and its ids stay unique; the pending figure never rises, drops by exactly one when the id is a pending record's, and an unknown id changes nothing |
| AdminDashboard.ToggleStatus | src/pages/AdminDashboard.tsx:487-493 | same length; the driver with the id flips between on-trip and available, every other driver is unchanged |
| AdminDashboard.ToggleStatusTwice | src/pages/AdminDashboard.tsx:487-493 | toggling one driver twice restores the list |
| AdminDashboard.AvailableCount | src/pages/AdminDashboard.tsx:505 | the available figure is at most the number of drivers |
| AdminDashboard.ToggleMovesAvailable | src/pages/AdminDashboard.tsx:487-505 | with unique ids, toggling an available driver lowers the available figure by one and toggling an on-trip driver raises it by one |
| AdminDashboard.DriversSection.constructor | src/pages/AdminDashboard.tsx:485 | the list starts as the mock driver table, whose ids are unique |
| AdminDashboard.DriversSection.Toggle | src/pages/AdminDashboard.tsx:487-493 | the list becomes `ToggleStatus` of the old list and its ids stay unique; the available figure drops by one when the toggled driver was available and rises by one otherwise; an unknown id changes nothing |
| AdminDashboard.LicenseTag | src/pages/AdminDashboard.tsx:515-519 | Expired below 0 days, "<n>d left" in warning colour for 0..90, Valid above 90; each band both ways |
| AdminDashboard.LicenseTagOrdered | src/pages/AdminDashboard.tsx:515-519 | a later licence expiry is never more urgent, and equal badge texts mean equal badges |
| AdminDashboard.VaultVehiclesAreTheKeys | src/pages/AdminDashboard.tsx:138-165 | the admin's vehicle list holds every vault key exactly once |
| AdminDashboard.AccessibleVehicles | src/pages/AdminDashboard.tsx:769-774 | admin sees every vehicle, driver only HR-55-AF-1234, supplier only MH-12-AB-5678, any other role none; every vehicle returned is a vault key |
| AdminDashboard.DocsFor | src/pages/AdminDashboard.tsx:818 | the vehicle's documents, or the empty list for a vehicle that is not a vault key |
| AdminDashboard.AccessibleVehiclesHaveDocuments | src/pages/AdminDashboard.tsx:769-818 | every vehicle a role can see has a non-empty document group, so the fallback is never taken |
| AdminDashboard.VaultTag | src/pages/AdminDashboard.tsx:778-783 | Expired below 0 days, "<n>d left" in warning colour for 0..10, Valid above 10; each band both ways |
| AdminDashboard.VaultTagOrdered | src/pages/AdminDashboard.tsx:778-783 | a later expiry is never more urgent, and equal badge texts mean equal badges |
| AdminDashboard.CeilDays | src/pages/AdminDashboard.tsx:779 | the result is the ceiling of the millisecond difference in days |
| AdminDashboard.ExpiredCount | src/pages/AdminDashboard.tsx:820 | the expired figure is at most the group size |
| AdminDashboard.WarningCount | src/pages/AdminDashboard.tsx:821-824 | the expiring figure is at most the group size |
| AdminDashboard.WarningCountMatchesBadges | src/pages/AdminDashboard.tsx:778-824 | the expiring figure equals the number of rows showing the warning badge |
| AdminDashboard.ExpiredBadgesAreCounted | src/pages/AdminDashboard.tsx:778-820 | the rows badged Expired are no more than the expired figure |
| AdminDashboard.CountedTwiceOnlyOnExpiryDay | src/pages/AdminDashboard.tsx:820-824 | a document in both figures expired less than a day ago and is badged "0d left" |
| AdminDashboard.CountedTwiceJustAfterExpiry | src/pages/AdminDashboard.tsx:820-824 | one millisecond past expiry a document is in both figures |
| AdminDashboard.VaultTypeIcon | src/pages/AdminDashboard.tsx:785-791 | RC file, Insurance shield, Permit and License receipt, Fitness check icon |
| AdminDashboard.VaultAccessNote | src/pages/AdminDashboard.tsx:801-813 | the Limited Access badge shows iff the role is not admin; the note reads full access, assigned vehicle, or shipment vehicle for any other role |
| AdminDashboard.AccessNoteAgreesWithFilter | src/pages/AdminDashboard.tsx:769-813 | the badge shows iff the role sees fewer vehicles than an admin; a role with no access still reads the supplier's note |
| AdminDashboard.ExpandedAfterClick | src/pages/AdminDashboard.tsx:830 | a click closes the open group, or opens the clicked one and closes any other |
| AdminDashboard.ClickTwiceCloses | src/pages/AdminDashboard.tsx:830 | two clicks on one header leave every group closed, unless that group was open before |
| AdminDashboard.VaultSection.constructor | src/pages/AdminDashboard.tsx:766 | no group is expanded at first |
| AdminDashboard.VaultSection.ClickGroup | src/pages/AdminDashboard.tsx:830 | the expanded group becomes `ExpandedAfterClick` of the old one |
| DocumentVault.TypeIconsTotal | src/components/DocumentVault.tsx:13-19 | every document type has an icon entry |
| DocumentVault.ExpiryTag | src/components/DocumentVault.tsx:22-28 | Expired below 0 days, warning colour for 0..7, driver colour for 8..30 (both "<n>d left"), Valid above 30; each band both ways |
| DocumentVault.ExpiryTagMonotone | src/components/DocumentVault.tsx:22-28 | a later expiry is never more urgent |
| DocumentVault.ExpiryTagTextDetermines | src/components/DocumentVault.tsx:22-28 | equal badge texts mean equal badges |
| DocumentVault.DocumentIcon | src/components/DocumentVault.tsx:34-51 | the alert icon iff expired, otherwise the type's icon from the table |
| HealthGauge.GaugeColor | src/components/HealthGauge.tsx:14-18 | success from 80, warning from 50 to 79, danger below 50; each band both ways |
| HealthGauge.GaugeColorMonotone | src/components/HealthGauge.tsx:14-18 | a higher percentage never gets a worse colour |
| DigitalBilty.StatusStyle | src/components/DigitalBilty.tsx:10-17 | every status of the union has a style entry, and the three colours are distinct |
| DigitalBilty.StatusLabel | src/components/DigitalBilty.tsx:37 | the label has the status text's length |
| DigitalBilty.InTransitLabel | src/components/DigitalBilty.tsx:37 | "in-transit" is shown as "in transit" |
| DigitalBilty.DeliveredLabel | src/components/DigitalBilty.tsx:37 | "delivered" is shown unchanged |
| DigitalBilty.PendingLabel | src/components/DigitalBilty.tsx:37 | "pending" is shown unchanged |
| DigitalBilty.ReplaceKeepsLaterDashes | src/components/DigitalBilty.tsx:37 | the string replace changes only the first '-'; any later '-' stays |
| DriverDashboard.TripBadge | src/pages/DriverDashboard.tsx:59-61 | "● Active" iff a trip is active, "Idle" iff not |
| DriverDashboard.TripButtonLabel | src/pages/DriverDashboard.tsx:114 | "End Trip" iff a trip is active, "Start Trip" iff not |
| DriverDashboard.TripCardContent | src/pages/DriverDashboard.tsx:65-104 | route details iff a trip is active |
| DriverDashboard.TripPanel.constructor | src/pages/DriverDashboard.tsx:21 | no trip is active at first |
| DriverDashboard.TripPanel.PressTripButton | src/pages/DriverDashboard.tsx:108 | the trip flag flips |
| DriverDashboard.PressTwice | src/pages/DriverDashboard.tsx:108 | two presses restore the flag and the badge |
| SupplierPortal.FilterStocks | src/pages/SupplierPortal.tsx:64-66 | a stock is kept iff the lower-cased query occurs in its lower-cased DO number or stock name; the result is an order-preserving subsequence that keeps every copy of a matching stock |
| SupplierPortal.EmptyQueryKeepsAll | src/pages/SupplierPortal.tsx:64-66 | the empty query keeps every stock in order |
| SupplierPortal.QueryCaseIrrelevant | src/pages/SupplierPortal.tsx:65 | queries equal after lower-casing give the same cards |
| SupplierPortal.ExtendingQueryNarrows | src/pages/SupplierPortal.tsx:65 | when the new query contains the old one, its cards are a subsequence of the old cards |
| SupplierPortal.SelectionAfterClick | src/pages/SupplierPortal.tsx:123 | clicking the selected DO clears the selection; clicking any other selects it |
| SupplierPortal.SelectedTrucks | src/pages/SupplierPortal.tsx:68 | no selection, an empty one, or a DO that is not a table key gives no trucks; a table DO gives its trucks |
| SupplierPortal.SelectedBilties | src/pages/SupplierPortal.tsx:69 | no selection, an empty one, or a DO that is not a table key gives no bilties; a table DO gives its bilties |
| SupplierPortal.EveryStockHasShipments | src/pages/SupplierPortal.tsx:11-50 | every stock card has trucks and bilties behind it |
| SupplierPortal.BiltiesNameListedTrucks | src/pages/SupplierPortal.tsx:18-50 | each bilty of a DO names a truck listed for that DO |
| SupplierPortal.TruckBadge | src/pages/SupplierPortal.tsx:53-57 | in transit, loading and delivered get distinct colours and their own captions |
| SupplierPortal.PortalState.constructor | src/pages/SupplierPortal.tsx:61-62 | nothing selected and an empty query at first |
| SupplierPortal.PortalState.SetSearchQuery | src/pages/SupplierPortal.tsx:109 | the query changes and the selection is kept |
| SupplierPortal.PortalState.ClickStock | src/pages/SupplierPortal.tsx:123 | the selection becomes `SelectionAfterClick` of the old one; the query is kept |
| SupplierPortal.PortalState.Details | src/pages/SupplierPortal.tsx:68-69 | the trucks and bilties of the current selection |
| SupplierPortal.ClickSameCardTwice | src/pages/SupplierPortal.tsx:61-69 | on a fresh page no details show; one click shows the DO's trucks, a second click hides them |
| AuthPage.DisplayName | src/pages/AuthPage.tsx:26 | the name if non-empty; otherwise a prefix of the email free of '@' that ends at the first '@' or at the end |
| AuthPage.DisplayNameFromEmail | src/pages/AuthPage.tsx:26 | an email without '@' is the whole display name; "local@domain" gives "local" |
| AuthPage.SubmitText | src/pages/AuthPage.tsx:155 | "Sign In" iff in sign-in mode, "Create Account" iff not |
| AuthPage.SubmitOutcome | src/pages/AuthPage.tsx:23-28 | nothing happens iff no role is selected, which is when the button is disabled (line 148); otherwise login with that role and the display name, then /dashboard |
| AuthPage.SubmitLandsOnRoleDashboard | src/pages/AuthPage.tsx:26-27 | after a submit, /dashboard renders the selected role's own dashboard |
| AuthPage.AuthForm.constructor | src/pages/AuthPage.tsx:14-17 | sign-in mode, no role, empty name and email |
| AuthPage.AuthForm.SelectRole | src/pages/AuthPage.tsx:76 | the role is selected; other fields are kept |
| AuthPage.AuthForm.SetName | src/pages/AuthPage.tsx:111 | the name changes; other fields are kept |
| AuthPage.AuthForm.SetEmail | src/pages/AuthPage.tsx:123 | the email changes; other fields are kept |
| AuthPage.AuthForm.ToggleMode | src/pages/AuthPage.tsx:162 | the mode flips; the role, name and email are kept |
| AuthPage.AuthForm.HandleSubmit | src/pages/AuthPage.tsx:23-28 | with no role, the provider and storage are unchanged and nothing navigates; with a role, `Login` runs with the display name and navigation goes to /dashboard |
| AuthPage.ToggleTwice | src/pages/AuthPage.tsx:162 | two toggles return to the original mode |
| AuthPage.SignIn | src/pages/AuthPage.tsx:23-28 | a fresh sign-in stores the session and /dashboard renders the role's dashboard |
| Text.Lower | src/pages/SupplierPortal.tsx:65 | same length, each character lower-cased |
| Text.ContainsIffOccurs | src/pages/SupplierPortal.tsx:65 | `Contains` agrees with the definition of a substring occurring at some index |
| Text.LowerKeepsContains | src/pages/SupplierPortal.tsx:65 | lower-casing both strings keeps an occurrence |
| Text.ContainsTransitive | src/pages/SupplierPortal.tsx:65 | a substring of a substring is a substring |
| Text.BeforeFirst | src/pages/AuthPage.tsx:26 | a prefix without the separator that ends at the first separator or at the end |
| Text.FirstIndex | src/components/DigitalBilty.tsx:37 | no earlier occurrence, and the character is at that index unless the result is the length |
| Text.ReplaceFirst | src/components/DigitalBilty.tsx:37 | same length; only the character at the first occurrence changes |
| Text.ReplaceFirstWithout | src/components/DigitalBilty.tsx:37 | a string without the pattern is unchanged |
| Text.NatToDecimal | src/pages/AdminDashboard.tsx:518 | a non-empty string of digits with no leading zero; "0" for zero |
| Text.DecimalRoundTrip | src/pages/AdminDashboard.tsx:518 | reading back the rendered digits gives the number |
| Text.DaysLeftLabelInjective | src/pages/AdminDashboard.tsx:518 | distinct day counts give distinct "<n>d left" labels |
| Text.DaysLeftLabelIsNotWord | src/pages/AdminDashboard.tsx:518 | a "<n>d left" label never equals a word such as "Expired" or "Valid" |

## Left out

- AdminDashboard.FleetStatusTone: a status text outside the table gets the idle colour. The code's `map[status] || map.idle` reads a plain object, so an inherited key such as `"constructor"` or `"toString"` would return the inherited value instead. The model treats such a key like any other unknown status. No caller passes one, because statuses come from the fixed vehicle table.
- AdminDashboard.DocsFor: a vehicle outside the vault gets the empty list. The code's `vaultDocuments[vehicleNum] || []` would return an inherited `Object.prototype` value for a key such as `"constructor"`. The model does not capture that. Callers pass only keys from `AccessibleVehicles`.
- SupplierPortal.SelectedTrucks: a DO outside the table gets no trucks. The code's `mockTrucksByDO[selectedDO] || []` would return an inherited value for a key such as `"constructor"`, and the later `.map` would throw. The model does not capture that. Selections come only from the stock cards.
- SupplierPortal.SelectedBilties: a DO outside the table gets no bilties. The code's `biltyByDO[selectedDO] || []` has the same inherited-key behaviour, which the model does not capture.
- Rendering: JSX, CSS class strings, icons as images, animations and charts are not modelled. Colours are `Tone` values and icons are `Icon` values.
- The clock and the date parser. `new Date(text).getTime() - Date.now()` is the parameter `MsUntil`. date-fns `differenceInDays` is the `days` argument of `DocumentVault.ExpiryTag`.
- HealthGauge.GaugeColor: takes an integer percentage and leaves out the floating-point stroke offset, because the gauge is drawn and never read back.
- Routing.Resolve: uses exact path comparison. react-router's case-insensitive matching and its tolerance of a trailing slash are not modelled.
- Text.Lower: lower-cases ASCII letters only. JavaScript's `toLowerCase` also folds non-ASCII letters.
- The password and show-password fields of the auth page, and the browser's `required`/`type="email"` form validation, are not modelled. No credentials are checked anywhere in the code.
- The supplier header avatar initial and its logout button are not modelled. Logout itself is `Session.AuthProvider.Logout`.
- Mock tables that no modelled rule reads are not modelled: alerts, bilty cards, contacts, charts, and the fleet vehicle table beyond its status colour.
- `TruckPreloader.tsx`, `AppSidebar.tsx`, `BottomNav.tsx` and `GlassStatCard.tsx` are navigation chrome and display and are not modelled.
- React's asynchronous state batching is not modelled. Each `set…` call is one method that takes effect at once.
