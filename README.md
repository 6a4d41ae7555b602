# Car dealership web application: a verified model

This project models the core of a Next.js web application for a car dealership. The core has these parts:

- **Account endpoints** (`/api/auth/login`, `/api/auth/register`, `/api/users`) over a `user` table. The table enforces unique ids and unique emails, and passwords are stored only as hashes.
- **Authentication provider** (`AuthProvider`). It keeps the logged-in user and a copy under the `'user'` key of local storage. It also arms a shared idle timer (`utils/sessionManager.ts`, 30 minutes) that logs the user out.
- **Magic-link sign-in action.**
- **Car endpoints** (`/api/cars`). GET returns each stored image as a base64 `data:` URL. POST and PUT read multipart form data.
- **Financing partner endpoints** (`/api/financing`). POST stores the uploaded logo under `public/uploads`.
- **Dashboard panels**: customers, financing proposals, financing partners and the car registration form.
- **Catalogue page and home page**, each with its filters.

Modelling conventions:

- **Pure logic** is written as functions on datatypes. Examples are filters, handlers that compute a reply, and the session timer's state changes.
- **Stateful code** is written as classes with `modifies` clauses. This covers React components with `useState`, the database tables and the module-level timer handle. Each method's `ensures` ties the new state to a specification function of the old state. The properties the code promises are then proved about those functions as lemmas.
- **JavaScript semantics** are written out where the code depends on them: truthiness of form values, `parseInt` and `Number`, `String(null)`, object spread, `FormData.get` returning the first entry, and `path.join` normalisation.
- **Base64** follows section 4 of RFC 4648.
- **`data:` URLs** follow section 3 of RFC 2397.

Modules:

| module | file |
|---|---|
| shared types | `common.dfy` |
| list operations | `lists.dfy` |
| ASCII case and substring search | `text.dfy` |
| JavaScript numbers | `numbers.dfy` |
| base64 | `base64.dfy` |
| form data | `forms.dfy` |
| POSIX paths | `paths.dfy` |
| the `user` table | `account_store.dfy` |
| account endpoints | `login_route.dfy`, `register_route.dfy`, `users_route.dfy` |
| session timer | `session_manager.dfy` |
| authentication provider | `auth_context.dfy` |
| magic-link action | `magic_link.dfy` |
| car endpoints | `cars_route.dfy` |
| financing partner endpoints | `financing_route.dfy` |
| car registration form | `car_registration_form.dfy` |
| customers panel | `customers.dfy` |
| financing proposals panel | `financing_proposals.dfy` |
| financing partners panel | `financing_settings.dfy` |
| catalogue page | `inventory_page.dfy` |
| home page | `home_page.dfy` |

## Model

| member | source | states |
|---|---|---|
| AccountStore.AccessLevelOf | app/api/users/route.ts:36 | exactly the three schema spellings ADMIN, USER and READONLY are access levels, and USER is the level `User` |
| AccountStore.FindByEmail | app/api/auth/login/route.ts:9 | `findUnique` by email finds a row exactly when some row has that email, and the row it finds has it |
| AccountStore.FindByEmailUnique | app/api/auth/login/route.ts:9 | under the unique-email constraint, the row found is the one row with that email |
| AccountStore.AppendKeepsKeysUnique | app/api/auth/register/route.ts:16-24 | inserting a row whose id and email are both new keeps ids and emails unique |
| AccountStore.UserTable.constructor | app/api/auth/register/route.ts:16-24 | the table starts from rows with unique keys |
| AccountStore.UserTable.Create | app/api/auth/register/route.ts:16-24 | the insert succeeds exactly when neither the id nor the email is taken, then appends the row, and otherwise changes nothing; the keys stay unique |
| LoginRoute.Post | app/api/auth/login/route.ts:5-25 | a thrown call answers 500; an unknown email answers 404; a password that does not match the stored hash answers exactly 401 "Invalid password"; success answers 200 with the matching account minus its password |
| LoginRoute.PostOutcomes | app/api/auth/login/route.ts:5-25 | the status is one of 200, 401, 404 and 500, and 200 exactly when there is no fault, the email is known and the password matches its hash |
| LoginRoute.UnknownEmailSkipsCompare | app/api/auth/login/route.ts:10-14 | for an unknown email the answer is 404 whatever the hash comparison would say: it is never consulted |
| LoginRoute.LoginAsStoredAccount | app/api/auth/login/route.ts:14-20 | a stored account whose password matches logs in as exactly that account without its password |
| RegisterRoute.Post | app/api/auth/register/route.ts:5-32 | an email in use answers 400 "Email already in use"; 201 exactly when nothing throws and the email and id are new, and then the new account is appended and returned without its password; every other outcome is exactly 500 "Internal server error" and leaves the table as it was |
| RegisterRoute.NewAccountDefaults | app/api/auth/register/route.ts:14-24 | a registered account carries the request's name and email, access level USER, status true, and the hash of the password, never the plaintext |
| UsersRoute.Get | app/api/users/route.ts:5-15 | 500 "Failed to fetch users" exactly on a fault; otherwise one summary per row, in order, with id, name, email, access level and timestamps and no password |
| UsersRoute.Post | app/api/users/route.ts:17-45 | a blank name, email, password or access level answers 400 "Missing required fields"; a known email answers 400 "Email already in use"; 201 exactly when the fields are present, the email and id are new, the access level is one of the enumeration and nothing throws, and then the account is appended; every other outcome is exactly 500 "Failed to create user"; the table changes only on 201 |
| SessionManager.Session.constructor | utils/sessionManager.ts:2 | the module starts with no timer pending |
| SessionManager.Session.ResetTimeout | utils/sessionManager.ts:4-9 | the new timer state is `Reset` of the old one: the pending timer is replaced by the callback, due SESSION_DURATION later |
| SessionManager.Session.ClearTimeout | utils/sessionManager.ts:11-15 | the new timer state is `Clear` of the old one: nothing is pending |
| SessionManager.Session.AdvanceTo | utils/sessionManager.ts:8 | running the clock fires a due timer once and returns it |
| SessionManager.ResetReplacesPending | utils/sessionManager.ts:4-9 | after a reset exactly the new callback is pending, due 1,800,000 ms later; before then nothing fires, and from then on only the new callback fires, never the cancelled one |
| SessionManager.ClearIsFinal | utils/sessionManager.ts:11-15 | after a clear no callback ever fires; clearing twice, or with nothing pending, changes nothing |
| SessionManager.ActivityKeepsSessionAlive | utils/sessionManager.ts:1-9 | resets less than SESSION_DURATION apart fire nothing and leave one timer due SESSION_DURATION after the last reset |
| SessionManager.IdleSessionExpiresOnce | utils/sessionManager.ts:1-9 | SESSION_DURATION of idleness after the last reset fires the callback exactly once and nothing afterwards |
| AuthContext.LogoutState | contexts/AuthContext.tsx:26-31 | logout forgets the user and the stored copy, cancels the timer and navigates to `/` |
| AuthContext.HandleActivity | contexts/AuthContext.tsx:33-37 | one of the four activity events, while the listener's user is set, re-arms logout SESSION_DURATION ahead; any other event, or no user, changes nothing |
| AuthContext.MountEffects | contexts/AuthContext.tsx:39-60 | on mount a stored user becomes the user, as a new object, and arms the timer; the listeners subscribe seeing the user object of the first render |
| AuthContext.RerenderAsWritten | contexts/AuthContext.tsx:47-60 | as written, a render after the user object changed identity (React's `Object.is` on the callback's dependencies, even for an equal account) re-subscribes the listeners and its cleanup leaves no timer pending; otherwise nothing changes |
| AuthContext.Rerender | contexts/AuthContext.tsx:47-60 | corrected: re-subscribing on a new user object leaves the timer as it was |
| AuthContext.Unmounted | contexts/AuthContext.tsx:53-59 | unmounting removes the listeners and clears the timer, and keeps the user |
| AuthContext.LoginOutcome | contexts/AuthContext.tsx:62-83 | login throws exactly when the reply is not an ok reply carrying the account, and then nothing changes; otherwise the user is set to a new object and stored, the timer is armed and the browser goes to `/dashboard` |
| AuthContext.Tick | utils/sessionManager.ts:8 | the clock reaching a due timer runs logout; otherwise only the clock moves |
| AuthContext.AuthProvider.constructor | contexts/AuthContext.tsx:23-24 | a provider starts with no user and the given stored copy, not yet listening |
| AuthContext.AuthProvider.Logout | contexts/AuthContext.tsx:26-31 | the new state is `LogoutState` of the old |
| AuthContext.AuthProvider.DispatchWindowEvent | contexts/AuthContext.tsx:33-37 | the new state is `HandleActivity` of the old |
| AuthContext.AuthProvider.Mount | contexts/AuthContext.tsx:39-60 | the new state is `MountEffects` of the old |
| AuthContext.AuthProvider.Render | contexts/AuthContext.tsx:47-60 | the new state is `RerenderAsWritten` of the old: when the listeners were made for another user object than the current one, the effect's cleanup clears the pending timer before the listeners are re-attached |
| AuthContext.AuthProvider.Unmount | contexts/AuthContext.tsx:53-59 | the new state is `Unmounted` of the old |
| AuthContext.AuthProvider.Login | contexts/AuthContext.tsx:62-83 | the new state and whether it threw are `LoginOutcome` of the old state and the reply |
| AuthContext.AuthProvider.AdvanceClock | utils/sessionManager.ts:8 | the new state is `Tick` of the old |
| AuthContext.Activity | contexts/AuthContext.tsx:33-37 | a run of mouse moves leaves the clock at the last one |
| AuthContext.ActivityKeepsUserLoggedIn | contexts/AuthContext.tsx:33-37 | activity less than SESSION_DURATION apart keeps the user, the stored copy and the navigation history, with logout due SESSION_DURATION after the last event |
| AuthContext.IdleUserIsLoggedOut | contexts/AuthContext.tsx:26-37 | SESSION_DURATION of idleness after the last activity logs the user out, drops the stored copy and navigates once to `/` |
| AuthContext.IgnoredEvents | contexts/AuthContext.tsx:33-37 | other events, and any event while the listener sees no user, change nothing |
| AuthContext.LoginAfterMount | contexts/AuthContext.tsx:62-83 | a successful login after a mount with nothing stored sets the user while the listeners still see none |
| AuthContext.LoginThenIdleNeverExpiresAsWritten | contexts/AuthContext.tsx:47-60 | as written, after a login and the render that follows, the user stays logged in however late the clock runs |
| AuthContext.ReloginThenIdleNeverExpiresAsWritten | contexts/AuthContext.tsx:60-77 | as written, logging in again as the account already logged in also clears the timer on the next render, because the reply is a new object: the user is never logged out |
| AuthContext.ReloginThenIdleExpires | contexts/AuthContext.tsx:60-77 | corrected: the same re-login is logged out exactly when SESSION_DURATION has passed since it |
| AuthContext.LoginThenIdleExpires | contexts/AuthContext.tsx:62-83 | corrected: an idle user is logged out exactly when SESSION_DURATION has passed since the login, and then the stored copy is gone and the browser has gone to `/dashboard` and then `/` |
| AuthContext.UseAuth | contexts/AuthContext.tsx:92-98 | `useAuth` throws its message exactly outside a provider and otherwise returns the context |
| MagicLink.RequestMagicLink | app/auth/_components/app-actions-auth.ts:6-21 | the action redirects to `/auth/check-email` exactly when the first `email` entry is non-empty text, and otherwise returns the error "Please provide a valid email address." |
| MagicLink.FirstEmailDecides | app/auth/_components/app-actions-auth.ts:7-11 | only the first `email` entry counts: a file there is refused whatever follows |
| Forms.GetFindsFirst | app/api/cars/route.ts:22 | `formData.get` is null exactly when no entry has the name, and otherwise the value of the first entry that has it |
| Numbers.DigitsValueOfNatDigits | app/dashboard/_components/car-registration-form.tsx:67-78 | the decimal text of a natural number has that value |
| Numbers.ParseIntOfString | app/api/cars/route.ts:34 | `parseInt(String(x)) == x` for every integer of the model and NaN; in JavaScript this covers the safe integers |
| Numbers.ToNumberOfString | app/dashboard/_components/car-registration-form.tsx:45-55 | `Number(String(x)) == x` for every integer of the model and NaN; in JavaScript this covers the safe integers |
| Numbers.ParseInt | app/api/cars/route.ts:34 | `parseInt` is NaN exactly when no digit follows the leading space and sign |
| Numbers.ToNumber | app/dashboard/_components/car-registration-form.tsx:52 | `Number` of blank text is 0 |
| Numbers.NumberToString | app/dashboard/_components/car-registration-form.tsx:74 | `String` of NaN is "NaN", and the text of an integer starts with "-" exactly when it is negative |
| Base64.EncodeShape | app/api/cars/route.ts:9 | the encoding has four characters per three octets or fewer, each from the alphabet or the pad |
| Base64.DecodeEncode | app/api/cars/route.ts:9 | decoding undoes encoding for every octet string |
| Base64.EncodeInjective | app/api/cars/route.ts:9 | different octet strings have different encodings |
| Paths.SplitAtSlash | app/api/financing/route.ts:35 | a slash ends the segment before it |
| Paths.JoinPlainName | app/api/financing/route.ts:35 | `path.join` of a plain name (no slash, not empty, `.` or `..`) names an entry directly inside the directory |
| Paths.BaseName | app/api/financing/route.ts:33 | the base name has no slash, is a suffix of the name, and is the whole name when it has no slash |
| Text.ContainsAt | app/dashboard/_components/customers.tsx:94-107 | `includes` holds exactly when the term occurs at some index |
| Text.ContainsEmpty | app/dashboard/_components/customers.tsx:94-107 | every string includes the empty term |
| Text.IgnoringCaseLowerTerm | app/dashboard/_components/customers.tsx:94-107 | case-insensitive search gives the same answer for a term and its lower-cased form |
| Text.Lower | app/dashboard/_components/customers.tsx:96-98 | `toLowerCase` keeps the length and lower-cases each character on its own |
| Lists.Filter | app/dashboard/_components/customers.tsx:94 | `filter` keeps, in order, the elements that pass and no others |
| Lists.FilterMultiplicity | app/dashboard/_components/customers.tsx:94 | `filter` keeps each element that passes as often as it occurs, and never adds a copy |
| Lists.FilterTwice | app/dashboard/_components/financing-proposals.tsx:71-76 | filtering twice is filtering once by both tests |
| Lists.FilterConcat | app/dashboard/_components/customers.tsx:68 | filtering a concatenation filters each part |
| Lists.ReplaceWhere | app/dashboard/_components/customers.tsx:62 | `map` with an id test replaces exactly the matching elements and keeps the length |
| CarsRoute.DataUrl | app/api/cars/route.ts:9 | the image URL starts with `data:image/jpeg;base64,` and its data decodes back to the stored bytes |
| CarsRoute.DataUrlRoundTrip | app/api/cars/route.ts:9 | parsing an image URL gives back the image, and different images give different URLs |
| CarsRoute.View | app/api/cars/route.ts:7-10 | a car has an image URL exactly when it has stored bytes, and the URL carries those bytes |
| CarsRoute.GetCars | app/api/cars/route.ts:4-18 | 500 "Failed to fetch cars" exactly on a fault; otherwise one car per row, in order, with every column kept and the image turned into its URL |
| CarsRoute.TextField | app/api/cars/route.ts:32 | a string column is read exactly when its entry is text |
| CarsRoute.IntField | app/api/cars/route.ts:34 | a number column is `parseInt` of its text, and NaN for a missing entry (read as "null") or a file |
| CarsRoute.ImageField | app/api/cars/route.ts:22-28 | reading the image throws exactly for non-empty text; null or empty text means no image; a file gives its bytes |
| CarsRoute.Fields | app/api/cars/route.ts:30-42 | the columns are accepted exactly when every string column is text and every number column is finite, and then each column holds the value read from its entry |
| CarsRoute.RowOf | app/api/cars/route.ts:58-59 | the position of the row with the id, or None exactly when no row has it |
| CarsRoute.Updated | app/api/cars/route.ts:58-71 | an updated row keeps its id, takes model, manufacturer, year, price, color, license plate, doors and transmission from the form, and takes the new image only when one was uploaded |
| CarsRoute.AppendKeepsIdsBelow | app/api/cars/route.ts:30 | appending a row with the next id keeps the ids ordered and below the next id |
| CarsRoute.ReplaceKeepsIdsBelow | app/api/cars/route.ts:58 | overwriting a row with one of the same id keeps the id invariant |
| CarsRoute.CarTable.constructor | app/api/cars/route.ts:30 | the table starts empty with the first id 1 |
| CarsRoute.CarTable.Post | app/api/cars/route.ts:20-45 | the request answers exactly when the image reads and the columns are accepted, and then it appends and returns the car with the next id; otherwise it throws and nothing is stored |
| CarsRoute.CarTable.Put | app/api/cars/route.ts:47-74 | the request answers exactly when the image reads, the columns are accepted, the id is a number and names a row, and then only that row is replaced by its update; otherwise it throws and nothing changes |
| CarsRoute.FieldReadsBack | app/dashboard/_components/car-registration-form.tsx:67-78 | a property of the form state reads back on the server as the entry it became |
| CarsRoute.SubmittedTextField | app/dashboard/_components/car-registration-form.tsx:67-78 | a text property arrives as that text |
| CarsRoute.SubmittedNumberField | app/dashboard/_components/car-registration-form.tsx:67-78 | a finite number property arrives as its decimal text and parses back to it |
| CarsRoute.SubmittedCarIsStored | app/api/cars/route.ts:20-45 | a form state with text fields, finite numbers and a chosen file is read by POST field for field, and the image as the file's bytes |
| CarsRoute.NullImageMakesPostThrow | app/api/cars/route.ts:22-26 | a form whose image is still null submits the text "null", and POST throws on it |
| FinancingRoute.GetPartners | app/api/financing/route.ts:8-16 | 500 "Failed to fetch financing partners" exactly on a fault, otherwise every row |
| FinancingRoute.LogoFileNameAsWritten | app/api/financing/route.ts:33 | as written, the file name is the millisecond timestamp (its digits read back by `parseInt`), a dash and the uploaded name unchanged |
| FinancingRoute.UploadEscapesAsWritten | app/api/financing/route.ts:33-36 | as written, a logo named `../../../x` is written as `x` in the parent of the uploads directory, outside it |
| FinancingRoute.LogoFileName | app/api/financing/route.ts:33 | corrected: the name is the timestamp, a dash and the uploaded name's base name, so it has no slash and is not empty, `.` or `..`; it equals the written form for names without a slash |
| FinancingRoute.LogoStaysInUploads | app/api/financing/route.ts:35-36 | the corrected name always joins to an entry directly inside the uploads directory |
| FinancingRoute.LogoOf | app/api/financing/route.ts:24-30 | the logo is read as a file exactly when the required fields are present and the logo entry is a file |
| FinancingRoute.NewRow | app/api/financing/route.ts:38-45 | the insert is accepted exactly when name and description are text and the additional information is not a file, with the given id and logo path; the additional information is stored exactly when it is sent, as the text sent |
| FinancingRoute.AppendKeepsIdsBelow | app/api/financing/route.ts:38 | appending a row with the next id keeps the ids ordered and below the next id |
| FinancingRoute.PostOutcome | app/api/financing/route.ts:18-52 | 400 exactly when a required field is missing, and then nothing is written or stored; the logo is written, at `path.join` of the uploads directory and the as-written file name, exactly when it is a file and the write succeeds; a row with logo `/uploads/<name>` and the next id is inserted exactly when the reply is a success; every other failure is 500 "Failed to create financing partner" |
| FinancingRoute.PartnerStore.constructor | app/api/financing/route.ts:6 | the store starts empty, with the uploads directory given |
| FinancingRoute.PartnerStore.WriteUpload | app/api/financing/route.ts:35-36 | writing stores the bytes under the given path and changes nothing else |
| FinancingRoute.PartnerStore.Post | app/api/financing/route.ts:18-52 | the reply, the file written (at `path.join` of the uploads directory and the as-written name) and the row inserted are those `PostOutcome` plans, and the ids stay ordered |
| FinancingRoute.CreatedLogoIsStored | app/api/financing/route.ts:34-41 | a created partner's logo path is `/uploads/` followed by a name whose `path.join` with the uploads directory is where the uploaded bytes were written; for an uploaded name without a slash that name is the corrected `LogoFileName` and the file lies directly inside the uploads directory |
| FinancingRoute.PostWritesOutsideUploadsAsWritten | app/api/financing/route.ts:33-36 | as written, the POST handler given a logo named `../../../x` writes it as `x` in the parent of the uploads directory, outside it |
| CarRegistrationForm.Defaults | app/dashboard/_components/car-registration-form.tsx:27-37 | the initial state has no property twice |
| CarRegistrationForm.DefaultsReadBack | app/dashboard/_components/car-registration-form.tsx:27-37 | a fresh form has a null image, the current year, price 0, four doors, transmission "automático", and empty model, manufacturer, color and license plate |
| CarRegistrationForm.Lookup | app/dashboard/_components/car-registration-form.tsx:9-19 | a missing property reads as None, and a present one as its value |
| CarRegistrationForm.Assign | app/dashboard/_components/car-registration-form.tsx:45-55 | spread-assignment replaces an existing property in place or appends a new one, and keeps the keys unique |
| CarRegistrationForm.AssignThenLookup | app/dashboard/_components/car-registration-form.tsx:45-55 | after an assignment the property reads back the new value and every other property reads as before |
| CarRegistrationForm.InputValue | app/dashboard/_components/car-registration-form.tsx:45-55 | the price is stored through `parseFloat`, other number inputs through `Number`, and text as typed |
| CarRegistrationForm.EntryOf | app/dashboard/_components/car-registration-form.tsx:70-76 | a property becomes an entry with its key; a file stays a file, and any other value is sent as the text `String(value)` |
| CarRegistrationForm.StringOf | app/dashboard/_components/car-registration-form.tsx:74 | `String(value)`: a string is itself, a number becomes text that `parseInt` and `Number` read back as that number, and null and undefined become "null" and "undefined" |
| CarRegistrationForm.Serialize | app/dashboard/_components/car-registration-form.tsx:67-78 | one entry per property, in property order |
| CarRegistrationForm.SubmittedFieldReadsBack | app/dashboard/_components/car-registration-form.tsx:67-78 | reading a submitted field by name gives the entry its property became |
| CarRegistrationForm.CarForm.constructor | app/dashboard/_components/car-registration-form.tsx:27-43 | present `initialData` replaces the defaults |
| CarRegistrationForm.CarForm.InitialDataChanged | app/dashboard/_components/car-registration-form.tsx:39-43 | when `initialData` changes later, present data replaces the form state and absent data leaves it; the submit record is untouched |
| CarRegistrationForm.CarForm.HandleInputChange | app/dashboard/_components/car-registration-form.tsx:45-55 | the state is the old one with the input's value assigned |
| CarRegistrationForm.CarForm.HandleFileChange | app/dashboard/_components/car-registration-form.tsx:57-61 | the first chosen file becomes the image; with none chosen, nothing changes |
| CarRegistrationForm.CarForm.HandleSelectChange | app/dashboard/_components/car-registration-form.tsx:63-65 | the state is the old one with the selected value assigned |
| CarRegistrationForm.CarForm.HandleSubmit | app/dashboard/_components/car-registration-form.tsx:67-78 | the loop hands `onSubmit` exactly the serialised state, once, and the state is unchanged |
| Customers.SetDraftField | app/dashboard/_components/customers.tsx:50-57 | the named field of the draft takes the value and the others are kept |
| Customers.SetCustomerField | app/dashboard/_components/customers.tsx:50-57 | the named field of the edited customer takes the value, the others are kept, and the id survives |
| Customers.MaxId | app/dashboard/_components/customers.tsx:67 | the result is at least 0 and at least every id, and is 0 or one of the ids |
| Customers.NextId | app/dashboard/_components/customers.tsx:67 | a new id is at least 1 and larger than every existing id |
| Customers.Added | app/dashboard/_components/customers.tsx:67-68 | adding appends the draft with the fresh id and keeps ids unique |
| Customers.Edited | app/dashboard/_components/customers.tsx:61-65 | saving replaces exactly the entries with the edited id and keeps ids unique |
| Customers.Deleted | app/dashboard/_components/customers.tsx:84-86 | deleting keeps, in order, exactly the entries with another id, each as often as it occurs |
| Customers.Matches | app/dashboard/_components/customers.tsx:95-106 | the empty term matches every customer in every mode |
| Customers.SubsequenceKeepsIdsUnique | app/dashboard/_components/customers.tsx:84-86 | a sub-list of a list with unique ids has unique ids |
| Customers.DeletedKeepsIdsUnique | app/dashboard/_components/customers.tsx:84-86 | deleting keeps ids unique |
| Customers.FilteredCustomers | app/dashboard/_components/customers.tsx:94-107 | the shown customers are, in order, exactly those matching the term in the chosen mode, each as often as it occurs |
| Customers.EmptySearchKeepsAll | app/dashboard/_components/customers.tsx:94-107 | an empty term shows every customer in every mode |
| Customers.UnknownModeIsAll | app/dashboard/_components/customers.tsx:94-107 | an unknown mode filters like `all` |
| Customers.Seed | app/dashboard/_components/customers.tsx:24-33 | seven seeded customers with ids 1 to 7 |
| Customers.CustomersPanel.constructor | app/dashboard/_components/customers.tsx:24-48 | the panel starts with the seed, an empty draft, no edit, no search and no message |
| Customers.CustomersPanel.HandleInputChange | app/dashboard/_components/customers.tsx:50-57 | the input goes to the customer being edited, if any, else to the draft, and nothing else changes |
| Customers.CustomersPanel.HandleSubmit | app/dashboard/_components/customers.tsx:59-82 | an edit replaces the customer with that id and says "Customer information updated successfully!"; otherwise the draft is added with a fresh id, reset, and "New customer added successfully!" shown; ids stay unique |
| Customers.CustomersPanel.ClearConfirmation | app/dashboard/_components/customers.tsx:81 | the timer clears only the message |
| Customers.CustomersPanel.HandleDelete | app/dashboard/_components/customers.tsx:84-86 | the list becomes `Deleted` of the old one and ids stay unique |
| Customers.CustomersPanel.SetEditing | app/dashboard/_components/customers.tsx:88-92 | only the customer being edited changes |
| Customers.CustomersPanel.SetSearch | app/dashboard/_components/customers.tsx:45-46 | only the search term and mode change |
| Customers.CustomersPanel.Shown | app/dashboard/_components/customers.tsx:94-107 | the shown rows are `FilteredCustomers` of the panel's customers, search term and mode, and all rows when the term is empty |
| FinancingProposals.Apply | app/dashboard/_components/financing-proposals.tsx:78-82 | the named field takes the value and every other field, id and documents included, is kept |
| FinancingProposals.NewDraft | app/dashboard/_components/financing-proposals.tsx:95-110 | a new proposal has id 0, status pending, no documents, value 0, empty texts and today's date |
| FinancingProposals.Saved | app/dashboard/_components/financing-proposals.tsx:84-93 | a non-zero id replaces the entries with that id; id 0 appends the draft numbered one past the length; sequential ids stay sequential |
| FinancingProposals.FilteredProposals | app/dashboard/_components/financing-proposals.tsx:71-76 | the shown proposals are, in order, exactly those matching the term and the status filter, each as often as it occurs |
| FinancingProposals.Matches | app/dashboard/_components/financing-proposals.tsx:71-76 | with an empty term a proposal matches exactly when the status filter is `all` or its status |
| FinancingProposals.EmptySearchFiltersByStatusOnly | app/dashboard/_components/financing-proposals.tsx:71-76 | with no term only the status filter applies, and `all` shows everything |
| FinancingProposals.Seed | app/dashboard/_components/financing-proposals.tsx:36-65 | two seeded proposals numbered 1 and 2 |
| FinancingProposals.SaveNumbering | app/dashboard/_components/financing-proposals.tsx:84-93 | a new proposal gets an id no existing one has; saving an existing one moves no id |
| FinancingProposals.ProposalsPanel.constructor | app/dashboard/_components/financing-proposals.tsx:36-69 | the panel starts with the seed, no search and no draft |
| FinancingProposals.ProposalsPanel.HandleProposalChange | app/dashboard/_components/financing-proposals.tsx:78-82 | only the draft's named field changes; with no draft, nothing |
| FinancingProposals.ProposalsPanel.HandleSaveProposal | app/dashboard/_components/financing-proposals.tsx:84-93 | a draft is saved and closed; ids stay sequential |
| FinancingProposals.ProposalsPanel.HandleAddNewProposal | app/dashboard/_components/financing-proposals.tsx:95-110 | the draft becomes a new proposal dated today |
| FinancingProposals.ProposalsPanel.EditProposal | app/dashboard/_components/financing-proposals.tsx:245 | the draft becomes the chosen proposal |
| FinancingProposals.ProposalsPanel.SetSearch | app/dashboard/_components/financing-proposals.tsx:67-68 | only the search term and status filter change |
| FinancingSettings.SaveRequest | app/dashboard/_components/financing-settings.tsx:52-53 | PUT to the partner's URL exactly when one is being edited, otherwise POST to the collection |
| FinancingSettings.AfterSave | app/dashboard/_components/financing-settings.tsx:66-70 | an edit replaces the partners with the saved id; an addition appends |
| FinancingSettings.AfterDelete | app/dashboard/_components/financing-settings.tsx:93 | the partners with any other id, in order, each as often as it occurs |
| FinancingSettings.SaveOfUnknownIdChangesNothing | app/dashboard/_components/financing-settings.tsx:66-70 | editing an id not in the list changes nothing |
| FinancingSettings.DeleteOfUnknownIdChangesNothing | app/dashboard/_components/financing-settings.tsx:93 | deleting an unknown id changes nothing |
| FinancingSettings.PartnersPanel.constructor | app/dashboard/_components/financing-settings.tsx:23-26 | the panel starts empty and closed |
| FinancingSettings.PartnersPanel.FetchPartners | app/dashboard/_components/financing-settings.tsx:33-45 | one GET; the list is replaced on success, and an error toast is shown otherwise |
| FinancingSettings.PartnersPanel.OpenForNew | app/dashboard/_components/financing-settings.tsx:119 | opens a blank dialog |
| FinancingSettings.PartnersPanel.CloseDialog | app/dashboard/_components/financing-settings.tsx:117 | closing the dialog clears only the open flag |
| FinancingSettings.PartnersPanel.OpenForEdit | app/dashboard/_components/financing-settings.tsx:186 | opens the dialog on the chosen partner |
| FinancingSettings.PartnersPanel.HandleLogoChange | app/dashboard/_components/financing-settings.tsx:102-111 | a chosen file's data URL becomes the preview; with none chosen, nothing changes |
| FinancingSettings.PartnersPanel.HandleSubmit | app/dashboard/_components/financing-settings.tsx:47-80 | one save request; on success the list is updated, the dialog closed and the success toast shown; on failure only the error toast |
| FinancingSettings.PartnersPanel.HandleDelete | app/dashboard/_components/financing-settings.tsx:82-100 | nothing without confirmation; otherwise one DELETE, then the partner is removed with a success toast, or an error toast is shown |
| InventoryPage.FilteredCars | app/catalog/_components/inventory-page.tsx:38-42 | the listed cars are, in order, exactly those passing the term, type and year-range tests, each as often as it occurs |
| InventoryPage.Shown | app/catalog/_components/inventory-page.tsx:38-42 | a year range whose start is after its end shows no car; with no term and no type selected a car is shown exactly when its year is in the range |
| InventoryPage.InitialStateShowsAll | app/catalog/_components/inventory-page.tsx:22-42 | the page as it first appears lists the whole catalogue |
| InventoryPage.EmptyRangeShowsNothing | app/catalog/_components/inventory-page.tsx:38-42 | a range whose start is after its end shows nothing |
| InventoryPage.Toggled | app/catalog/_components/inventory-page.tsx:69-75 | checking appends the type; unchecking removes every copy and keeps each other type, in order, as often as it occurs |
| InventoryPage.CheckThenUncheck | app/catalog/_components/inventory-page.tsx:69-75 | checking an unchecked type and unchecking it gives back the selection |
| InventoryPage.Inventory.constructor | app/catalog/_components/inventory-page.tsx:34-36 | no term, no type and the range 2021 to 2023 |
| InventoryPage.Inventory.ToggleType | app/catalog/_components/inventory-page.tsx:69-75 | the selection becomes `Toggled` of the old one |
| InventoryPage.Inventory.SetSearchTerm | app/catalog/_components/inventory-page.tsx:34 | only the term changes |
| InventoryPage.Inventory.SetYearRange | app/catalog/_components/inventory-page.tsx:92-93 | only the range changes |
| InventoryPage.Inventory.Listed | app/catalog/_components/inventory-page.tsx:38-42 | the listed cars are a sub-list of the catalogue, every one passes the page's term, type and year-range tests, and every catalogue car that passes is listed as often as it occurs |
| HomePage.FilteredCars | app/home/_components/home-page.tsx:40-42 | the whole showcase for the empty selection or `allCars`, otherwise exactly the cars of the category, in order |
| HomePage.UnknownCategoryIsEmpty | app/home/_components/home-page.tsx:40-42 | a category no car has gives an empty carousel |
| HomePage.Capitalized | app/home/_components/home-page.tsx:102 | the first character upper-cased, the rest kept |
| HomePage.HeadingAsWritten | app/home/_components/home-page.tsx:102 | as written, "All Categories" exactly for the empty selection, and the capitalised selection followed by " Cars" for any other |
| HomePage.AllCarsOptionHeadingAsWritten | app/home/_components/home-page.tsx:86-102 | as written, the "All Categories" option shows every car under the heading "AllCars Cars" |
| HomePage.Heading | app/home/_components/home-page.tsx:102 | corrected: "All Categories" exactly when every car is shown, else the capitalised category and " Cars" |
| HomePage.HeadingMatchesCarousel | app/home/_components/home-page.tsx:40-42 | the corrected heading reads "All Categories" exactly when the carousel shows the whole showcase |

## Findings

| source | as written | input that shows it | evidently intended | confidence | as-written member | corrected member |
|---|---|---|---|---|---|---|
| contexts/AuthContext.tsx:47-60 | The listener effect depends on `handleActivity`, which is made anew whenever `user` is a new object, even one equal to the old. Its cleanup also clears the session timer. So the render after a login clears the timer the login just armed. | A successful login followed by no activity, or a second login as the same account: the user is never logged out. | An idle user is logged out SESSION_DURATION after the last activity or login. | medium, not executed | AuthContext.LoginThenIdleNeverExpiresAsWritten | AuthContext.LoginThenIdleExpires |
| app/home/_components/home-page.tsx:102 | The heading tests only for the empty selection. | Choosing the "All Categories" option (value `allCars`) gives the heading "AllCars Cars" above the whole showcase. | "All Categories" whenever every car is shown. | high, not executed | HomePage.AllCarsOptionHeadingAsWritten | HomePage.HeadingMatchesCarousel |
| app/api/financing/route.ts:33-36 | The uploaded file's name goes into `path.join` unchanged. | A logo named `../../../x` is written as `x` in the parent of the uploads directory. | The logo is written inside the uploads directory. | high, not executed | FinancingRoute.PostWritesOutsideUploadsAsWritten | FinancingRoute.LogoStaysInUploads |

The stateful model runs the code as written:

- `AuthProvider.Render` follows `RerenderAsWritten`, so the render after a login clears the timer the login armed.
- `PartnerStore.Post` writes the logo at `path.join` of the uploads directory and `LogoFileNameAsWritten`; `PostWritesOutsideUploadsAsWritten` shows the escape through the handler itself.
- The home page's heading as written is `HeadingAsWritten`.

The corrected halves stand beside them as specification functions with their properties proved: `Rerender` with `LoginThenIdleExpires`, `Heading` with `HeadingMatchesCarousel`, and `LogoFileName` with `LogoStaysInUploads`.

## Left out

**Runtime and environment**
- Floating point is not modelled. `parseFloat` of a price or proposal value is read as `parseInt` of the same text, so fractions are lost.
- `Number` and `parseInt` are modelled for decimal integers with optional sign and ASCII white space. Hexadecimal, exponents and fractions are not modelled.
- Numbers.ParseIntOfString, Numbers.ToNumberOfString: the model's numbers are unbounded integers and `String` writes every one in plain decimal. JavaScript's doubles are exact only up to 2^53, and `String` switches to exponent form from 1e21 (`parseInt("1e+21")` is 1), so the round trips hold in JavaScript for the safe integers only.
- `toLowerCase` and `toUpperCase` act on ASCII letters only.
- `toLocaleString` display formatting is not modelled.
- `Date.now()` and `new Date()` are parameters.
- Time is counted in whole milliseconds.
- The magic-link action's 1500 ms delay is not modelled.
- Console logging is not modelled.

**Framework and browser**
- Every `fetch` outcome, the browser's `confirm()` answer and the file reader's result are parameters.
- Toasts are recorded as messages.
- The customers panel's three-second timer is the separate step `ClearConfirmation`.
- The customers panel's dialog flags `isEditing` and `isModalOpen` are not modelled; the panel's state is its customers, the new-customer form, the customer being edited, the search term, the mode and the confirmation message. The financing partners panel's `isDialogOpen` is modelled.
- React's identity comparison of effect dependencies is modelled for the user object only: each account parsed or fetched is a new object, numbered by a counter.
- Only the `'user'` key of local storage is modelled. `JSON.stringify` and `JSON.parse` are taken as inverses.
- The framework's answer to an exception a car handler does not catch is `Threw`. Next.js then replies 500.
- `middleware.ts` is not part of this model.

**Database and libraries**
- The Prisma schema is not part of this model. Its assumed properties:
  - the car columns and the access-level enumeration are as the handlers use them;
  - `id` and `email` of `user` are unique;
  - partner and car ids are auto-incremented naturals;
  - `additionalInfo` is optional;
  - a user's `status` default is the parameter `statusDefault`;
  - a NaN integer or NaN price is rejected by the database.
- `bcrypt.hash` and `bcrypt.compare` are function parameters.
- A stored database failure is a `fault` parameter meaning "some awaited call threw".
- `path.join` is modelled for an absolute, already normalised directory and a relative name. `process.cwd()` is part of the given directory.
- The file system is a map from paths to bytes. A write that fails, such as one into a directory that does not exist (an uploaded name with a slash), is the `writeOk = false` case.

**Scope notes**
- The endpoints `/api/cars/[id]` and `/api/financing/[id]` are not part of this model. The dashboard's edit forms send to them.
- LoginRoute.Post: email lookups compare emails exactly, case included, as `findUnique` on the stored column does.
- AuthContext.LoginOutcome: a 2xx reply whose body is not an account is treated as a failed login that throws. The code would store whatever the body holds.
