# Developer directory and admin panel — a Dafny model

The site lists software developers from a remote `developers` table and lets
an administrator log in and add, edit or delete them. This project models
the logic that sits in front of the remote calls:

- the admin panel (`Admin.jsx`): the skills text codec (split on commas,
  trim, drop empty pieces; join with `", "`), the `parseInt(...) || 0`
  integer fallbacks and the `parseFloat(...) || 5.0` rating fallback, the
  edit form and its handlers (input change, photo accept or reject, remove
  photo, edit, reset, submit as insert or update, delete behind a
  confirmation, list refresh);
- the authentication context (`AuthContext.jsx`): the credential decision on
  the row the `admin_users` lookup returns, and the session held both in
  memory and in the `admin_user` storage slot (login, logout, start-up
  restore, `isAuthenticated`);
- the login page (`Login.jsx`) and the contact form (`ContactForm.jsx`):
  their empty-field guards and the loading, error, success and navigation
  state around the call;
- the developer card (`DeveloperCard.jsx`): status colour, social links, bio
  and skills previews, fallbacks for missing columns;
- the developers page (`Developers.jsx`): the fetch and the choice among the
  loading, error, grid and empty views.

Layout: `common.dfy` (Option, Result, Outcome), `text.dfy` (JavaScript
`trim`, `split`, `join`, `toLowerCase`, `parseInt` on `seq<char>`),
`form_codec.dfy` (skills and number fields), `records.dfy` (table row, form,
payload), `admin.dfy`, `auth.dfy`, `login.dfy`, `contact.dfy`, `card.dfy`,
`developers_page.dfy`.

Each component whose handlers update state step by step is a class whose
fields are the component's state; every remote call is a parameter holding
its outcome (`Outcome`, `FetchResult`, `LookupResult`), and every write a
form sends is appended to a log field (`requests`, `sent`). Each handler's
contract states its whole new state; where that state is a function of the
old one (`SubmitState`, `FetchState`, `Settled`), the function carries the
promised properties and the lemmas beside it.

The round trip of the skills codec holds for skills that are non-empty,
trimmed and free of commas. A skill holding a comma is stored as two
skills (`FormCodec.CommaInSkillSplits`); the code has no escaping.

## Model

| member | source | states |
|---|---|---|
| `Text.Trim` | src/pages/Admin.jsx:129 | the result has no white space at either end and is no longer than the input |
| `Text.TrimKeepsAbsent` | src/pages/Admin.jsx:129 | trimming never introduces a character the text did not contain |
| `Text.TrimOfTrimmed` | src/pages/Admin.jsx:129 | trimming an already trimmed text leaves it unchanged |
| `Text.TrimSpacePrefix` | src/pages/Admin.jsx:129 | white space put in front of a text is removed again by trimming |
| `Text.StartsWith` | src/pages/Admin.jsx:84 | `startsWith`: the text begins with the prefix, character for character |
| `Text.Split` | src/pages/Admin.jsx:128 | `split(',')` yields at least one piece and no piece contains the separator |
| `Text.JoinSplit` | src/pages/Admin.jsx:128 | joining the pieces of a split with the separator gives the text back |
| `Text.SplitJoin` | src/pages/Admin.jsx:128 | splitting a join of separator-free pieces gives the pieces back |
| `Text.Join` | src/pages/Admin.jsx:173 | the joined text starts with the first part |
| `Text.ToLower` | src/components/DeveloperCard.jsx:9 | every character is lower-cased in place, the length is kept |
| `Text.ToLowerIdempotent` | src/components/DeveloperCard.jsx:9 | lower-casing twice equals lower-casing once |
| `Text.NatToDecimal` | src/components/DeveloperCard.jsx:123 | the decimal rendering is a non-empty digit string without leading zero whose value is the number |
| `Text.ParseInt` | src/pages/Admin.jsx:135-137 | `parseInt` is NaN exactly when no digit follows the leading white space and optional sign |
| `Text.ParseIntOfDecimal` | src/pages/Admin.jsx:135-137 | every integer written in decimal, negative ones included, parses back to itself |
| `Text.ParseIntPrefix` | src/pages/Admin.jsx:135-137 | white space, an optional `+` or `-`, digits, then anything not starting with a digit: `parseInt` gives the value of the digits, leading zeros included, negated after `-`, and ignores the rest |
| `Text.ParseIntSkipsSpace` | src/pages/Admin.jsx:135-137 | leading white space does not change what `parseInt` reads |
| `Text.ParseIntDigits` | src/pages/Admin.jsx:135-137 | digits followed by a non-digit or nothing read as the value of the digits |
| `Text.ParseIntSignedDigits` | src/pages/Admin.jsx:135-137 | the same after a `+` or `-`, negated after `-` |
| `Text.DigitRunOfPrefix` | src/pages/Admin.jsx:135-137 | the digits `parseInt` consumes stop at the first non-digit |
| `FormCodec.ParseSkills` | src/pages/Admin.jsx:127-130 | the parsed list has no empty entry, and every entry is trimmed and comma-free |
| `FormCodec.TrimEach` | src/pages/Admin.jsx:129 | `.map(skill => skill.trim())` keeps the number of pieces |
| `FormCodec.TrimEachAt` | src/pages/Admin.jsx:129 | each piece is replaced by its own trimmed form, in place |
| `FormCodec.TrimEachConcat` | src/pages/Admin.jsx:129 | trimming works piece by piece over any split of the list |
| `FormCodec.DropEmpty` | src/pages/Admin.jsx:130 | `.filter(skill => skill.length > 0)` keeps no empty piece and is no longer than its input |
| `FormCodec.DropEmptyConcat` | src/pages/Admin.jsx:130 | the filter works piece by piece, so kept pieces keep their order |
| `FormCodec.ParseOne` | src/pages/Admin.jsx:127-130 | text without a comma gives its trimmed form as the one skill, or nothing when it is only white space |
| `FormCodec.ParseCons` | src/pages/Admin.jsx:127-130 | for any text, the piece before the first comma, trimmed and kept unless blank, comes first, followed by the skills of the rest; with `ParseOne` this fixes the result of every text, order and case kept |
| `FormCodec.ParseNoSkills` | src/pages/Admin.jsx:127-130 | an empty skills box gives the empty list |
| `FormCodec.ParseRaggedSkills` | src/pages/Admin.jsx:127-130 | padded entries are trimmed and an empty entry between two commas is dropped, keeping order and case |
| `FormCodec.ParseSkillsExample` | src/pages/Admin.jsx:127-130 | `"React, Node.js ,, Python"` parses to `["React", "Node.js", "Python"]` |
| `FormCodec.JoinSkills` | src/pages/Admin.jsx:173 | the edit text starts with the first skill |
| `FormCodec.SkillsRoundTrip` | src/pages/Admin.jsx:127-130 | for non-empty, trimmed, comma-free skills, joining with `", "` and parsing returns the same list |
| `FormCodec.CommaInSkillSplits` | src/pages/Admin.jsx:127-130 | a skill `a,b` joined and parsed comes back as the two skills `a` and `b` |
| `FormCodec.SkillsText` | src/pages/Admin.jsx:173 | a null skills list edits as ""; a list of valid skills edits as a text that parses back to it |
| `FormCodec.ParseIntField` | src/pages/Admin.jsx:135-137 | `parseInt` reads its argument as text: a number as its decimal writing, `null` as the text `"null"`, typed text as typed |
| `FormCodec.IntOrZero` | src/pages/Admin.jsx:135-137 | the parsed integer when `parseInt` succeeds, 0 when it gives NaN, with no clamping |
| `FormCodec.TypedIntegerKept` | src/pages/Admin.jsx:135-137 | any typed decimal integer, negative ones included, is stored as itself |
| `FormCodec.ParseIntSignedExample` | src/pages/Admin.jsx:135 | `" -7"` reads as -7 |
| `FormCodec.ParseIntPrefixExample` | src/pages/Admin.jsx:135 | `"12abc"` reads as 12 |
| `FormCodec.ParseIntLeadingZerosExample` | src/pages/Admin.jsx:135 | `"007"` reads as 7 |
| `FormCodec.ParseIntPlusExample` | src/pages/Admin.jsx:135 | `"+5"` reads as 5 |
| `FormCodec.ParseIntExponentExample` | src/pages/Admin.jsx:135 | `"1e3"` reads as 1, not 1000 |
| `FormCodec.ParseIntNoDigitsExample` | src/pages/Admin.jsx:135 | `"abc"` and `""` read as NaN |
| `FormCodec.IntOrZeroExamples` | src/pages/Admin.jsx:135-137 | `"abc"` and `""` store 0, `" -7"` stores -7, `"12abc"` stores 12 |
| `FormCodec.RatingOrDefault` | src/pages/Admin.jsx:138 | a missing or zero rating becomes 5.0, any other rating is kept; the result is never 0 |
| `Records.SetField` | src/pages/Admin.jsx:72-78 | the named input takes the typed value and every other field, photo and rating included, is unchanged |
| `Records.SetFieldOverwrites` | src/pages/Admin.jsx:72-78 | typing into the same input twice keeps only the second value |
| `Records.SetFieldCommutes` | src/pages/Admin.jsx:72-78 | edits to two different inputs commute |
| `Records.DefaultForm` | src/pages/Admin.jsx:22-38 | the blank form has location Mogadishu, status available and rating 5.0 |
| `Records.DefaultFormShape` | src/pages/Admin.jsx:200-216 | the blank form saves as an empty profile with no skills, zero counts and the default location, status and rating |
| `Records.RowsOrEmpty` | src/pages/Admin.jsx:63 | a fetched list is installed as is, a null list as `[]` |
| `Records.ShapeRecord` | src/pages/Admin.jsx:132-139 | the payload's skills are valid skills and its rating is never 0 |
| `Records.FormFromRow` | src/pages/Admin.jsx:171-174 | the edit form's skills text parses back to the row's skills (or is "" for null), photo and rating are the row's |
| `Records.StoredRow` | src/pages/Admin.jsx:150-155 | the stored row carries the payload under the given id |
| `Records.EditThenSaveKeepsProfile` | src/pages/Admin.jsx:169-174 | editing a stored developer and saving without changes writes back the same payload |
| `Records.SavedProfileIsStable` | src/pages/Admin.jsx:132-139 | every payload a submit sends survives an edit-and-save unchanged |
| `Admin.ImageError` | src/pages/Admin.jsx:84-93 | a file is accepted exactly when its type starts with `image/` and its size is at most 5 MiB; the type is checked first, each refusal has its message |
| `Admin.SubmitRequest` | src/pages/Admin.jsx:141-158 | an update keyed by the edited developer's id exactly when one is being edited, else an insert; both carry the shaped form |
| `Admin.EditedSubmitUpdatesRow` | src/pages/Admin.jsx:141-158 | with a developer being edited the write is its update, otherwise one insert |
| `Admin.SaveError` | src/pages/Admin.jsx:164 | the service's message when non-empty, else `Failed to save developer` |
| `Admin.InitialPanel` | src/pages/Admin.jsx:16-40 | the panel starts loading, with no rows, a closed blank form and nothing sent |
| `Admin.ResetState` | src/pages/Admin.jsx:200-222 | reset installs the blank form, clears photo, preview and edited developer, closes the form, and keeps list, messages and log |
| `Admin.FetchState` | src/pages/Admin.jsx:54-70 | a fetch installs the rows (or `[]`) or sets `Failed to load developers` keeping the list; loading ends; nothing else changes |
| `Admin.SubmitState` | src/pages/Admin.jsx:120-167 | one write is logged; success resets the form, sets the insert or update message and refreshes; failure keeps form, edited developer and open form and sets the error |
| `Admin.SubmitKeepsConsistent` | src/pages/Admin.jsx:120-167 | after a submit a developer is never being edited with the form closed |
| `Admin.AdminPanel.constructor` | src/pages/Admin.jsx:16-40 | the initial component state |
| `Admin.AdminPanel.FetchDevelopers` | src/pages/Admin.jsx:54-70 | the new state is `FetchState` of the old one |
| `Admin.AdminPanel.HandleInputChange` | src/pages/Admin.jsx:72-78 | only the named field of the form changes; nothing else in the panel changes |
| `Admin.AdminPanel.HandleImageChange` | src/pages/Admin.jsx:80-96 | no file changes nothing; a refused file sets its error and changes nothing else; an accepted file becomes the selected image |
| `Admin.AdminPanel.ImageLoaded` | src/pages/Admin.jsx:99-106 | the data URL becomes the preview and the form's photo |
| `Admin.AdminPanel.RemoveImage` | src/pages/Admin.jsx:111-118 | selected image, preview and the form's photo are cleared, nothing else changes |
| `Admin.AdminPanel.ResetForm` | src/pages/Admin.jsx:200-222 | the new state is `ResetState` of the old one |
| `Admin.AdminPanel.OpenForm` | src/pages/Admin.jsx:305 | the Add Developer button opens the form and changes nothing else |
| `Admin.AdminPanel.DismissSuccess` | src/pages/Admin.jsx:275 | clears the success message only |
| `Admin.AdminPanel.DismissError` | src/pages/Admin.jsx:290 | clears the error message only |
| `Admin.AdminPanel.HandleEdit` | src/pages/Admin.jsx:169-180 | the row becomes the edited developer, the form is filled from it, its photo (if any) becomes the preview, the form opens |
| `Admin.AdminPanel.HandleSubmit` | src/pages/Admin.jsx:120-167 | the new state is `SubmitState` of the old one, and the panel stays consistent |
| `Admin.AdminPanel.HandleDelete` | src/pages/Admin.jsx:182-198 | a refused confirmation changes nothing and sends no delete; otherwise one delete keyed by the id is sent and its outcome sets the success message and refreshes, or sets `Failed to delete developer` |
| `Auth.Query` | src/contexts/AuthContext.jsx:32-37 | the answered row is in the table with the typed email and active; no row means no such row exists |
| `Auth.SessionOf` | src/contexts/AuthContext.jsx:53-58 | the session copies id, email, full name and role from the row |
| `Auth.Authenticate` | src/contexts/AuthContext.jsx:39-58 | a session is granted exactly when a row is returned and the password equals its stored password; a service error, a missing row and a wrong password each fail with their message |
| `Auth.GrantedOnlyToEligibleRow` | src/contexts/AuthContext.jsx:32-51 | a granted session belongs to an active row with the typed email and password; without such a row the refusal is `Invalid email or password` |
| `Auth.Restored` | src/contexts/AuthContext.jsx:20-23 | start-up finds a user exactly when the `admin_user` slot is set, and it is the stored one |
| `Auth.SessionSurvivesReload` | src/contexts/AuthContext.jsx:61 | what login stores is what the next start-up restores; after logout nothing is restored |
| `Auth.AuthContext.constructor` | src/contexts/AuthContext.jsx:15-16 | no user, loading, storage as found |
| `Auth.AuthContext.RestoreSession` | src/contexts/AuthContext.jsx:18-25 | a stored session becomes the user, otherwise the user is kept; loading ends; storage is unchanged |
| `Auth.AuthContext.Login` | src/contexts/AuthContext.jsx:27-70 | the reply follows `Authenticate`; success sets the user and the slot to the session; failure leaves user and storage unchanged; loading ends |
| `Auth.AuthContext.Logout` | src/contexts/AuthContext.jsx:72-75 | no user and no `admin_user` slot afterwards, other slots kept |
| `Auth.AuthContext.IsAuthenticated` | src/contexts/AuthContext.jsx:82 | holds exactly when a user is set |
| `LoginPage.LoginErrorText` | src/pages/Login.jsx:43 | the reply's error when non-empty, else `Login failed` |
| `LoginPage.MissingCredentials` | src/pages/Login.jsx:32 | the guard refuses exactly when the email or the password is the empty string |
| `LoginPage.RefusalMessages` | src/pages/Login.jsx:40-44 | each kind of refusal shows its message, and a thrown call with an empty message shows `Login failed` |
| `LoginPage.Login.constructor` | src/pages/Login.jsx:8-14 | empty fields, no error, not loading, not navigated |
| `LoginPage.Login.HandleChange` | src/pages/Login.jsx:19-25 | the named field takes the value, the other is kept, and the error is cleared |
| `LoginPage.Login.HandleSubmit` | src/pages/Login.jsx:27-47 | an empty field sets `Please fill in all fields` without calling login; a success navigates to `/admin`; a refusal shows its message; loading is off on every path, the context's loading too once `login` has run |
| `Contact.WithField` | src/components/ContactForm.jsx:17-22 | only the named field changes |
| `Contact.Incomplete` | src/components/ContactForm.jsx:28 | the guard refuses exactly when a field is the empty string; white space alone passes |
| `Contact.FilledFormPasses` | src/components/ContactForm.jsx:28-31 | any non-empty values, white space alone included, pass the guard |
| `Contact.ContactForm.constructor` | src/components/ContactForm.jsx:7-14 | empty form, not loading, no success, no error, nothing sent |
| `Contact.ContactForm.HandleChange` | src/components/ContactForm.jsx:17-22 | the form takes `WithField` of the old one; nothing else changes |
| `Contact.ContactForm.HandleSubmit` | src/components/ContactForm.jsx:24-62 | an incomplete form sets `Please fill in all fields` and sends nothing; otherwise one record with the three fields is sent, success clears the form and sets success, failure keeps the form and sets the send error; loading ends |
| `Contact.ContactForm.DismissError` | src/components/ContactForm.jsx:102 | clears the error only |
| `Contact.ContactForm.DismissSuccess` | src/components/ContactForm.jsx:276 | clears the success flag only |
| `Card.AvailabilityColor` | src/components/DeveloperCard.jsx:8-19 | green, yellow or red exactly when the lower-cased status is available, busy or unavailable; gray otherwise |
| `Card.ColorIgnoresCase` | src/components/DeveloperCard.jsx:9 | the colour of a status equals the colour of its lower-cased form |
| `Card.SameColorUpToCase` | src/components/DeveloperCard.jsx:9 | statuses equal up to letter case get the same colour |
| `Card.MailTo` | src/components/DeveloperCard.jsx:43 | the e-mail target is `mailto:` and the address, or nothing without an address |
| `Card.Candidates` | src/components/DeveloperCard.jsx:22-46 | four candidate links in the order GitHub, LinkedIn, Portfolio, Email |
| `Card.KeepWithUrl` | src/components/DeveloperCard.jsx:47 | the filtered list is no longer and every kept link has a URL |
| `Card.KeepWithUrlMembers` | src/components/DeveloperCard.jsx:47 | a link is kept exactly when it was a candidate with a URL |
| `Card.CardLinks` | src/components/DeveloperCard.jsx:135 | `slice(0, 4)`: the first at most four links, all of them when there are no more than four |
| `Card.KeepWithUrlOrdered` | src/components/DeveloperCard.jsx:47 | filtering keeps the order of what it keeps |
| `Card.SocialLinks` | src/components/DeveloperCard.jsx:22-47 | at most four links, each with a URL |
| `Card.SocialLinksOrdered` | src/components/DeveloperCard.jsx:22-47 | the links appear in the order GitHub, LinkedIn, Portfolio, Email |
| `Card.SocialLinksPresence` | src/components/DeveloperCard.jsx:22-47 | each platform is listed, with its column's URL, exactly when that column is non-empty; the e-mail link is `mailto:` and the address |
| `Card.CardShowsEveryLink` | src/components/DeveloperCard.jsx:135 | the card's cut at four links never hides one |
| `Card.BioPreview` | src/components/DeveloperCard.jsx:99-101 | a bio over 100 characters shows its first 100 and `...`; a shorter one is shown whole |
| `Card.BioPreviewKeepsStart` | src/components/DeveloperCard.jsx:99-101 | the preview starts with as much of the bio as fits |
| `Card.PreviewSkills` | src/components/DeveloperCard.jsx:112-125 | the first min(3, n) skills are shown, and a badge appears exactly when n > 3 |
| `Card.PreviewAccountsForAll` | src/components/DeveloperCard.jsx:121-125 | the badge is `+` and a number that reads back as the count of hidden skills |
| `Card.LocationShown` | src/components/DeveloperCard.jsx:91 | the row's location when present, exactly `Mogadishu, Somalia` when it is missing |
| `Card.StatusLabel` | src/components/DeveloperCard.jsx:77 | the row's status as stored when present, exactly `Available` when it is missing |
| `Card.ExperienceShown` | src/components/DeveloperCard.jsx:213 | the row's years of experience, or 0 when missing |
| `Card.PhotoShown` | src/components/DeveloperCard.jsx:69 | the row's photo when present; when it is missing, the 600x600 stock portrait on the card and the 400x400 one in the modal |
| `DevelopersPage.ExactlyOneView` | src/pages/Developers.jsx:66-155 | in every reachable state exactly one of loading, error, grid and empty is shown, and the call to action appears exactly with the grid |
| `DevelopersPage.ShowsLoading` | src/pages/Developers.jsx:66 | the spinner shows while loading |
| `DevelopersPage.ShowsError` | src/pages/Developers.jsx:86 | the error view shows whenever an error is set |
| `DevelopersPage.ShowsGrid` | src/pages/Developers.jsx:111 | the grid shows when loading is over, no error is set and there are rows |
| `DevelopersPage.ShowsEmpty` | src/pages/Developers.jsx:133 | the empty state shows when loading is over, no error is set and there are no rows |
| `DevelopersPage.ShowsCallToAction` | src/pages/Developers.jsx:155 | the call to action shows under the same condition as the grid |
| `DevelopersPage.Settled` | src/pages/Developers.jsx:22-36 | a success installs the rows (or `[]`), a failure sets its message and keeps the list; loading ends |
| `DevelopersPage.ViewAfterFetch` | src/pages/Developers.jsx:111-133 | after a fetch the page shows the grid for a non-empty answer, the empty state for an empty or null one, the error for a failure |
| `DevelopersPage.Developers.constructor` | src/pages/Developers.jsx:8-10 | no rows, loading, no error |
| `DevelopersPage.Developers.StartFetch` | src/pages/Developers.jsx:19-20 | loading on and error cleared before the query; rows kept |
| `DevelopersPage.Developers.CompleteFetch` | src/pages/Developers.jsx:22-36 | the new state is `Settled` of the old one |
| `DevelopersPage.Developers.FetchDevelopers` | src/pages/Developers.jsx:17-38 | the whole fetch: `Settled` of the state with loading on and no error |

## Left out

- The remote service (the Supabase client, its query builders, ordering by `created_at`): each call is a parameter holding its outcome.
- Auth.Query: `.single()` is not modelled. With `.single()` an email that matches no active row makes the service answer an error, so the source shows `Authentication failed. Please try again.` for an unknown email; the model answers "no row" and `Auth.Authenticate` then refuses with `Invalid email or password`. The refusal message for a missing row in `Auth.GrantedOnlyToEligibleRow` holds only under this abstraction. Two matching rows, which `.single()` also turns into an error, are answered with the first.
- Asynchrony: every handler is one atomic step. Overlapping submits and the unawaited refresh after a save are not modelled; the refresh's outcome is a parameter of the step that triggers it.
- The `FileReader` conversion of a photo to a data URL: its result is the parameter of `Admin.AdminPanel.ImageLoaded`.
- JSON serialisation in local storage: the slot holds the session record itself.
- `confirm()`, `navigate`, `window.location` and routing, including the admin page's redirect of a visitor without a user: the confirmation is a boolean parameter and the navigation a recorded route.
- Rendering, animation and style classes; the badge colours are named, not spelled as class strings. The password visibility toggle, the contact form's focused field and the card's modal toggle are display state only.
- The static pages (home, about, contact page frame, footer) and the navigation bar.
- `console.error` logging.
- JavaScript `null` in a text column of the `developers` table or in a form field is held as "": the card's fallbacks, the panel's form and the contact form's guard treat `null` and "" alike, so nothing is lost there.
- Auth.Authenticate: the `admin_users` columns hold `null` as "" too, and there the two differ. A row whose stored password is `null` is refused by the source for every typed password, "" included (`password !== data.password_hash`, src/contexts/AuthContext.jsx:49), but the model grants it to the typed password "". Likewise `Auth.Query` matches a row whose email is `null` to the typed email "", which the service's `.eq('email', email)` does not.
- `id` and `created_at`, which the edit form copies from the row and sends back unchanged, are not carried in the form or the payload.
- Text.ParseInt: decimal only; `parseInt`'s hexadecimal prefix `0x` is not modelled. The result is an exact integer, whereas JavaScript's `parseInt` returns a floating-point Number: digit strings above 2^53 are rounded (`"9007199254740993"` reads as 9007199254740992) and very long ones give `Infinity`.
- FormCodec.TypedIntegerKept: holds for every integer in the model; in the program it holds only for integers of magnitude up to 2^53, because of the Number rounding above.
- Text.ToLower: lower-cases ASCII letters only, not the full Unicode case mapping of `toLowerCase`.
- Card.BioPreview: lengths count Unicode scalar values, not UTF-16 code units.
- FormCodec.RatingOrDefault: the rating is a real, not a floating-point number; since no input edits it, `parseFloat` only ever sees a stored number or `null`.
- The browser's built-in form validation, which stops the browser from calling the submit handler at all: `required` on the admin form's full name (src/pages/Admin.jsx:500) and on the login email and password (src/pages/Login.jsx:134,153), `min="0"` on the three number inputs (src/pages/Admin.jsx:615,629,685), and `type="email"`/`type="url"` (src/pages/Admin.jsx:509,639,653,667; src/pages/Login.jsx:128; src/components/ContactForm.jsx:161). The handlers are modelled as the code is written, so inputs that the rendered form would block are still reachable in the model. A `type="email"` input also strips leading and trailing white space from its value, so the contact form's e-mail field never holds white space alone.
- Contact.Incomplete: white space alone passes the guard for the name and the message; for the e-mail field of the rendered form this cannot arise, because a `type="email"` input (src/components/ContactForm.jsx:161) strips surrounding white space before the handler sees the value.
- Admin.AdminPanel.HandleSubmit: reachable with a blank full name, a malformed e-mail or URL, and a negative count; the rendered form blocks these before `handleSubmit` runs.
- LoginPage.Login.HandleSubmit: its `Please fill in all fields` branch is reachable; through the rendered form the `required` attributes block an empty field first.
- Contact.ContactForm.HandleSubmit: a malformed e-mail is sent; the rendered form's `type="email"` blocks it first.
- FormCodec.TypedIntegerKept: a negative count is stored as itself; the rendered form's `min="0"` blocks it first.
- `handleSubmit` (src/pages/Admin.jsx:120-167) sets no loading flag of its own; the panel's only `loading` flag is the fetch's (src/pages/Admin.jsx:56,68). In `Admin.AdminPanel.HandleSubmit` that flag changes only through the refresh after a successful save, which leaves it false; a failed save leaves it as it was.
