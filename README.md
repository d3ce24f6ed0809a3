# MeetAI client: credential forms, user menu, navbar and session cells

This project models the decision logic of the MeetAI web client, a Next.js
front end to a better-auth service. What it covers:

- **Sign-up and sign-in views** (`SignUpForm`, `SignInForm`).
  - The zod schemas are modelled as issue lists. Each issue has a path and a message.
  - The `errorMessage` state cell and the alert it drives are modelled.
  - Each `onSubmit` handler reacts to how the `authClient` call settles. It writes `errorMessage` or pushes a route, never both, and on some outcomes does neither.
  - The social-provider buttons are modelled.
- **Dashboard user button** (`UserButton`).
  - The skeleton / Sign In / menu choice over `isLoading` and the session.
  - The avatar initials and the display name.
  - `handleLogout`.
- **Dashboard navbar** (`Navbar`).
  - The `commandOpen` cell, shared with the command dialog through one setter.
  - The sidebar library's state as a separate cell.
  - The sidebar icon choice.
- **Home view and root page** (`HomeView`, `RootPage`).
  - A nullable `session` cell, written by the mount effect's single lookup.
  - "Loading..." is shown while the cell is null.
  - The sign-out button (home view) and the greeting (root page).
- **Shared modules.**
  - `Auth` holds the boundary types: routes, the session record, requests, call outcomes and reactions.
  - `Text` holds JavaScript's `split(' ')`, `map(n => n[0]).join('')`, `toUpperCase()` and `slice(0, n)`.
  - `Text` also has a one-pass reference definition of "first character of each word". A lemma proves it equal to split-then-map-then-join.

External collaborators are inputs to the model:

- **The auth service.** Each call on `authClient` is a `Request`. The form views, the home view and the root page append it to their `sent` log; `UserButton.HandleLogout` keeps no log and returns it as a result. How the call settles is an `Outcome` passed in by the caller. The four outcomes are:
  - the success callback runs;
  - the error callback runs with a message;
  - the call resolves without any callback;
  - the call throws, with a message or without one.
- **The router.** Each `router.push` is a `Route`. The form views and the home view append it to their `pushes` log; `UserButton.HandleLogout` returns it as a result.
- **zod's email check.** It is a predicate parameter, `isEmail`.
- **The `useSession()` state.** It is the pair of arguments to `UserButton.Select`.

## Behaviour of the code worth knowing

- **Sign-in.** A sign-in that the service rejects without throwing still pushes `/` and shows no message: the handler never looks at what `signIn.email` resolves to. Only a throw writes a message. `SignInForm.ServiceErrorStillNavigatesHome` states this.
- **Sign-out.**
  - The user button pushes `/sign-in` only from `onSuccess` or the catch. A service error that is returned, not thrown, leaves the page where it is (`UserButton.HandleLogout`).
  - The home view's button pushes only from `onSuccess` (`HomeView.SignOutPush`).
- **Failed session lookup.** When the mount effect's lookup yields no data or throws, the `session` cell stays null and "Loading..." is shown for good (`Auth.AfterLookup`, `HomeView.Home.LookupSettled`, `RootPage.Page.LookupSettled`).
- **No client-side session store, no `submitting` flag.** The views modelled here keep no shared session store with refresh and do not disable a form while its call is pending.
  - Submissions are not serialised.
  - A successful sign-in does not refresh any session.
- **Field errors.** A password mismatch is recorded on `confirmPassword` only. The schema's other checks still report their own issues, on their own fields, so the mismatch is the only issue exactly when every other rule passes (`SignUpForm.MismatchOnlyOnConfirm`). A field whose own rule passes never carries an issue (`SignUpForm.Issues`, `SignUpForm.OnlyFailingFieldReported`).

## Model

| member | source | states |
|---|---|---|
| `Auth.MessageOr` | src/modules/auth/views/sign-up-views.tsx:66 | `error?.message \|\| fallback`: the thrown message when it is present and non-empty, the fallback otherwise, so never empty when the fallback is not |
| `Auth.AfterLookup` | src/modules/home/ui/views/home-view.tsx:13-16 | the cell is written only when `result.data` is truthy; an empty or failed lookup leaves it as it was; a cell holding a session keeps one; it stays null exactly when it was null and no data came |
| `Text.Upper` | src/modules/dashboard/ui/components/dashboard-user-button.jsx:68 | `toUpperCase` keeps the length and maps each character by the case map |
| `Text.Take` | src/modules/dashboard/ui/components/dashboard-user-button.jsx:68-69 | `slice(0, n)` is the prefix of length min(n, length) |
| `Text.TakeUpper` | src/modules/dashboard/ui/components/dashboard-user-button.jsx:68-69 | slicing then upper-casing equals upper-casing then slicing, so the two branches' different orders do not matter |
| `Text.Split` | src/modules/dashboard/ui/components/dashboard-user-button.jsx:68 | `split(' ')` yields at least one piece and no piece contains a space |
| `Text.SplitJoin` | src/modules/dashboard/ui/components/dashboard-user-button.jsx:68 | joining the pieces of `split(' ')` with spaces gives back the string |
| `Text.WordStartsIn` | src/modules/dashboard/ui/components/dashboard-user-button.jsx:68 | the word-start characters are no more than the string's length; each is a character of the string and none is a space |
| `Text.FirstCharsOfSplit` | src/modules/dashboard/ui/components/dashboard-user-button.jsx:68 | `split(' ').map(n => n[0]).join('')` equals the one-pass reference: the non-space characters at the start or right after a space; empty words contribute nothing |
| `SignUpForm.Issues` | src/modules/auth/views/sign-up-views.tsx:23-31 | the schema passes iff name has at least 2 characters, the email passes the email check, and both passwords have at least 8 characters and are equal; each failing rule gives its own message; the mismatch message is recorded on `confirmPassword`; no issue is on the form root; the list holds nothing but these five issues, so a field whose rule passes carries none |
| `SignUpForm.MismatchOnlyOnConfirm` | src/modules/auth/views/sign-up-views.tsx:28-31 | with the other rules met, differing passwords give exactly one issue, "Passwords don't match" on `confirmPassword` |
| `SignUpForm.ConfirmPasswordNeverSent` | src/modules/auth/views/sign-up-views.tsx:49-54 | the sign-up request does not depend on `confirmPassword` |
| `SignUpForm.SubmitReaction` | src/modules/auth/views/sign-up-views.tsx:55-66 | a push happens iff the success callback runs, and then it is `/sign-in` and nothing is written; the error callback writes the service's message; a throw writes its message or "Sign-up failed", never empty; push and write never happen together |
| `Auth.AlertFor` | src/modules/auth/views/sign-up-views.tsx:160-166 | the alert shows iff `errorMessage` is non-empty, and shows that message; the sign-in view renders it the same way |
| `SignUpForm.SignUpView.constructor` | src/modules/auth/views/sign-up-views.tsx:35-45 | fields default to "", `errorMessage` starts "", no alert shows, no call made |
| `SignUpForm.SignUpView.Edit` | src/modules/auth/views/sign-up-views.tsx:84-158 | the inputs set the form values |
| `SignUpForm.SignUpView.Submit` | src/modules/auth/views/sign-up-views.tsx:83 | invalid values cause no `authClient` call, no write and no push; valid ones run `onSubmit`; the form values are never reset |
| `SignUpForm.SignUpView.OnSubmit` | src/modules/auth/views/sign-up-views.tsx:47-68 | one `signUp.email` request with email, password and name; `errorMessage` and the router change as `SubmitReaction` says; values untouched |
| `SignInForm.Issues` | src/modules/auth/views/sign-in-views.tsx:24-27 | the schema passes iff the email passes the email check and the password has at least 8 characters; each failure has its own message |
| `SignInForm.SubmitReaction` | src/modules/auth/views/sign-in-views.tsx:41-52 | every outcome but a throw pushes `/` and writes nothing; a throw writes its message or "Sign-in failed", never empty, and pushes nothing |
| `SignInForm.ServiceErrorStillNavigatesHome` | src/modules/auth/views/sign-in-views.tsx:43-48 | a service error that resolves instead of throwing still navigates to `/` with no message |
| `SignInForm.SignInView.constructor` | src/modules/auth/views/sign-in-views.tsx:31-39 | fields default to "", `errorMessage` starts "", no alert shows, no call made |
| `SignInForm.SignInView.Edit` | src/modules/auth/views/sign-in-views.tsx:68-105 | the inputs set the form values |
| `SignInForm.SignInView.Submit` | src/modules/auth/views/sign-in-views.tsx:67 | invalid values cause no `authClient` call, no write and no push; valid ones run `onSubmit`; the form values are never reset |
| `SignInForm.SignInView.OnSubmit` | src/modules/auth/views/sign-in-views.tsx:41-52 | one `signIn.email` request with exactly email and password; the failure path writes only `errorMessage`; values untouched |
| `SignInForm.SignInView.SocialSignIn` | src/modules/auth/views/sign-in-views.tsx:134-150 | each provider button adds one `signIn.social` request naming "google" or "github" and changes nothing else |
| `UserButton.Initials` | src/modules/dashboard/ui/components/dashboard-user-button.jsx:66-69 | at most 2 characters; with a truthy name, the first two word-start characters of the name, upper-cased; otherwise the email's first two characters (or fewer), upper-cased, the same whether sliced before or after upper-casing |
| `UserButton.InitialsFromUser` | src/modules/dashboard/ui/components/dashboard-user-button.jsx:67-69 | each initial is the upper-cased form of a non-space character of the name, or of the email character at the same position when there is no name |
| `UserButton.DisplayName` | src/modules/dashboard/ui/components/dashboard-user-button.jsx:88 | `user.name \|\| 'User'`: never blank, the name when truthy |
| `UserButton.Select` | src/modules/dashboard/ui/components/dashboard-user-button.jsx:37-69 | skeleton iff loading, whatever the session; Sign In button (to `/sign-in`) iff not loading and no session; otherwise the menu with the initials, display name and email |
| `UserButton.HandleLogout` | src/modules/dashboard/ui/components/dashboard-user-button.jsx:20-34 | one sign-out request; a push to `/sign-in` iff `onSuccess` runs or the call throws |
| `SignUpForm.OnlyFailingFieldReported` | src/modules/auth/views/sign-up-views.tsx:23-31 | with only the name too short, the one issue is "Name must be at least 2 characters" on `name`: fields whose rules pass carry no issue |
| `SignUpForm.Message.Text` | src/modules/auth/views/sign-up-views.tsx:24-29 | the schema's five messages, each non-empty |
| `SignUpForm.TextDistinct` | src/modules/auth/views/sign-up-views.tsx:24-29 | each schema rule has its own message: different messages have different texts |
| `SignInForm.TextDistinct` | src/modules/auth/views/sign-in-views.tsx:25-26 | the two schema messages have different texts |
| `SignUpForm.SignUpRequest` | src/modules/auth/views/sign-up-views.tsx:49-54 | a `signUp.email` request carrying the form's email, password and name |
| `SignInForm.Message.Text` | src/modules/auth/views/sign-in-views.tsx:25-26 | the schema's two messages, each non-empty |
| `SignInForm.SignInRequest` | src/modules/auth/views/sign-in-views.tsx:43-46 | a `signIn.email` request carrying the form's email and password |
| `Auth.Truthy` | src/modules/dashboard/ui/components/dashboard-user-button.jsx:67 | a name is truthy iff it is neither null nor the empty string |
| `Auth.Route.Href` | src/modules/auth/views/sign-up-views.tsx:58 | every pushed path starts with `/`; the reactions' push targets are `/sign-in` and `/` |
| `Text.FirstChars` | src/modules/dashboard/ui/components/dashboard-user-button.jsx:68 | `map(n => n[0]).join('')` gives at most one character per word, exactly one per word when no word is empty |
| `Navbar.NavbarView.Icon` | src/modules/dashboard/ui/components/dashboard-navbar.tsx:22 | the button shows the expand icon iff the sidebar is collapsed or the screen is mobile; off mobile, a toggle changes it |
| `Navbar.ToggleIcon` | src/modules/dashboard/ui/components/dashboard-navbar.tsx:22 | the expand icon iff the sidebar is collapsed or the screen is mobile, the close icon otherwise |
| `Navbar.NavbarView.constructor` | src/modules/dashboard/ui/components/dashboard-navbar.tsx:9-10 | `commandOpen` starts false |
| `Navbar.NavbarView.PressSearch` | src/modules/dashboard/ui/components/dashboard-navbar.tsx:30 | the search button negates `commandOpen` and leaves the sidebar alone |
| `Navbar.NavbarView.OpenChange` | src/modules/dashboard/ui/components/dashboard-command.tsx:8-10 | the dialog's open-change writes through the same setter, so its `open` prop is the cell |
| `Navbar.NavbarView.ToggleSidebar` | src/modules/dashboard/ui/components/dashboard-navbar.tsx:18-19 | the sidebar toggle flips the sidebar state and leaves `commandOpen` alone |
| `Navbar.PressSearchTwice` | src/modules/dashboard/ui/components/dashboard-navbar.tsx:30 | two presses restore `commandOpen` and leave the sidebar unchanged |
| `Navbar.ToggleSidebarTwice` | src/modules/dashboard/ui/components/dashboard-navbar.tsx:19 | two toggles restore the sidebar and leave `commandOpen` unchanged |
| `HomeView.ScreenFor` | src/modules/home/ui/views/home-view.tsx:21-30 | "Loading..." exactly while the cell is null; the sign-out button exactly when it is not |
| `HomeView.SignOutPush` | src/modules/home/ui/views/home-view.tsx:27 | the sign-out button pushes `/sign-in` iff `onSuccess` runs; there is no fallback |
| `HomeView.Home.constructor` | src/modules/home/ui/views/home-view.tsx:8-19 | the cell starts null, "Loading..." shows, and one lookup is issued on mount |
| `HomeView.Home.LookupSettled` | src/modules/home/ui/views/home-view.tsx:12-16 | the cell is written only with data; "Loading..." persists iff no data came; only the one lookup is ever issued |
| `HomeView.Home.SignOutClicked` | src/modules/home/ui/views/home-view.tsx:27 | only while a session is shown; one sign-out request; the cell is never cleared; navigation only via `onSuccess` |
| `RootPage.GreetingFor` | src/app/page.tsx:22-25 | the text is "User is logged in as " followed by the user's name, or by nothing when the name is null |
| `RootPage.ScreenFor` | src/app/page.tsx:18-25 | "Loading..." exactly while the cell is null; otherwise the greeting for the session's user |
| `RootPage.Page.constructor` | src/app/page.tsx:6-16 | the cell starts null, "Loading..." shows, and one lookup is issued on mount |
| `RootPage.Page.LookupSettled` | src/app/page.tsx:9-13 | the cell is written only with data; "Loading..." persists iff no data came; with data the greeting names that user |

## Left out

- Layout, styling, icons and the command dialog's markup are not modelled. This includes the sidebar's static navigation lists and the ⌘K hint, which is text with no key binding.
- The sign-up view's Google and Github buttons are not modelled: they have no click handler.
- The server pages that mount the credential views are not part of this model. Each looks the session up on the server and calls `redirect("/")`:
  - `src/app/(auth)/sign-up/page.tsx` redirects when a session exists, so a signed-in visitor never sees the sign-up form;
  - `src/app/(auth)/sign-in/page.tsx` redirects when there is no session (`if(!session)`), so an anonymous visitor never reaches the sign-in form, and a push to `/sign-in` from the modelled views ends on `/` for a visitor without a session.
  The views are modelled as if mounted; the redirects, and the layouts, are left out.
- The zod email rule is a parameter: the model does not restate email syntax.
- zod counts lengths in UTF-16 code units; the model counts characters.
- `Text.Upper`: an ASCII case map stands in for Unicode `toUpperCase`, which can change a string's length (for example "ß" becomes "SS"). `UserButton.Initials` and `Text.TakeUpper` rely on the length being kept.
- Text: `n[0]` is taken per character, not per UTF-16 code unit, so a surrogate pair is not split.
- react-hook-form is not modelled beyond "onSubmit runs iff the schema passes". This leaves out field state, per-field messages from the resolver, and re-validation on change.
- The auth service, its transport and its result shapes are represented only by `Outcome` and `Lookup`. The social sign-in's provider redirect is not modelled either.
- The model records only the target of each router push, not how navigation happens.
- Async timing, re-renders, overlapping submissions, effects run twice in development, and writes after unmount are not modelled.
- `console.log` and `console.error` output is not modelled.
- The user's `image` is not modelled: only the avatar markup uses it. The user's `id` is read by none of the modelled files.
- The error callback's `ctx.error.message` is always a string in the model. An undefined message would also leave the alert hidden, just as "" does.
- `Navbar.NavbarView.isMobile` is fixed when the view is constructed. The sidebar library recomputes it from the window width while the navbar is mounted; `Navbar.ToggleIcon` covers both values, so only the change over time is not modelled.
- `Navbar.NavbarView.ToggleSidebar`: the sidebar library's toggle is a flip of one cell. On mobile the library flips a different, internal cell.
