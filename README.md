# Software directory: submission, moderation and catalog search

A Dafny model of the logic inside a React front end for a software-download
directory. Signed-in users suggest catalog entries through a dialog. Each
suggestion becomes a `pending` row of the `tool_submissions` table. Staff
approve or reject rows on a moderation page. Submitters follow their rows on
a "my submissions" page. Every visitor can search the catalog of a platform.

Modules, one per source file plus shared ones:

- `Util`: an `Option` type, `Filter` and `MapSeq` (the array methods `filter` and `map`), and order-preserving sub-sequences.
- `Text`: `toLowerCase`, `toUpperCase` and `includes`, with case mapping limited to ASCII letters.
- `Auth`: the user, the roles and the session the pages read from their authentication context.
- `Store`: the `tool_submissions` row, the insert and update payloads, and the class `Store.Table`. The table is an in-memory sequence of rows with insert, update-by-id and two ordered selects.
- `AdminPanel`: the moderation page (`src/pages/AdminPanel.tsx`), with the class `AdminPanel.Panel`.
- `SubmitToolDialog`: the suggestion dialog (`src/components/SubmitToolDialog.tsx`), with the class `SubmitToolDialog.Dialog`.
- `MySubmissions`: the own-submissions page (`src/pages/MySubmissions.tsx`), with the class `MySubmissions.Page`.
- `PlatformSection`: the catalog search and category filter (`src/components/PlatformSection.tsx`). It is pure functions only.
- `UserMenu`: the header's account menu (`src/components/UserMenu.tsx`). It is pure functions only.
- `Workflow`: lemmas that follow one submission across the dialog, the moderation page, the submitter's page and the menu.

The page state that the two pages and the dialog keep with `useState` is a
class with one field per state variable. The catalog section's search text
and selected category are parameters of its pure functions instead. Each event handler is a method that changes those
fields and the table. An effect's redirect is returned as a value. The
remote store's answer to each call is an input, `fault`. A failed call
changes nothing.

The code makes these choices, and the model keeps them:

- Approve and reject are unconditional updates by id. There is no
  compare-and-swap on `pending`. Deciding a reviewed row again replaces its
  status and review time and, when someone is signed in, its reviewer
  (`AdminPanel.SecondDecision`). The
  approve update has no `rejection_reason` key, so a row rejected with a
  reason and approved afterwards keeps that reason. The submitter's page
  hides it, because it shows a reason for rejected rows only
  (`Workflow.ApprovalShowsNoReason`). Only the user interface stands in the way of a second
  decision: buttons are rendered for the rows that were pending in the
  last fetched list. A successful update whose refetch fails leaves that
  list stale (`AdminPanel.Panel.HandleApprove` keeps `submissions` when
  the refetch faults), so the decided row is still offered for decision.
- The submit handler validates nothing; the form's widgets do. Name and
  description are `required` inputs, so the browser calls the handler only
  when both are filled in: `HandleSubmit` requires it. The category select
  offers only the current platform's categories, so `OnCategoryChange`
  requires one of them, and the install-command input exists only under
  Linux. The dialog keeps the invariant that the category is unset or
  offered (`SubmitToolDialog.Dialog.Valid`; the pure functions keep it by
  `SubmitToolDialog.EditsKeepCategoryOffered`), so every row it stores has
  a known platform, an offered or empty category and a non-empty name and
  description. The model defines no validation error.
- A visitor who is not allowed on a page gets a redirect, not an error. The
  moderation page issues no fetch for a session without the staff flag,
  and the own-submissions page none for a session without a user. The
  moderation page decides the fetch by the staff flag alone, so a session
  flagged as staff but with no user is both redirected and fetched for.
- The table's key is `id`: no two rows share one (`Store.Table.Valid`). The
  database chooses the id of an inserted row; an id the table already
  holds makes the insert fail.

## Model

| member | source | states |
|---|---|---|
| `AdminPanel.Redirect` | src/pages/AdminPanel.tsx:36-40 | once the session is known, a visitor with no user or without staff-or-higher is sent to "/", and nobody else is |
| `AdminPanel.Panel.OnSessionChange` | src/pages/AdminPanel.tsx:36-46 | returns the redirect; fetches (and ends loading) only for staff-or-higher, after which the spinner waits only for the session; otherwise the list and loading flag are untouched |
| `AdminPanel.Panel.FetchSubmissions` | src/pages/AdminPanel.tsx:48-58 | on success the list is every row newest first; on error the previous list stays; loading is false either way; the list stays sorted |
| `AdminPanel.Panel.HandleApprove` | src/pages/AdminPanel.tsx:60-78 | the table changes only by the approve update (nothing on error); refetch only on success; the row's buttons were disabled during the write and are enabled afterwards (`processingId` null); reasons untouched |
| `AdminPanel.Panel.HandleReject` | src/pages/AdminPanel.tsx:80-99 | the same, with the reject update carrying the reason typed for that id |
| `AdminPanel.Panel.EditReason` | src/pages/AdminPanel.tsx:179-185 | only the entry for that id changes, to the typed text; every other entry keeps its value |
| `AdminPanel.Panel.constructor` | src/pages/AdminPanel.tsx:31-34 | empty list, loading (so the spinner shows), nothing processing, no reasons |
| `AdminPanel.ReasonFor` | src/pages/AdminPanel.tsx:88 | the reason sent is present exactly when the id has a non-empty entry, and then equals it |
| `AdminPanel.ReasonSentIsReasonShown` | src/pages/AdminPanel.tsx:181 | the reason sent is the text shown in the box, or null exactly when the box is empty |
| `AdminPanel.ApproveEffect` | src/pages/AdminPanel.tsx:62-69 | rows with another id are unchanged; the matching rows get status approved, the reviewer's id (when signed in) and the time; `rejection_reason` and all other columns are kept |
| `AdminPanel.RejectEffect` | src/pages/AdminPanel.tsx:82-90 | rows with another id are unchanged; the matching rows get status rejected, the reviewer, the time and the typed reason or null |
| `AdminPanel.SecondDecision` | src/pages/AdminPanel.tsx:62-90 | the update ignores the current status: a second decision on the same id sets its status, its review time and the signed-in reviewer; the reason is the one typed for a rejection, and an approval after a rejection keeps the earlier reason |
| `AdminPanel.PendingReviewedPartition` | src/pages/AdminPanel.tsx:112-113 | each row is in the pending list or the reviewed list as its status says; counts and multisets add up; both keep the fetched order |
| `AdminPanel.HistoryLabel` | src/pages/AdminPanel.tsx:249 | a reviewed row reads "Aprovado" exactly when approved, and "Rejeitado" otherwise |
| `Auth.UserIdOf` | src/pages/AdminPanel.tsx:66 | `user?.id` is present exactly when a user is, and is that user's id |
| `Store.Created` | src/components/SubmitToolDialog.tsx:53-66 | an inserted row carries the payload unchanged, the given id and time, status pending and no review data |
| `Store.ApplyPatch` | src/pages/AdminPanel.tsx:64-68 | the patched columns take the patch's values, a key left out keeps the column; content, id and creation time never change |
| `Store.UpdatedById` | src/pages/AdminPanel.tsx:62-69 | same length; rows with another id unchanged; rows with that id patched |
| `Store.OrderByCreatedDesc` | src/pages/AdminPanel.tsx:49-52 | the result is sorted newest first and is a permutation of the input |
| `Store.OwnedOrderedSpec` | src/pages/MySubmissions.tsx:46-50 | the owner selection is sorted and holds exactly the rows of that user |
| `Store.Table.Insert` | src/components/SubmitToolDialog.tsx:53-66 | fails exactly on a fault or a taken id, and then leaves the table unchanged; otherwise appends the created row; the ids stay distinct |
| `Store.Table.Update` | src/pages/AdminPanel.tsx:62-69 | on success the table becomes the update by id; on error unchanged; the ids stay distinct |
| `Store.UpdateKeepsKey` | src/pages/AdminPanel.tsx:62-69 | an update by id keeps the ids of all rows distinct |
| `Store.UpdateChangesAtMostOne` | src/pages/AdminPanel.tsx:62-69 | under the key, an update by id changes at most one row |
| `Store.Table.SelectAll` | src/pages/AdminPanel.tsx:49-52 | error exactly on a fault; otherwise every row, newest first |
| `Store.Table.SelectOwnedBy` | src/pages/MySubmissions.tsx:46-50 | error exactly on a fault; otherwise exactly the user's rows, newest first |
| `SubmitToolDialog.PlatformTableConsistent` | src/components/SubmitToolDialog.tsx:13-25 | the platform list holds all four platforms, stored values are distinct and readable back, every platform has categories, and the labels are distinct |
| `SubmitToolDialog.CategoryTableFacts` | src/components/SubmitToolDialog.tsx:20-25 | "Sistema" only under linux, "Recuperação" only under iso, "Comunicação" only under windows, "Redes Sociais" only under android, "Utilitários" everywhere, "Navegadores" everywhere but iso |
| `SubmitToolDialog.PlatformChangeEffect` | src/components/SubmitToolDialog.tsx:110-111 | switching platform sets it, clears the category, leaves every other field, and the offered categories become that platform's |
| `SubmitToolDialog.EditsKeepCategoryOffered` | src/components/SubmitToolDialog.tsx:108-138 | starting from the initial form, every widget edit keeps the category empty or among the current platform's choices |
| `SubmitToolDialog.OrNull` | src/components/SubmitToolDialog.tsx:61-65 | null exactly for the empty string, otherwise the string itself |
| `SubmitToolDialog.InsertRecordColumns` | src/components/SubmitToolDialog.tsx:55-65 | user id is the caller's; required fields copied; each optional column null exactly when its input is empty, otherwise verbatim |
| `SubmitToolDialog.InsertRecordRoundTrip` | src/components/SubmitToolDialog.tsx:55-65 | the form can be read back from the inserted object, so nothing typed is lost |
| `SubmitToolDialog.HiddenInstallCommandIsSent` | src/components/SubmitToolDialog.tsx:199-210 | an install command typed under Linux survives a platform switch that hides its input and is still inserted |
| `SubmitToolDialog.Dialog.HandleSubmit` | src/components/SubmitToolDialog.tsx:43-88 | no user: no insert, nothing changes; otherwise one insert, failing on a fault or a taken id; on success the dialog closes, the form resets and the stored row has a known platform, an unset or offered category and a non-empty name and description; on error both stay; `isSubmitting` ends false; the category invariant and the table key are kept |
| `SubmitToolDialog.Dialog.OnPlatformChange` | src/components/SubmitToolDialog.tsx:110-111 | the form becomes the platform-changed form; the category invariant is kept |
| `SubmitToolDialog.Dialog.OnCategoryChange` | src/components/SubmitToolDialog.tsx:128 | the form's category becomes the chosen one, which the select offers for the platform; the category invariant is kept |
| `SubmitToolDialog.Dialog.OnTextChange` | src/components/SubmitToolDialog.tsx:144-221 | the edited input's field becomes the typed text; the install command is edited only under Linux; the category invariant is kept |
| `SubmitToolDialog.Dialog.OnOpenChange` | src/components/SubmitToolDialog.tsx:93 | the dialog's open flag follows the widget |
| `SubmitToolDialog.Dialog.constructor` | src/components/SubmitToolDialog.tsx:29-41 | closed, not submitting, the form `InitialForm` (platform windows, every other field empty), the same value a successful submit resets to; the category invariant holds |
| `MySubmissions.StatusLabelsDistinct` | src/pages/MySubmissions.tsx:21-25 | the three statuses have three different labels |
| `MySubmissions.Redirect` | src/pages/MySubmissions.tsx:33-37 | once the session is known, a visitor with no user is sent to "/auth", and nobody else is |
| `MySubmissions.Page.OnSessionChange` | src/pages/MySubmissions.tsx:33-43 | returns the redirect; fetches only for a signed-in user, after which the spinner waits only for the session; with no user the list and loading flag are untouched |
| `MySubmissions.Page.FetchSubmissions` | src/pages/MySubmissions.tsx:45-56 | on success exactly that user's rows, newest first; on error the previous list; loading ends; every listed row belongs to one user |
| `MySubmissions.Page.constructor` | src/pages/MySubmissions.tsx:30-31 | empty list, loading (so the spinner shows) |
| `PlatformSection.MatchesSpec` | src/components/PlatformSection.tsx:63-67 | a program matches exactly when the lowercased query is a substring of its lowercased name or description |
| `PlatformSection.MatchesIgnoresQueryCase` | src/components/PlatformSection.tsx:65-66 | lowercasing the query first changes nothing |
| `PlatformSection.FilteredCons` | src/components/PlatformSection.tsx:60-69 | the head category is kept, narrowed, exactly when a program of it matches |
| `PlatformSection.FilteredSound` | src/components/PlatformSection.tsx:60-69 | every category shown is non-empty and every program shown matches |
| `PlatformSection.FilteredComplete` | src/components/PlatformSection.tsx:60-69 | every matching program of every input category is shown, in its narrowed category |
| `PlatformSection.FilteredOrder` | src/components/PlatformSection.tsx:60-69 | the categories shown are a sub-sequence of the narrowed input, each program list a sub-sequence of its input, and the flattened result is the matching programs in input order |
| `PlatformSection.FlattenFiltered` | src/components/PlatformSection.tsx:60-69 | the programs of the result, category by category, are the matching programs of the input in order |
| `PlatformSection.EmptyQueryKeepsAll` | src/components/PlatformSection.tsx:63-69 | an empty query shows every non-empty category with all its programs |
| `PlatformSection.DisplayedSpec` | src/components/PlatformSection.tsx:72-77 | no selection (or the empty name) shows the filtered list; a selection shows, in order, exactly the filtered categories of that name |
| `PlatformSection.TotalProgramsCountsAll` | src/components/PlatformSection.tsx:79-82 | the total is the number of programs over all unfiltered categories |
| `PlatformSection.DisplayedWithinTotal` | src/components/PlatformSection.tsx:79-82 | search and selection never show more than the total; an empty query with no selection shows exactly the total |
| `Text.IncludesSpec` | src/components/PlatformSection.tsx:65 | `includes` holds exactly when the query occurs at some index |
| `UserMenu.RoleLabelsDistinct` | src/components/UserMenu.tsx:23-28 | different roles have different badge labels |
| `UserMenu.PrimaryRole` | src/components/UserMenu.tsx:42 | the first role, or member when there is none |
| `UserMenu.Initials` | src/components/UserMenu.tsx:43 | at most two characters, never empty; "U" without an e-mail or with an empty one; otherwise the first one or two characters uppercased |
| `UserMenu.RenderSignedOut` | src/components/UserMenu.tsx:34-40 | a visitor gets only the "Entrar" button to "/auth" |
| `UserMenu.RenderSignedIn` | src/components/UserMenu.tsx:66-92 | admin link exactly for staff-or-higher, own-submissions link always, one badge per role in role order with its label |
| `AdminPanel.ApprovePatch` | src/pages/AdminPanel.tsx:64-68 | the approve update; what it does to a row is stated by `AdminPanel.ApproveEffect` |
| `AdminPanel.RejectPatch` | src/pages/AdminPanel.tsx:84-89 | the reject update; what it does to a row is stated by `AdminPanel.RejectEffect` |
| `AdminPanel.PendingOf` | src/pages/AdminPanel.tsx:112 | the pending list; characterised by `AdminPanel.PendingReviewedPartition` |
| `AdminPanel.ReviewedOf` | src/pages/AdminPanel.tsx:113 | the reviewed list; characterised by `AdminPanel.PendingReviewedPartition` |
| `AdminPanel.ReasonText` | src/pages/AdminPanel.tsx:181 | the reason box's text; tied to the reason sent by `AdminPanel.ReasonSentIsReasonShown` |
| `Store.OwnedBy` | src/pages/MySubmissions.tsx:49 | the `user_id` selection; characterised by `Store.OwnedOrderedSpec` |
| `SubmitToolDialog.Categories` | src/components/SubmitToolDialog.tsx:20-25 | the category table; its facts are `SubmitToolDialog.CategoryTableFacts` and `SubmitToolDialog.PlatformTableConsistent` |
| `SubmitToolDialog.InsertRecord` | src/components/SubmitToolDialog.tsx:55-65 | the inserted object; characterised by `SubmitToolDialog.InsertRecordColumns` and inverted by `SubmitToolDialog.InsertRecordRoundTrip` |
| `SubmitToolDialog.WithPlatform` | src/components/SubmitToolDialog.tsx:110-111 | the platform change; characterised by `SubmitToolDialog.PlatformChangeEffect` |
| `MySubmissions.StatusLabel` | src/pages/MySubmissions.tsx:21-25 | the status badge; injective by `MySubmissions.StatusLabelsDistinct`, agreeing with the moderation history by `Workflow.HistoryLabelMatchesStatusLabel` |
| `MySubmissions.ShowsRejectionReason` | src/pages/MySubmissions.tsx:110 | whether the reason box shows; its behaviour after each decision is stated by `Workflow.RejectionReasonReachesSubmitter` and `Workflow.ApprovalShowsNoReason` |
| `PlatformSection.FilteredCategories` | src/components/PlatformSection.tsx:59-70 | the search result; characterised by `PlatformSection.FilteredSound`, `PlatformSection.FilteredComplete` and `PlatformSection.FilteredOrder` |
| `PlatformSection.DisplayedCategories` | src/components/PlatformSection.tsx:72-77 | the category selection; characterised by `PlatformSection.DisplayedSpec` |
| `PlatformSection.TotalPrograms` | src/components/PlatformSection.tsx:79-82 | the header count; characterised by `PlatformSection.TotalProgramsCountsAll` |
| `UserMenu.Render` | src/components/UserMenu.tsx:34-99 | what the menu shows; characterised by `UserMenu.RenderSignedOut` and `UserMenu.RenderSignedIn` |
| `UserMenu.RoleLabel` | src/components/UserMenu.tsx:23-28 | the badge label of a role; injective by `UserMenu.RoleLabelsDistinct` |
| `Text.Lower` | src/components/PlatformSection.tsx:65-66 | same length, each ASCII capital lowered and every other character kept |
| `Text.Upper` | src/components/UserMenu.tsx:43 | same length, each ASCII small letter raised and every other character kept |
| `Text.Includes` | src/components/PlatformSection.tsx:65-66 | `includes`; characterised by `Text.IncludesSpec` |
| `PlatformSection.Matches` | src/components/PlatformSection.tsx:63-67 | the search predicate; characterised by `PlatformSection.MatchesSpec` and `PlatformSection.MatchesIgnoresQueryCase` |
| `SubmitToolDialog.PlatformValue` | src/components/SubmitToolDialog.tsx:13-18 | the stored value of each platform of `platforms`; distinct and read back by `SubmitToolDialog.PlatformTableConsistent` |
| `SubmitToolDialog.PlatformLabel` | src/components/SubmitToolDialog.tsx:13-18 | the label of each platform of `platforms`; distinct by `SubmitToolDialog.PlatformTableConsistent` |
| `SubmitToolDialog.CategoryChoices` | src/components/SubmitToolDialog.tsx:134 | the categories offered for the form's platform; kept in step with the category by `SubmitToolDialog.EditsKeepCategoryOffered` |
| `SubmitToolDialog.ShowsInstallCommand` | src/components/SubmitToolDialog.tsx:199 | the install-command input shows for Linux only; `SubmitToolDialog.HiddenInstallCommandIsSent` shows what it hides is still sent |
| `SubmitToolDialog.WithCategory` | src/components/SubmitToolDialog.tsx:128 | the category select's edit; `SubmitToolDialog.EditsKeepCategoryOffered` keeps it within the offered list |
| `SubmitToolDialog.WithText` | src/components/SubmitToolDialog.tsx:144-221 | an input's edit of one field; `SubmitToolDialog.EditsKeepCategoryOffered` shows it leaves the category offered |
| `AdminPanel.Panel.ShowsSpinner` | src/pages/AdminPanel.tsx:101 | the spinner condition; the constructor starts with it, and `AdminPanel.Panel.OnSessionChange` leaves it waiting only for the session |
| `AdminPanel.Panel.ButtonsDisabled` | src/pages/AdminPanel.tsx:189-206 | a row's buttons are disabled while its id is processing; `AdminPanel.Panel.HandleApprove` and `AdminPanel.Panel.HandleReject` state it held when the update was issued and is off afterwards |
| `MySubmissions.Page.ShowsSpinner` | src/pages/MySubmissions.tsx:58 | the spinner condition; the constructor starts with it, and `MySubmissions.Page.OnSessionChange` leaves it waiting only for the session |
| `Workflow.SubmittedRowIsPending` | src/components/SubmitToolDialog.tsx:55-66 | a row from the dialog belongs to the submitter, is pending without review data, holds the form's content and shows no reason |
| `Workflow.LinuxSistemaSubmission` | src/components/SubmitToolDialog.tsx:22 | a Linux "Sistema" suggestion is offered and stored as pending with those values |
| `Workflow.SubmittedRowIsListed` | src/pages/MySubmissions.tsx:46-50 | a freshly inserted row is on its submitter's page and in the moderation page's pending list |
| `Workflow.RejectionReasonReachesSubmitter` | src/pages/MySubmissions.tsx:110 | after a rejection the submitter sees a reason exactly when a non-empty one was typed, and sees that text |
| `Workflow.RejectWithBrokenLink` | src/pages/AdminPanel.tsx:84-89 | rejecting with "broken link" stores and shows that reason with the reviewer set |
| `Workflow.ApprovalShowsNoReason` | src/pages/AdminPanel.tsx:64-68 | approving keeps whatever reason the row had, yet the submitter sees none, and the row is labelled "Aprovado" |
| `Workflow.HistoryLabelMatchesStatusLabel` | src/pages/AdminPanel.tsx:249 | the moderation history and the submitter's page label reviewed rows alike |
| `Workflow.AdminLinkMatchesPanelAccess` | src/components/UserMenu.tsx:85-92 | for a known, signed-in session the menu shows the admin link exactly when the moderation page does not redirect |
| `Workflow.RedirectsNest` | src/pages/MySubmissions.tsx:33-37 | whoever the own-submissions page redirects is also redirected by the moderation page |

## Left out

- The Supabase client, the database schema, its defaults and its access policies are not part of this model. The table is an in-memory sequence. The generated id and the creation time of an inserted row are inputs. `Store.Created` sets the `pending` status that the database gives by default. A failure is a `fault` flag. The `data === null` without an error case is not modelled.
- The authentication context is not part of this model: how `isStaffOrHigher` follows from the roles, session restoration, and `signOut` behind the menu's sign-out item. The session is an input.
- Asynchrony, React effects and re-rendering: each handler is one sequential step. In the code the refetch after a decision is not awaited, so `processingId` is cleared before the refetched list arrives; the model runs the refetch first and clears `processingId` after it. Concurrent decisions are out of scope.
- Timestamps are natural numbers. `toISOString` and `toLocaleDateString` are not modelled.
- Case mapping covers ASCII letters only. `toLowerCase` and `toUpperCase` on other characters, including ones whose case mapping changes the length, are not modelled.
- The `status` column is a three-valued type. The code compares strings, and a status outside the three values has no `statusConfig` entry. That case is not modelled.
- Rows with equal creation times come in a stable order in the model. The database leaves that order open.
- Rendering is not modelled: JSX, colours, icons, `platformStyles`, `roleColors`, toasts and navigation. The spinner, button-disabling and install-command-visibility conditions are plain predicates.
- `src/components/ProgramCard.tsx` (clipboard and timers), `src/components/PlatformTabs.tsx`, `src/pages/Index.tsx` and `src/components/Header.tsx` are presentation. The catalog's JSON data files are not part of this model.
- The effects' dependency lists are not modelled. In the pages, the fetch effect re-runs only when `isStaffOrHigher` changes (moderation page) or when the user changes (own-submissions page). `OnSessionChange` runs the redirect check and the fetch together, so it also fetches again when only the loading flag changes.
- Strings are sequences of Unicode scalar values. JavaScript's `slice` and `includes` count UTF-16 code units, so for text with characters outside the Basic Multilingual Plane, `UserMenu.Initials` and `Text.Includes` can differ from the code: an e-mail starting with such a character gets one character of initials in the code and two in the model.
