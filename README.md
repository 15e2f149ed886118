# Notes-App stores in Dafny

A model of the two client-side state stores of a small notes application.

The **notes store** holds three pieces of state: an ordered collection of note records, a loading flag and a nullable error message. It offers five actions. `loadNotes`, `createNote`, `updateNote` and `deleteNote` each set the loading flag, clear the error and call the remote API. On success they reconcile the collection:
- load replaces it;
- create prepends the new note;
- update replaces every note with the given id;
- delete filters those notes out.

On failure the action records the error text, and every action except load re-raises. Every action ends by clearing the loading flag. `clearError` only resets the error.

The **theme store** keeps a light/dark theme in step across three places: the DOM's "dark" class, the persisted `"theme"` entry in local storage, and the store value. `toggle` flips the theme based on the DOM class. `setTheme` writes its argument everywhere. `init` applies the initial theme, resolved from storage or from the system preference.

Layout:
- `wrappers.dfy`: `Option`, the `Result` an action returns to its caller (`Ok` or a re-raised `Err`), and the `Outcome` of a remote call (`Success` or `Failure` with a message).
- `note_list.dfy`: the pure reconciliation functions `Prepend`, `ReplaceById` and `RemoveById`, with the lemmas about them.
- `notes_store.dfy`: the class `NotesStore`, with fields `notes`, `loading` and `error`, and `ErrorText`.
- `theme.dfy`: `InitialTheme`, the state transitions `Toggled`, `WithTheme` and `Initialized` with their lemmas, and the class `ThemeStore`. Each of its methods is proved to perform the matching transition.

Effects become parameters and fields:
- The API call of each action is its `Outcome` parameter.
- `browser`, the DOM class and the stored entry are fields of `ThemeStore`.
- The system colour-scheme preference is the `prefersDark` parameter of `Init` and of the constructor.

## Model

| member | source | states |
|---|---|---|
| NoteList.Prepend | src/lib/stores/notes.js:42 | the new note is first, the old collection follows unchanged, and the length grows by one |
| NoteList.ReplaceByIdPointwise | src/lib/stores/notes.js:59-65 | update keeps the length; each note whose id matches becomes the returned record (duplicates too); every other note is unchanged at its index |
| NoteList.ReplaceByIdAbsent | src/lib/stores/notes.js:59-65 | updating an id that no note carries leaves the collection unchanged |
| NoteList.ReplaceById | src/lib/stores/notes.js:61-64 | the `map` step of update; its contract gives only the kept length, and ReplaceByIdPointwise, ReplaceByIdAbsent, ReplaceByIdIdempotent and ReplaceByIdKeepsCount state the rest |
| NoteList.RemoveById | src/lib/stores/notes.js:84 | the `filter` step of delete; its contract says the result is no longer than the input and no element has the id, and RemoveByIdMembers, RemoveByIdLength and RemoveByIdKeepsOrder state the rest |
| NoteList.ReplaceByIdIdempotent | src/lib/stores/notes.js:59-65 | a repeated update with the same returned record changes nothing more, whatever id that record carries |
| NoteList.ReplaceByIdKeepsCount | src/lib/stores/notes.js:59-65 | if the returned record keeps the id, the update preserves the number of notes with that id |
| NoteList.RemoveByIdMembers | src/lib/stores/notes.js:82-85 | after delete, a note is present exactly when it was present before and has a different id, so no note with the id remains |
| NoteList.RemoveByIdLength | src/lib/stores/notes.js:82-85 | delete shortens the collection by exactly the number of notes with the id and leaves no match |
| NoteList.RemoveByIdKeepsOrder | src/lib/stores/notes.js:82-85 | the surviving notes are a subsequence of the old collection, so their relative order is kept |
| NoteList.RemoveByIdAppend | src/lib/stores/notes.js:82-85 | filtering a concatenation is the concatenation of the filtered parts |
| NoteList.RemoveByIdAbsent | src/lib/stores/notes.js:82-85 | deleting an id that no note carries leaves the collection unchanged |
| NoteList.RemoveByIdIdempotent | src/lib/stores/notes.js:82-85 | deleting the same id twice is the same as deleting it once |
| NoteList.CreateThenDelete | src/lib/stores/notes.js:40-85 | deleting a newly created note's id gives the same result as deleting it from the collection before the create |
| NoteList.UpdateThenDelete | src/lib/stores/notes.js:58-85 | if the updated record keeps its id, deleting that id after the update gives the same result as deleting it without the update |
| NotesStore.ErrorText | src/lib/stores/notes.js:11-15 | the recorded error is the failure's message when it is non-empty, otherwise "An error occurred"; it is never empty |
| NotesStore.NotesStore.constructor | src/lib/stores/notes.js:6-8 | the store starts with an empty collection, not loading, and no error |
| NotesStore.NotesStore.HandleError | src/lib/stores/notes.js:11-15 | sets the error text from the message, clears loading, and leaves the collection alone |
| NotesStore.NotesStore.LoadNotes | src/lib/stores/notes.js:20-32 | on success the collection is exactly the fetched sequence and there is no error; on failure the collection is unchanged and the error is set; loading ends false; no failure reaches the caller |
| NotesStore.NotesStore.CreateNote | src/lib/stores/notes.js:35-50 | on success the new note is prepended and returned, with no error; on failure the collection is unchanged, the error is set and the failure is re-raised; loading ends false |
| NotesStore.NotesStore.UpdateNote | src/lib/stores/notes.js:53-73 | on success the length is kept, matching notes become the returned record, other notes are unchanged in place, and the record is returned; on failure the collection is unchanged, the error is set and the failure is re-raised; loading ends false |
| NotesStore.NotesStore.DeleteNote | src/lib/stores/notes.js:76-92 | on success the collection is the old one filtered by id: membership, count drop and order are all stated; on failure the collection is unchanged, the error is set and the failure is re-raised; loading ends false |
| NotesStore.NotesStore.ClearError | src/lib/stores/notes.js:95-97 | error becomes null; the collection and the loading flag are unchanged |
| Theme.InitialTheme | src/lib/stores/theme.js:8-16 | outside a browser the theme is "light"; otherwise a non-empty stored entry is returned verbatim; otherwise it is "dark" exactly when the system prefers dark, and "light" otherwise |
| Theme.InitialThemeOrigin | src/lib/stores/theme.js:8-16 | the resolved theme is never empty, and it is "light" or "dark" unless it was taken from storage |
| Theme.DomTheme | src/lib/stores/theme.js:27 | the theme read from the DOM is "dark" when the dark class is present, and "light" otherwise |
| Theme.Toggled | src/lib/stores/theme.js:24-42 | the state after toggle; its contract says the DOM flag flips and the three places agree when in a browser; ToggleFlips, ToggleTwice and OutsideBrowserUnchanged state the rest |
| Theme.WithTheme | src/lib/stores/theme.js:45-60 | the state after setTheme(t); its contract says storage and the store value hold t and the DOM flag agrees, when in a browser; SetThemeWrites and OutsideBrowserUnchanged state the rest |
| Theme.Initialized | src/lib/stores/theme.js:63-76 | the state after init; its contract says storage is unchanged and the store value is the resolved theme when in a browser; InitApplies and OutsideBrowserUnchanged state the rest |
| Theme.OutsideBrowserUnchanged | src/lib/stores/theme.js:24-64 | outside a browser, toggle, setTheme and init change nothing |
| Theme.ToggleFlips | src/lib/stores/theme.js:24-42 | toggle negates the DOM flag and writes one known theme to the DOM, storage and store value; the old store value does not affect the result |
| Theme.ToggleTwice | src/lib/stores/theme.js:24-42 | toggling twice restores the DOM flag and leaves all three places on the theme the DOM showed at the start |
| Theme.SetThemeWrites | src/lib/stores/theme.js:45-60 | for any string t, after setTheme(t) the DOM flag is set exactly when t is "dark", and storage and the store value both hold t, even when t is not a known theme; repeating the call changes nothing |
| Theme.InitApplies | src/lib/stores/theme.js:63-76 | init sets the store value to the resolved theme and the DOM flag to match it, and leaves storage unchanged |
| Theme.ThemeStore.constructor | src/lib/stores/theme.js:18 | the store value is seeded from the initial-theme resolution |
| Theme.ThemeStore.Toggle | src/lib/stores/theme.js:24-42 | performs the Toggled transition: outside a browser nothing changes; otherwise the DOM flag is negated and storage and the store value hold the new theme |
| Theme.ThemeStore.SetTheme | src/lib/stores/theme.js:45-60 | performs the WithTheme transition: the DOM flag is set exactly for "dark", and storage and the store value hold the argument |
| Theme.ThemeStore.Init | src/lib/stores/theme.js:63-76 | performs the Initialized transition: the store value is the resolved theme, the DOM flag matches it, and storage is untouched |

## Left out

- The remote API client in src/lib/api/notes.js is not part of this model. Its HTTP requests, `response.ok` check, JSON encoding, logging and `createdAt` timestamping are network and clock access. Each store action instead takes the call's result as an `Outcome` parameter.
- The `noteData` argument of `createNote` and `updateNote` is not modelled. It only goes to the API, whose result is the `Outcome` parameter.
- The `Outcome` carries an error's message as a string. An error without a `message` is represented by the empty message, which is falsy in the same way. The re-raised error is represented by its original message, not by the whole error object.
- Note ids are strings compared by equality. The case where the argument and a note's `id` have different JavaScript types, so that `===` is false, is not modelled.
- NotesStore.NotesStore.LoadNotes: the fetched body is typed as a sequence of note records. The source stores whatever JSON came back. A non-array body would make a later create, update or delete throw inside its `try` (src/lib/stores/notes.js:42, 61, 84), which records and re-raises an error even though the remote call succeeded. That path is not modelled.
- Theme.ThemeStore.SetTheme: the argument is typed as a string. The source accepts any value. For a non-string value, `localStorage.setItem` stores the value's string form while the store holds the raw value, so storage and the store value disagree (for example, "undefined" and `undefined`). That case is not modelled, and SetThemeWrites is stated for string arguments only.
- Note records other than their `id` are represented by one opaque `body` field, because the store never inspects them.
- `console.error` logging in the `handleError` helper is not modelled.
- Svelte `writable` subscription and notification are not modelled. The store values are plain fields.
- Each action runs as one atomic step. Interleaving of concurrent actions is not modelled, for example an earlier call clearing `loading` while a later call is still in flight. Because of this, the intermediate `loading == true` state is set and then overwritten within the same method.
- The `browser` flag is a field fixed at construction. `window.matchMedia` is the `prefersDark` parameter. `localStorage` and the DOM class list are the `stored` and `domDark` fields.
- tailwind.config.js is styling configuration and is not part of this model.
