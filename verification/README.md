# Classroom announcement board — a Dafny model

This project models the announcement board of a classroom web app. A teacher
writes an announcement in Korean. A translation service renders it into six
other languages. Students read the feed in the language they choose. The
model covers three parts:

- the records and constant tables (`types.ts`, `constants.ts`);
- the list operations and handlers of the live-classroom screen (`App.tsx`).
  These are post (create or edit), load an entry into the form for editing,
  and delete. They act on the announcement list, its stored copy, the
  composer form, the busy flag and the stored language preference;
- the card's choice of text for a display language, and which parts of the
  card are rendered (`components/AnnouncementCard.tsx`).

Layout, one module per file:

- `wrappers.dfy` (`Wrappers`): the `Option` type.
- `types.dfy` (`Types`): language codes, categories, translations and
  announcements as datatypes, plus the string literals that name the codes
  and categories.
- `constants.dfy` (`Constants`): the supported-language table, the category
  table, the badge colours, and the target languages the translation
  instruction names.
- `seqs.dfy` (`Seqs`): `find`/`findIndex` and `filter` over sequences, with
  their characterising lemmas.
- `board.dfy` (`Board`): the pure list transforms inside the handlers:
  lookup by id, in-place replacement, prepending, removal, and the record a
  post builds.
- `card.dfy` (`Card`): text resolution and the rendered card.
- `classroom.dfy` (`Classroom`): the class `LiveClassroom`, whose fields are
  the screen's state and the two storage keys, and whose methods are the
  handlers. A client method, `Session`, drives a post, a failed and then a
  successful edit, a reload and a delete through these contracts alone.

The translation result, the fresh id, the clock and the delete confirmation
are parameters. With those fixed, every operation is deterministic.

Some behaviour one might expect of such a board is absent from the code; the
model follows the code:

- Editing an id that is no longer in the list replaces nothing. The list is
  saved unchanged and the form is still reset. An upsert would instead
  insert the record at the front.
- The stored list is parsed without a guard. No fail-soft recovery to an
  empty list exists (see "Left out").
- The translation result is used as returned. No check is made that it
  covers every target language or repeats no language. No code-fence
  wrapper is stripped. So an announcement's translations may be empty,
  partial or repeated. `Resolve` takes the first match.
- A missing translation makes the card render nothing. `Resolve` returns
  `None` and `Render` returns `None`. No explicit "unavailable" outcome is
  shown.
- `createdAt <= updatedAt` is not guaranteed. Timestamps are whatever the
  clock parameter supplies.
- Deleting an announcement does not clear `editingId`.

## Model

| member | source | states |
|---|---|---|
| `Types.ParseCode` | types.ts:2 | a string is a language code exactly when it is one of the seven literals (`CodeText` of some code); the code read back is named by that string |
| `Types.ParseCodeText` | types.ts:2 | reading a code's literal gives the code back, so the seven literals are pairwise distinct |
| `Types.ParseCategory` | types.ts:10 | a string is a category exactly when it is one of the five labels (`CategoryLabel` of some category); the category read back is named by that string |
| `Types.ParseCategoryLabel` | types.ts:10 | reading a category's label gives the category back, so the five labels are pairwise distinct |
| `Constants.CategoryColor` | constants.ts:16-22 | the colour table is total: every category has a non-empty class string |
| `Constants.CategoryColorsDistinct` | constants.ts:17-21 | different categories get different badge classes |
| `Constants.SupportedCodes` | constants.ts:4-12 | the codes of the supported-language table are seven, start with the source language KO, include every code and repeat none |
| `Constants.SupportedLanguagesShape` | constants.ts:4-12 | the table has 7 entries with pairwise-distinct codes, and the source language KO comes first |
| `Constants.LanguagePosition` | constants.ts:4-12 | every language code occurs in the table, at exactly one position |
| `Constants.CategoriesShape` | constants.ts:14 | the category table has 5 entries, pairwise distinct |
| `Constants.CategoryPosition` | constants.ts:14 | every category occurs in the table, at exactly one position |
| `Constants.TargetsMatchInstruction` | services/geminiService.ts:17 | the supported codes other than KO are exactly EN, ZH, RU, VI, JA, FR in that order, the list the translation instruction names |
| `Board.FindById` | App.tsx:132 | the lookup yields the first entry of the list with that id, and yields nothing exactly when no entry has that id |
| `Board.ReplaceById` | App.tsx:113 | same length; every entry with the id becomes the new record; every other entry stays at its position |
| `Board.ReplaceAbsent` | App.tsx:113 | when no entry has the id, the list is unchanged |
| `Board.RemoveById` | App.tsx:143 | never longer than the input; keeps exactly the entries whose id differs, and drops every entry with the id |
| `Board.RemoveAbsent` | App.tsx:143 | removing an id no entry has leaves the list unchanged |
| `Board.RemoveConcat` | App.tsx:143 | removal distributes over concatenation, so survivors keep their relative order |
| `Board.RemoveMiddle` | App.tsx:143 | with distinct ids, deleting B from [A, B, C] gives [A, C] |
| `Board.RemovedIsGone` | App.tsx:143 | after deleting an id, a lookup of it finds nothing |
| `Board.RemoveKeepsOtherLookups` | App.tsx:143 | deleting one id leaves the lookup of every other id unchanged |
| `Board.Compose` | App.tsx:101-109 | the record carries the edited id when editing and the fresh id otherwise, the form's text and category, the translations and the current time as update time; its creation time is the current time or the non-empty creation time of a stored entry with the edited id |
| `Board.ComposeCreate` | App.tsx:101-109 | a new post gets the fresh id, the form's text and category, the translations, and the current time as both timestamps |
| `Board.ComposeEdit` | App.tsx:101-109 | an edit keeps the edited id and the creation time of the first stored entry with that id, takes the form's text, category and the new translations, and stamps the current time as update time |
| `Board.ComposeEditMissing` | App.tsx:107 | an edit of an id no stored entry carries takes the current time as creation time |
| `Board.ComposeEditEmptyCreatedAt` | App.tsx:107 | an edit whose first stored entry has an empty creation time takes the current time as creation time |
| `Board.UpdatedList` | App.tsx:111-116 | a create gives the new record followed by the old list; an edit keeps the length and replaces exactly the entries with the edited id |
| `Board.CreatedIsFound` | App.tsx:115 | after a create, a lookup of the new id finds the new record |
| `Board.EditedIsFound` | App.tsx:113 | after an edit, a lookup of the edited id finds the new record if the id was present, and nothing otherwise |
| `Board.EditKeepsOtherLookups` | App.tsx:113 | after an edit, the lookup of every other id finds what it found before |
| `Card.Resolve` | components/AnnouncementCard.tsx:21-25 | for KO the original title and content whatever the translations hold; otherwise the title and content of the first translation in that language, and nothing exactly when none has that language |
| `Card.ResolveIgnoresMetadata` | components/AnnouncementCard.tsx:21-23 | the resolved text depends only on the language, the original text and the translations, not on id, category or timestamps |
| `Card.MissingTranslation` | components/AnnouncementCard.tsx:23-25 | an announcement translated only into EN and JA has nothing to show in FR |
| `Card.Render` | components/AnnouncementCard.tsx:21-69 | the card is absent exactly when no text resolves; it shows the resolved text, the category's colour and the raw update time; the "Auto Translated" marker is on exactly when the language is not KO; edit and delete controls appear exactly when admin controls are requested, and both pass the announcement's id |
| `Card.SourceLanguageAlwaysRenders` | components/AnnouncementCard.tsx:21-22 | in KO every announcement renders, with its original text and without the marker |
| `Classroom.LiveClassroom.constructor` | App.tsx:70-78 | the first render: empty list, not loading, language KO, blank form with category 공지 and no edited id |
| `Classroom.LiveClassroom.Mount` | App.tsx:80-86 | a stored list replaces the list on screen and a stored language replaces the selection; otherwise both are kept; from the first render this leaves list and storage in step, and the language equal to the stored one or KO |
| `Classroom.LiveClassroom.SaveAnnouncements` | App.tsx:88-91 | the stored copy and the list on screen both become the given list; nothing else changes |
| `Classroom.LiveClassroom.HandlePost` | App.tsx:93-129 | an empty title or content changes nothing and sends nothing for translation; a failed translation keeps list, stored copy and form and ends not loading; a success saves the updated list (stored copy equal to it), resets the form to blank with category 공지 and no edited id, and ends not loading |
| `Classroom.LiveClassroom.HandleEdit` | App.tsx:131-139 | for a present id, the form takes that entry's original title, content and category, and the edited id is set; for an unknown id nothing changes |
| `Classroom.LiveClassroom.HandleDelete` | App.tsx:141-145 | once confirmed, the list and its stored copy become the list without that id; declined, nothing changes; the form is kept either way |
| `Classroom.LiveClassroom.CancelEdit` | App.tsx:206 | leaves edit mode and clears title and content; the category is kept |
| `Classroom.LiveClassroom.FillForm` | App.tsx:164-193 | the form inputs set title, content and category and nothing else |
| `Classroom.LiveClassroom.SelectLanguage` | App.tsx:246-249 | the chosen code is shown and stored, so the shown language equals the stored preference |

## Left out

- The translation call (services/geminiService.ts) is a network request to a
  generative-AI service. Its result is the `TranslationOutcome` parameter:
  a sequence of translations, or an error. The model does not assume six
  entries or distinct languages, because the code only parses the reply.
  The instruction text asks for objects with `langCode`, while the response
  schema and the card use `lang`. The model uses `lang`.
- The response schema lets a translation's `lang` be any string, but the
  model's `Translation.lang` holds only the seven codes. An entry whose
  `lang` is not a code never equals the display language, so it can never
  be shown; leaving such entries out does not change `Resolve`.
- JSON encoding and browser storage are two fields holding typed values.
  A corrupt stored blob makes the source's unguarded parse throw. That path
  is not modelled.
- The stored language string is cast to a code without a check. A stored
  string that is not one of the seven codes is not modelled, because the
  stored-language field holds only codes.
- `Date.now()` and the clock are the `freshId` and `now` parameters. Both
  ISO timestamps of one post are taken to read the same clock value. Id
  uniqueness is neither assumed nor proved.
- The `confirm` dialog is the `confirmed` parameter. The error `alert` is
  the `TranslationFailed` result. Console logging is left out.
- Async suspension and the disabled submit button are left out: a post is
  one atomic step. `loading` is true only inside that step.
- React rendering and routing are left out (`Layout`, `Landing`, `App`, the
  teacher's list and the student feed markup), as are
  components/LanguageSelector.tsx and the locale time formatting of the
  card. The card carries the raw `updatedAt` string.
- `UserState` (types.ts:28-31) is not used by the board and is not modelled.
- The language names and native names are display text. They are kept in
  the table, but no property is stated about them.
