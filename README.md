# Verified model of the association website's screens

This project models, in Dafny, the React screens of the association's website:
the administration pages (contacts, team, board members and their functions,
events and their registrations, newsletters and subscribers, blog posts, the
imprint, the gallery, the link sections) and the public pieces that share their
logic (login, footer, own profile). Each screen is one module holding one class
whose fields are the component's state variables and whose methods are its
event handlers; the pure helpers a screen uses (sorting, filtering, paging,
CSV export and import, field validation, the PDF and HTML tables of the
registrations) are functions with lemmas about them. `common.dfy` holds what
the screens share: optional values, the outcome of a request, JavaScript's `||`
fallbacks and truthiness, `trim`, lower-casing, substring search and number
formatting.

Everything outside the component is a parameter: the answer of a request
(`Outcome<T>`, a success with its body or an `HttpError` with its status,
backend error text and message), the answer of a `window.confirm` dialog, the
stored token and what `jwt-decode` makes of it, the files a file input yields
(with the data URL a `FileReader` produces for them) and the URL
`URL.createObjectURL` hands out. A handler that sends a request returns the
request it would send, so a contract can say exactly what goes over the wire
and when nothing does.

## Model

| member | source | states |
|---|---|---|
| `Common.OrElse` | src/components/Newsletter/NewsletterSubscribersList.jsx:50 | `a \|\| fallback` for a text that may be missing: the present non-empty text, else the fallback |
| `Common.ErrorText` | src/components/Galerie/Galerie.jsx:90 | `err.response?.data?.error \|\| fallback`: the backend's message when it sent a non-empty one, otherwise the screen's own fallback, and nothing else |
| `Common.RolesOf` | src/components/Verwaltung/Contact.jsx:80-88 | the role list is non-empty only when a token is stored and decodes to claims carrying that list; no token, a throwing decode or missing `userTypes` give [] |
| `Common.Filter` | src/components/Links/Links.jsx:93 | `Array.prototype.filter`: every kept element is from the input and satisfies the predicate, every element satisfying it is kept, and nothing is duplicated (sub-multiset) |
| `Common.FilterConcat` | src/components/Newsletter/NewsletterSubscribersList.jsx:42-54 | filtering distributes over concatenation, so the kept elements stay in their original relative order |
| `Common.FilterKeepsAll` | src/components/Newsletter/NewsletterSubscribersList.jsx:44 | a predicate every element passes leaves the list unchanged |
| `Common.RemoveAt` | src/components/Newsletter/NewsletterCreateForm.jsx:23 | `filter((_, i) => i !== k)`: the list without index k, and the list unchanged when k is out of range |
| `Common.RemoveAtShifts` | src/components/Newsletter/ImportSubcribersTable.jsx:21 | removing index k shortens by one and shifts exactly the later elements down by one |
| `Common.TrimStart` | src/components/Funktion/FunktionenVerwaltung.jsx:32 | the leading part of `trim()`: a suffix of the input, everything dropped is JavaScript white space, and the result does not start with white space |
| `Common.TrimEnd` | src/components/Funktion/FunktionenVerwaltung.jsx:32 | the trailing part of `trim()`: a prefix, everything dropped is white space, and the result does not end with white space |
| `Common.TrimEmptyIffBlank` | src/components/Funktion/FunktionenVerwaltung.jsx:32 | `!s.trim()` holds exactly when every character of s is white space (both directions) |
| `Common.Trim` | src/components/Newsletter/NewsletterSubscribersList.jsx:41 | `trim()` leaves no white space at either end, never lengthens, and returns a string with none at its ends unchanged |
| `Common.TrimIdempotent` | src/components/Newsletter/NewsletterSubscribersList.jsx:41 | trimming a trimmed string changes nothing |
| `Common.Lower` | src/components/Newsletter/NewsletterSubscribersList.jsx:41 | `toLowerCase()` keeps the length and lower-cases each character in place |
| `Common.LowerIdempotent` | src/components/Newsletter/NewsletterSubscribersList.jsx:50-52 | lower-casing an already lower-cased field changes nothing, so the query and the fields are compared in one case |
| `Common.ContainsIffOccurs` | src/components/Newsletter/NewsletterSubscribersList.jsx:50-52 | `includes(q)` holds exactly when q sits at some offset of the field (both directions) |
| `Common.Contains` | src/components/Newsletter/NewsletterSubscribersList.jsx:50-52 | `includes(q)` holds for the empty q and only for a q no longer than the text |
| `Common.ContainsEmpty` | src/components/Newsletter/NewsletterSubscribersList.jsx:48 | the empty query is contained in every field |
| `Common.NatToString` | src/components/Verwaltung/Team.jsx:48 | `String(n)` of a natural number is a non-empty string of decimal digits |
| `Common.IntToString` | src/components/Newsletter/NewsletterSubscribersList.jsx:67 | `String(i)` is non-empty, starts with "-" exactly when i is negative, and is otherwise made of decimal digits |
| `ContactScreen.FindIndex` | src/components/Verwaltung/Contact.jsx:196-197 | `findIndex`: -1 exactly when no item has the id, otherwise an index carrying the id with no earlier one |
| `ContactScreen.ArrayMove` | src/components/Verwaltung/Contact.jsx:198 | `arrayMove` keeps the length of the list |
| `ContactScreen.ArrayMovePlacesItem` | src/components/Verwaltung/Contact.jsx:198 | the dragged item ends up at the index of the item it was dropped on |
| `ContactScreen.ArrayMoveIsPermutation` | src/components/Verwaltung/Contact.jsx:198 | a move neither loses nor duplicates an item (same multiset) |
| `ContactScreen.ArrayMoveKeepsOrder` | src/components/Verwaltung/Contact.jsx:198 | every other item keeps its relative order |
| `ContactScreen.ArrayMoveInverse` | src/components/Verwaltung/Contact.jsx:198 | dragging back from the target to the origin restores the original list |
| `ContactScreen.PositionsFrom` | src/components/Verwaltung/Contact.jsx:203 | one `{ id, position }` entry per item, in order, positions counted up from the start value |
| `ContactScreen.OrderPayload` | src/components/Verwaltung/Contact.jsx:203 | the reorder payload pairs each item's id with its position counted from 1, in list order |
| `ContactScreen.PayloadPositionsAreOneToN` | src/components/Verwaltung/Contact.jsx:203 | the order payload lists the items in their new order with positions exactly 1, 2, ..., n |
| `ContactScreen.Contact.constructor` | src/components/Verwaltung/Contact.jsx:57-74 | the initial state of every hook: empty lists and strings, no active item or contact, both dialogs closed |
| `ContactScreen.Contact.DecodeRoles` | src/components/Verwaltung/Contact.jsx:80-88 | the role effect sets the roles to `RolesOf` the stored token and its decoding |
| `ContactScreen.Contact.LoadEmergency` | src/components/Verwaltung/Contact.jsx:93-100 | a successful load replaces the numbers; a failure leaves them as they were |
| `ContactScreen.Contact.LoadContact` | src/components/Verwaltung/Contact.jsx:102-116 | a load stores the record; a present record also fills the five form fields, an absent one or a failure leaves them untouched |
| `ContactScreen.Contact.OpenCreateModal` | src/components/Verwaltung/Contact.jsx:126-132 | the dialog opens empty, with no active item and no error |
| `ContactScreen.Contact.OpenEditModal` | src/components/Verwaltung/Contact.jsx:134-140 | the dialog opens on the item, with its title and number copied and no error |
| `ContactScreen.Contact.CloseModal` | src/components/Verwaltung/Contact.jsx:142-148 | the dialog is closed and its draft, active item and error cleared |
| `ContactScreen.Contact.CreateItem` | src/components/Verwaltung/Contact.jsx:150-163 | a missing title or number sets the error and sends nothing; otherwise the pair is POSTed, success closes the dialog, failure keeps it open with "Erstellen fehlgeschlagen." |
| `ContactScreen.Contact.UpdateItem` | src/components/Verwaltung/Contact.jsx:165-177 | the active item's id with the draft is PUT without any required-field check; success closes the dialog, failure sets "Update fehlgeschlagen."; with no active item nothing is sent |
| `ContactScreen.Contact.DeleteItem` | src/components/Verwaltung/Contact.jsx:179-189 | a DELETE is sent exactly when the confirmation was accepted; a failure changes no state |
| `ContactScreen.Contact.HandleDragEnd` | src/components/Verwaltung/Contact.jsx:191-210 | non-admins, drops outside any item and drops on the dragged item change nothing; otherwise the items become `arrayMove(items, oldIndex, newIndex)` and the 1-based order is PUT, kept whatever the response |
| `ContactScreen.Contact.OpenContactModal` | src/components/Verwaltung/Contact.jsx:215-218 | the contact dialog opens with its error cleared |
| `ContactScreen.Contact.CloseContactModal` | src/components/Verwaltung/Contact.jsx:220 | the contact dialog closes |
| `ContactScreen.Contact.SaveContact` | src/components/Verwaltung/Contact.jsx:222-243 | a missing title or address sets "Titel & Adresse erforderlich." and sends nothing; otherwise the five fields are PUT when a record exists and POSTed when not; success closes the dialog, failure sets "Speichern fehlgeschlagen." |
| `SubscribersListScreen.InsertByTime` | src/components/Newsletter/NewsletterSubscribersList.jsx:55 | one insertion step of the sort adds exactly one element |
| `SubscribersListScreen.InsertByTimePermutes` | src/components/Newsletter/NewsletterSubscribersList.jsx:55 | inserting keeps every element and adds the new one once (multiset) |
| `SubscribersListScreen.InsertByTimeSorted` | src/components/Newsletter/NewsletterSubscribersList.jsx:55 | inserting into a newest-first list keeps it newest first |
| `SubscribersListScreen.SortByTimeDesc` | src/components/Newsletter/NewsletterSubscribersList.jsx:55 | the comparator `new Date(b.subscribed_at) - new Date(a.subscribed_at)` orders newest first: the result is a permutation of the input and sorted by descending time |
| `SubscribersListScreen.PassesStatus` | src/components/Newsletter/NewsletterSubscribersList.jsx:43-46 | "all" keeps every subscriber; any other choice keeps only those with exactly that status, never one without a status |
| `SubscribersListScreen.FieldMatches` | src/components/Newsletter/NewsletterSubscribersList.jsx:50-52 | the empty query matches every field; a missing field matches nothing else; a match is never longer than the field |
| `SubscribersListScreen.PassesQuery` | src/components/Newsletter/NewsletterSubscribersList.jsx:47-54 | an empty query passes everyone; a subscriber with no name and no e-mail passes only the empty query; otherwise a pass means one of the three fields matches |
| `SubscribersListScreen.NormalizedQuery` | src/components/Newsletter/NewsletterSubscribersList.jsx:41 | the query is empty exactly when the input is blank, is already lower case and is never longer than the input |
| `SubscribersListScreen.Filtered` | src/components/Newsletter/NewsletterSubscribersList.jsx:40-56 | the `filtered` memo is sorted newest first and drawn from the subscribers (multiset inclusion) |
| `SubscribersListScreen.FilteredSpec` | src/components/Newsletter/NewsletterSubscribersList.jsx:40-56 | the `filtered` memo holds exactly the subscribers that pass the status filter and the trimmed, lower-cased query (both directions), draws on the list without duplicating anyone, and is newest first |
| `SubscribersListScreen.AllPassWithoutFilter` | src/components/Newsletter/NewsletterSubscribersList.jsx:44-48 | with the status on 'all' and a blank query nobody is dropped (same multiset) |
| `SubscribersListScreen.TotalPages` | src/components/Newsletter/NewsletterSubscribersList.jsx:58 | `Math.max(1, Math.ceil(n / 12))`: exactly one page for an empty list; otherwise enough pages for every row and no page left empty |
| `SubscribersListScreen.PageSlice` | src/components/Newsletter/NewsletterSubscribersList.jsx:60-63 | at most 12 rows; the rows from `(page - 1) * 12` up to the end of the page or of the list, and none past the end |
| `SubscribersListScreen.PagesUpToIsPrefix` | src/components/Newsletter/NewsletterSubscribersList.jsx:60-63 | pages 1..k laid end to end are the first `k * 12` rows |
| `SubscribersListScreen.PagesCoverFiltered` | src/components/Newsletter/NewsletterSubscribersList.jsx:58-63 | all the pages, concatenated in order, are exactly the filtered list: no row is lost or shown twice |
| `SubscribersListScreen.PagerStaysInRange` | src/components/Newsletter/NewsletterSubscribersList.jsx:156-158 | "Zurück" and "Weiter" keep an in-range page within [1, totalPages] and move it by exactly one when not at an end |
| `SubscribersListScreen.PrevPage` | src/components/Newsletter/NewsletterSubscribersList.jsx:156 | `Math.max(1, p - 1)` never moves forward and steps back by one from any page after the first |
| `SubscribersListScreen.NextPage` | src/components/Newsletter/NewsletterSubscribersList.jsx:158 | `Math.min(totalPages, p + 1)` never passes the last page and steps forward by one before it |
| `SubscribersListScreen.CsvRow` | src/components/Newsletter/NewsletterSubscribersList.jsx:66-74 | seven cells per subscriber, with an empty cell for a missing subscription or unsubscription time |
| `SubscribersListScreen.JsString` | src/components/Newsletter/NewsletterSubscribersList.jsx:68-70 | `String(cell)` of a text field: the text itself, "null" for a JSON null |
| `SubscribersListScreen.StampCell` | src/components/Newsletter/NewsletterSubscribersList.jsx:71 | `s.subscribed_at \|\| ''`: the time stamp's text, or an empty cell |
| `SubscribersListScreen.CsvRows` | src/components/Newsletter/NewsletterSubscribersList.jsx:66-74 | one row per filtered subscriber, in order |
| `SubscribersListScreen.CsvTableShape` | src/components/Newsletter/NewsletterSubscribersList.jsx:65-76 | `[header, ...rows]`: the header first, then the subscribers' rows in order, seven columns each |
| `SubscribersListScreen.CsvTable` | src/components/Newsletter/NewsletterSubscribersList.jsx:76 | `[header, ...rows]`: the header, then the row of each subscriber at the next index |
| `SubscribersListScreen.QuoteAll` | src/components/Newsletter/NewsletterSubscribersList.jsx:77 | every cell is quoted in place |
| `SubscribersListScreen.QuoteCell` | src/components/Newsletter/NewsletterSubscribersList.jsx:77 | a written cell starts and ends with a quote |
| `SubscribersListScreen.Join` | src/components/Newsletter/NewsletterSubscribersList.jsx:77-78 | `join(sep)` of no parts is empty, and the joined text starts with the first part |
| `SubscribersListScreen.CsvLine` | src/components/Newsletter/NewsletterSubscribersList.jsx:77 | a line of at least one cell starts with a quote |
| `SubscribersListScreen.CsvLines` | src/components/Newsletter/NewsletterSubscribersList.jsx:76-77 | one line per row |
| `SubscribersListScreen.CsvText` | src/components/Newsletter/NewsletterSubscribersList.jsx:76-78 | the text of no rows is empty; otherwise it starts with the first row's line (the header) |
| `SubscribersListScreen.ReadQuoted` | src/components/Newsletter/NewsletterSubscribersList.jsx:77 | reading a quoted cell always consumes input |
| `SubscribersListScreen.ReadCells` | src/components/Newsletter/NewsletterSubscribersList.jsx:77 | reading a line of cells always consumes input |
| `SubscribersListScreen.ReadQuotedEscaped` | src/components/Newsletter/NewsletterSubscribersList.jsx:77 | the quote doubling of `replace(/"/g, '""')` is undone by reading the cell: the escaped cell reads back as the original text, whatever follows it |
| `SubscribersListScreen.QuoteCellRoundTrip` | src/components/Newsletter/NewsletterSubscribersList.jsx:77 | a written cell reads back as `String(cell)` |
| `SubscribersListScreen.ReadCellsLine` | src/components/Newsletter/NewsletterSubscribersList.jsx:77 | a line of cells joined by ',' reads back as exactly those cells |
| `SubscribersListScreen.ReadTableLines` | src/components/Newsletter/NewsletterSubscribersList.jsx:76-78 | lines joined by '\n' read back as exactly the rows |
| `SubscribersListScreen.CsvExportRoundTrip` | src/components/Newsletter/NewsletterSubscribersList.jsx:64-78 | the exported text parses back to exactly the header and the filtered subscribers' rows, so quotes, commas and line breaks inside a cell cannot shift a column |
| `SubscribersListScreen.SubscribersList.constructor` | src/components/Newsletter/NewsletterSubscribersList.jsx:7-12 | no subscribers, loading, no error, an empty query, status 'all', page 1 |
| `SubscribersListScreen.SubscribersList.FetchSubscribers` | src/components/Newsletter/NewsletterSubscribersList.jsx:15-38 | success stores `res.data \|\| []` and clears the error; failure keeps the list and sets "Fehler beim Laden der Abonnenten."; loading ends false |
| `SubscribersListScreen.SubscribersList.SetQuery` | src/components/Newsletter/NewsletterSubscribersList.jsx:102 | typing stores the query and returns to page 1 |
| `SubscribersListScreen.SubscribersList.SetStatusFilter` | src/components/Newsletter/NewsletterSubscribersList.jsx:106 | choosing a status stores it and returns to page 1 |
| `SubscribersListScreen.SubscribersList.GoToPreviousPage` | src/components/Newsletter/NewsletterSubscribersList.jsx:156 | the page becomes `Math.max(1, p - 1)` and stays in range |
| `SubscribersListScreen.SubscribersList.GoToNextPage` | src/components/Newsletter/NewsletterSubscribersList.jsx:158 | the page becomes `Math.min(totalPages, p + 1)` and is in range afterwards |
| `SubscribersListScreen.SubscribersList.SyncPage` | src/components/Newsletter/NewsletterSubscribersList.jsx:59 | a page past the last goes back to 1; an in-range page is kept |
| `SubscribersListScreen.SubscribersList.DownloadCsv` | src/components/Newsletter/NewsletterSubscribersList.jsx:64-78 | the file's text is the CSV of the current filtered list, and it reads back as exactly that table |
| `GalerieScreen.NextIndex` | src/components/Galerie/Galerie.jsx:170 | `(i + 1) % n` stays among the n pictures, moves one forward and wraps from the last to the first |
| `GalerieScreen.PrevIndex` | src/components/Galerie/Galerie.jsx:171 | `(i - 1 + n) % n` stays among the n pictures, moves one back and wraps from the first to the last |
| `GalerieScreen.NextPrevInverse` | src/components/Galerie/Galerie.jsx:170-171 | forward then back, and back then forward, return to the same picture |
| `GalerieScreen.KeyEffect` | src/components/Galerie/Galerie.jsx:175-179 | Escape closes the lightbox, the arrows step with wrap-around, any other key leaves the picture; an open lightbox stays on a valid picture |
| `GalerieScreen.DeleteEndpoint` | src/components/Galerie/Galerie.jsx:150-152 | the delete goes to the banner collection whenever `isBanner` is set, to the logo collection only for a logo that is not a banner, else to the gallery |
| `GalerieScreen.ReloadAfterDelete` | src/components/Galerie/Galerie.jsx:158-160 | the reload tests the logo flag first: logo whenever `isLogo`, banner only for a banner that is not a logo, else the gallery |
| `GalerieScreen.DeleteAndReloadAgree` | src/components/Galerie/Galerie.jsx:150-160 | the collection deleted from and the one reloaded agree exactly when not both flags are set |
| `GalerieScreen.BannerUploadErrorAsWritten` | src/components/Galerie/Galerie.jsx:128-139 | as written: a successful upload shows "Banner-Upload fehlgeschlagen"; a failed one the backend's text or that fallback |
| `GalerieScreen.BannerUploadError` | src/components/Galerie/Galerie.jsx:128-139 | corrected banner upload: success leaves the error as it was, a failure shows the backend's message or "Banner-Upload fehlgeschlagen" |
| `GalerieScreen.BannerSuccessReportsFailure` | src/components/Galerie/Galerie.jsx:133-136 | as written, every successful banner upload ends with "Banner-Upload fehlgeschlagen", which differs from the intended result |
| `GalerieScreen.BannerUploadFailuresAgree` | src/components/Galerie/Galerie.jsx:135-136 | the code as written and the corrected version agree on every failed upload |
| `GalerieScreen.Galerie.constructor` | src/components/Galerie/Galerie.jsx:11-21 | the initial state: no pictures, files, logo or roles, not loading, no error, the lightbox closed |
| `GalerieScreen.Galerie.DecodeRoles` | src/components/Galerie/Galerie.jsx:24-32 | the roles become `RolesOf` the stored token and its decoding |
| `GalerieScreen.Galerie.MayUpload` | src/components/Galerie/Galerie.jsx:77 | uploading needs a stored token and the admin role, and whoever may upload may also delete |
| `GalerieScreen.Galerie.MayDelete` | src/components/Galerie/Galerie.jsx:146 | deleting needs a stored token and at least one role |
| `GalerieScreen.Galerie.LoadGalerie` | src/components/Galerie/Galerie.jsx:40-47 | success replaces the pictures; failure keeps them and sets "Galerie konnte nicht geladen werden." |
| `GalerieScreen.Galerie.LoadLogo` | src/components/Galerie/Galerie.jsx:49-56 | the logo is `res.data.logoUrl` on success and null on failure |
| `GalerieScreen.Galerie.ChooseGalerieFiles` | src/components/Galerie/Galerie.jsx:218 | the selection becomes the chosen files |
| `GalerieScreen.Galerie.ChooseLogoFile` | src/components/Galerie/Galerie.jsx:206 | the logo file becomes the chosen one |
| `GalerieScreen.Galerie.ChooseBannerFile` | src/components/Galerie/Galerie.jsx:194 | the banner file becomes the chosen one |
| `GalerieScreen.Galerie.HandleGalerieUpload` | src/components/Galerie/Galerie.jsx:76-94 | no files, no token or no admin role: nothing is sent and nothing changes; otherwise the files are posted, success clears the selection, failure keeps it and sets the error; loading ends false |
| `GalerieScreen.Galerie.HandleLogoUpload` | src/components/Galerie/Galerie.jsx:99-117 | the same guard for the logo; success clears the logo file, failure sets the error; loading ends false |
| `GalerieScreen.Galerie.HandleBannerUpload` | src/components/Galerie/Galerie.jsx:122-140 | the same guard for the banner; success clears the banner file; the error follows the corrected `BannerUploadError`; loading ends false |
| `GalerieScreen.Galerie.HandleDeleteBild` | src/components/Galerie/Galerie.jsx:145-164 | a delete is sent exactly when a token is stored, the user is admin or board, and the deletion was confirmed; it addresses `DeleteEndpoint`; a reload of `ReloadAfterDelete` follows exactly a success, a failure sets "Löschen fehlgeschlagen" |
| `GalerieScreen.Galerie.OpenImage` | src/components/Galerie/Galerie.jsx:228 | a click on a picture opens the lightbox on it |
| `GalerieScreen.Galerie.CloseFullscreen` | src/components/Galerie/Galerie.jsx:169 | the lightbox closes |
| `GalerieScreen.Galerie.ShowNext` | src/components/Galerie/Galerie.jsx:170 | the lightbox moves to `NextIndex` and stays on a valid picture |
| `GalerieScreen.Galerie.ShowPrevious` | src/components/Galerie/Galerie.jsx:171 | the lightbox moves to `PrevIndex` and stays on a valid picture |
| `GalerieScreen.Galerie.HandleKey` | src/components/Galerie/Galerie.jsx:173-182 | with the lightbox closed no listener exists and nothing changes; with it open the key has `KeyEffect`; the lightbox stays valid |
| `LinksScreen.AdminOrVorstand` | src/components/Links/Links.jsx:38-49 | the management controls are shown exactly when a stored token decodes to claims whose `userTypes` name "admin" or "vorstand" |
| `LinksScreen.WithoutSection` | src/components/Links/Links.jsx:93 | what remains after a section delete is drawn from the sections, holds none with that id and is no longer |
| `LinksScreen.WithoutSectionSpec` | src/components/Links/Links.jsx:93 | after a section delete no section carries the id, every other section is still there, nothing changes when no section had the id, and the survivors keep their order |
| `LinksScreen.WithoutLink` | src/components/Links/Links.jsx:131-137 | the sections keep their number, ids and titles; sections other than the named one are untouched; in the named one only links are dropped, in order |
| `LinksScreen.WithoutLinkSpec` | src/components/Links/Links.jsx:134 | in the named section the deleted link is gone and every other link stays |
| `LinksScreen.Links.constructor` | src/components/Links/Links.jsx:18-35 | the initial state: no sections, no role, no edit or add in progress, empty inputs |
| `LinksScreen.Links.DecodeRoles` | src/components/Links/Links.jsx:38-49 | with a token the flag becomes `AdminOrVorstand`; without one it is not touched |
| `LinksScreen.Links.FetchSections` | src/components/Links/Links.jsx:53-62 | success replaces the sections; a failure, only logged, keeps them |
| `LinksScreen.Links.EditSection` | src/components/Links/Links.jsx:65-68 | the section's id and title go into the edit row |
| `LinksScreen.Links.SetEditSectionTitle` | src/components/Links/Links.jsx:183 | typing stores the edited title |
| `LinksScreen.Links.CancelSectionEdit` | src/components/Links/Links.jsx:190 | the section edit ends |
| `LinksScreen.Links.SaveSectionEdit` | src/components/Links/Links.jsx:70-84 | an empty title alerts "Titel darf nicht leer sein" and sends nothing; otherwise the title is PUT, success ends the edit, failure alerts "Fehler beim Speichern" and keeps it |
| `LinksScreen.Links.HandleDeleteSection` | src/components/Links/Links.jsx:86-97 | a DELETE is sent exactly when confirmed; success drops the section locally, failure alerts "Fehler beim Löschen" and keeps the list |
| `LinksScreen.Links.EditLink` | src/components/Links/Links.jsx:100-104 | the link's id, text and URL go into the edit row |
| `LinksScreen.Links.SetEditLink` | src/components/Links/Links.jsx:260-265 | typing stores the edited text and URL |
| `LinksScreen.Links.CancelLinkEdit` | src/components/Links/Links.jsx:272 | the link edit ends |
| `LinksScreen.Links.SaveLinkEdit` | src/components/Links/Links.jsx:106-122 | a missing text or URL alerts "Bitte Text und URL angeben!" and sends nothing; otherwise the link is PUT, success ends the edit, failure alerts and keeps it |
| `LinksScreen.Links.HandleDeleteLink` | src/components/Links/Links.jsx:124-141 | a DELETE is sent exactly when confirmed; success removes the link from its section only (`WithoutLink`), failure alerts and keeps the list |
| `LinksScreen.Links.SetAddingLinkToSection` | src/components/Links/Links.jsx:214 | the "+" button opens the add row of a section, its cancel button closes it |
| `LinksScreen.Links.SetNewLink` | src/components/Links/Links.jsx:230-235 | typing stores the new link's text and URL |
| `LinksScreen.Links.HandleAddLinkToSection` | src/components/Links/Links.jsx:143-159 | a missing text or URL alerts and sends nothing; otherwise the link is POSTed to the section, success clears the inputs and closes the add row, failure alerts "Fehler beim Hinzufügen" and keeps them |
| `TeamScreen.IdStrings` | src/components/Verwaltung/Team.jsx:48 | `m.funktionen.map(f => String(f.id))`: one string per function, in order, each the printed id |
| `TeamScreen.Normalize` | src/components/Verwaltung/Team.jsx:45-49 | the loaded employee keeps its other fields, its functions become `[]` when they are not an array, and its check-box ids are the printed function ids in the same order |
| `TeamScreen.NormalizeAll` | src/components/Verwaltung/Team.jsx:45-49 | `res.data.map(...)`: one normalized employee per loaded one, in order |
| `TeamScreen.NatToStringInjective` | src/components/Verwaltung/Team.jsx:48 | different natural numbers print differently |
| `TeamScreen.IntToStringInjective` | src/components/Verwaltung/Team.jsx:48 | `String` is injective on integers, negative ones included |
| `TeamScreen.FunktionenIdsFaithful` | src/components/Verwaltung/Team.jsx:48 | two check-box ids of a loaded employee are equal exactly when the function ids they came from are (both directions) |
| `TeamScreen.Toggle` | src/components/Verwaltung/Team.jsx:196-203 | checking appends the id; unchecking removes every occurrence of it, keeps every other selected id and adds none |
| `TeamScreen.UncheckKeepsOrder` | src/components/Verwaltung/Team.jsx:201 | unchecking distributes over concatenation, so the remaining ids keep their order |
| `TeamScreen.CheckThenUncheck` | src/components/Verwaltung/Team.jsx:196-203 | unchecking right after checking is the same as only unchecking |
| `TeamScreen.UncheckAbsent` | src/components/Verwaltung/Team.jsx:201 | unchecking an id that is not selected changes nothing |
| `TeamScreen.Team.constructor` | src/components/Verwaltung/Team.jsx:10-21 | the initial state: empty lists and names, no photo, no error, not loading, nobody being edited |
| `TeamScreen.Team.DecodeRoles` | src/components/Verwaltung/Team.jsx:26-34 | the roles become `RolesOf` the stored token and its decoding |
| `TeamScreen.Team.LoadMitarbeiter` | src/components/Verwaltung/Team.jsx:42-55 | success stores the normalized employees; failure keeps them and sets "Mitarbeiter konnten nicht geladen werden." |
| `TeamScreen.Team.LoadFunktionen` | src/components/Verwaltung/Team.jsx:58-65 | success stores the functions; failure keeps them and sets "Funktionen konnten nicht geladen werden." |
| `TeamScreen.Team.SetNames` | src/components/Verwaltung/Team.jsx:176-187 | typing stores the first and last name |
| `TeamScreen.Team.ChooseFoto` | src/components/Verwaltung/Team.jsx:211-215 | the photo becomes the chosen file |
| `TeamScreen.Team.ToggleFunktion` | src/components/Verwaltung/Team.jsx:192-204 | the selected ids become `Toggle` of the old ones with the printed function id |
| `TeamScreen.Team.ResetForm` | src/components/Verwaltung/Team.jsx:133-140 | names, selection, photo, edited employee and error are all cleared |
| `TeamScreen.Team.HandleEdit` | src/components/Verwaltung/Team.jsx:158-164 | the employee, their names and their check-box ids go into the form, and the photo choice is cleared |
| `TeamScreen.Team.CreateMitarbeiter` | src/components/Verwaltung/Team.jsx:75-99 | a missing name or no function sets "Bitte alle Pflichtfelder ausfüllen." and sends nothing; otherwise the form is POSTed, success resets the form, failure sets "Create fehlgeschlagen." and keeps it; loading ends false |
| `TeamScreen.Team.UpdateMitarbeiter` | src/components/Verwaltung/Team.jsx:104-128 | the same checks, and an employee must be selected; the form is PUT to that employee, success resets the form, failure sets "Update fehlgeschlagen."; loading ends false |
| `TeamScreen.Team.HandleDelete` | src/components/Verwaltung/Team.jsx:145-153 | a DELETE is sent exactly when confirmed; a failure sets "Löschen fehlgeschlagen." |
| `ImportSubscribersScreen.SetField` | src/components/Newsletter/ImportSubcribersTable.jsx:12 | `row[field] = value` sets that field and leaves the other two |
| `ImportSubscribersScreen.SetFieldLaws` | src/components/Newsletter/ImportSubcribersTable.jsx:10-14 | the last edit of a field wins, and writing back a field's own value changes nothing |
| `ImportSubscribersScreen.IsComplete` | src/components/Newsletter/ImportSubcribersTable.jsx:26-28 | a row is complete exactly when each of its three fields holds a character that is not white space (both directions) |
| `ImportSubscribersScreen.CompleteRows` | src/components/Newsletter/ImportSubcribersTable.jsx:26-28 | the rows sent are drawn from the table, all complete, and no more than there are |
| `ImportSubscribersScreen.CompleteRowsSpec` | src/components/Newsletter/ImportSubcribersTable.jsx:26-28 | exactly the rows whose three fields are non-blank after `trim()` are sent, drawn from the table and in its order |
| `ImportSubscribersScreen.NoCompleteRows` | src/components/Newsletter/ImportSubcribersTable.jsx:26-33 | nothing is sent exactly when no row is complete (both directions) |
| `ImportSubscribersScreen.ImportSubscribersTable.constructor` | src/components/Newsletter/ImportSubcribersTable.jsx:6-8 | the table starts with exactly one empty row, no message, not loading |
| `ImportSubscribersScreen.ImportSubscribersTable.HandleChange` | src/components/Newsletter/ImportSubcribersTable.jsx:10-14 | only the edited row changes, and in it only the edited field |
| `ImportSubscribersScreen.ImportSubscribersTable.AddRow` | src/components/Newsletter/ImportSubcribersTable.jsx:16-18 | one empty row is appended |
| `ImportSubscribersScreen.ImportSubscribersTable.RemoveRow` | src/components/Newsletter/ImportSubcribersTable.jsx:20-23 | the row at the index is removed and the others keep their order |
| `ImportSubscribersScreen.ImportSubscribersTable.SubmitData` | src/components/Newsletter/ImportSubcribersTable.jsx:25-52 | with no complete row an error message and no request; otherwise only the complete rows are posted, success shows `res.data.message` and resets the table to one empty row, failure shows the backend error or "Fehler beim Importieren." and keeps the rows; loading ends false |
| `NewsletterCreateScreen.SetField` | src/components/Newsletter/NewsletterCreateForm.jsx:14 | `section[field] = value` sets that field and leaves the other three |
| `NewsletterCreateScreen.FailureText` | src/components/Newsletter/NewsletterCreateForm.jsx:58 | the failure message is the fixed prefix followed by the backend's `error` when it sent a non-empty one, else by the exception's own message |
| `NewsletterCreateScreen.NewsletterForm.constructor` | src/components/Newsletter/NewsletterCreateForm.jsx:5-10 | an empty title, date and message and exactly one empty section |
| `NewsletterCreateScreen.NewsletterForm.SetTitle` | src/components/Newsletter/NewsletterCreateForm.jsx:72 | typing stores the title |
| `NewsletterCreateScreen.NewsletterForm.SetSendDate` | src/components/Newsletter/NewsletterCreateForm.jsx:82 | choosing stores the send date |
| `NewsletterCreateScreen.NewsletterForm.HandleSectionChange` | src/components/Newsletter/NewsletterCreateForm.jsx:12-16 | only the edited section changes, and in it only the edited field; at least one section remains |
| `NewsletterCreateScreen.NewsletterForm.AddSection` | src/components/Newsletter/NewsletterCreateForm.jsx:18-20 | one empty section is appended |
| `NewsletterCreateScreen.NewsletterForm.RemoveSection` | src/components/Newsletter/NewsletterCreateForm.jsx:22-25 | the section at the index is removed; because the button is disabled on the last section, at least one section always remains |
| `NewsletterCreateScreen.NewsletterForm.HandleSubmit` | src/components/Newsletter/NewsletterCreateForm.jsx:27-60 | a missing title or date, or no section, sets its message and sends nothing; otherwise the newsletter is posted, success reports "Newsletter erfolgreich erstellt! ID: " and the id and resets the form to one empty section, failure reports `FailureText` and keeps the form |
| `CreateEventScreen.ValueOf` | src/components/Events/CreateEventForm.jsx:23-24 | a check box contributes its checked state, every other input its text value |
| `CreateEventScreen.SetPriceField` | src/components/Events/CreateEventForm.jsx:41 | `price[field] = value` sets that field and leaves the other |
| `CreateEventScreen.CreateEventForm.constructor` | src/components/Events/CreateEventForm.jsx:6-20 | the initial form object with one empty price option, no preview, no message |
| `CreateEventScreen.CreateEventForm.HandleChange` | src/components/Events/CreateEventForm.jsx:22-25 | `{ ...formData, [name]: value }`: only the input's own property changes, and the price list is kept |
| `CreateEventScreen.CreateEventForm.HandleImageUpload` | src/components/Events/CreateEventForm.jsx:27-37 | no file changes nothing; a file's data URL becomes both `bild` and the preview, and nothing else changes |
| `CreateEventScreen.CreateEventForm.HandlePriceChange` | src/components/Events/CreateEventForm.jsx:39-43 | only the edited price option changes, in it only the edited field, and every other property of the form is kept |
| `CreateEventScreen.CreateEventForm.AddPriceField` | src/components/Events/CreateEventForm.jsx:45-47 | one empty price option is appended and nothing else changes |
| `CreateEventScreen.CreateEventForm.HandleSubmit` | src/components/Events/CreateEventForm.jsx:49-58 | the whole form is posted unchanged; the outcome decides only between the success and the failure message |
| `EventFormScreen.ValueOf` | src/components/Events/EventForm.jsx:48-51 | a check box contributes its checked state, every other input its text value |
| `EventFormScreen.Prefix16` | src/components/Events/EventForm.jsx:32 | `substring(0, 16)`: a prefix of at most 16 characters, the whole string when it is shorter |
| `EventFormScreen.DateTimeLocal` | src/components/Events/EventForm.jsx:32-33 | a missing or empty date gives "", any other a prefix of at most 16 characters |
| `EventFormScreen.LoadedForm` | src/components/Events/EventForm.jsx:28-37 | the loaded form has exactly the form's eight properties: texts default to "", dates are cut to `yyyy-MM-ddTHH:mm`, flags are true only when the event says so |
| `EventFormScreen.LoadingNothingGivesEmptyForm` | src/components/Events/EventForm.jsx:6-15 | an event with nothing set loads as the initial empty form |
| `EventFormScreen.EventForm.constructor` | src/components/Events/EventForm.jsx:5-20 | the initial empty form, no preview, no messages, not loading |
| `EventFormScreen.EventForm.LoadEvent` | src/components/Events/EventForm.jsx:23-45 | without an id nothing happens; with one, success loads `LoadedForm` and the picture preview (null for a missing picture), failure keeps the form and sets "Fehler beim Laden des Events."; loading ends false |
| `EventFormScreen.EventForm.HandleChange` | src/components/Events/EventForm.jsx:47-53 | only the input's own property changes |
| `EventFormScreen.EventForm.HandleBildChange` | src/components/Events/EventForm.jsx:55-71 | no file changes nothing; a non-PNG sets "Nur PNG-Bilder sind erlaubt." and leaves the picture; a PNG's data URL becomes `bild` and the preview and clears the error |
| `EventFormScreen.EventForm.Validate` | src/components/Events/EventForm.jsx:73-82 | the loop accepts exactly when all five required fields are truthy, and otherwise sets "Bitte alle Pflichtfelder ausfüllen." |
| `EventFormScreen.EventForm.HandleSubmit` | src/components/Events/EventForm.jsx:84-120 | both messages are cleared and an incomplete form stops there; with an id the form is PUT and kept, without one it is POSTed and success empties it; `onSuccess` runs exactly on success; a failure sets the backend error or "Fehler beim Speichern des Events."; loading ends false |
| `VorstandErstellenScreen.OptionalFieldsDoNotMatter` | src/components/Vorstand/VorstandErstellen.jsx:60-79 | `foto` and `beschreibung` play no part in whether the form may be sent (both directions) |
| `VorstandErstellenScreen.EmptyFormIncomplete` | src/components/Vorstand/VorstandErstellen.jsx:6-20 | the initial and the emptied form hold every required field, empty, so it cannot be sent until they are filled in again |
| `VorstandErstellenScreen.VorstandForm.constructor` | src/components/Vorstand/VorstandErstellen.jsx:6-24 | thirteen empty fields, no preview, no messages |
| `VorstandErstellenScreen.VorstandForm.HandleChange` | src/components/Vorstand/VorstandErstellen.jsx:27-30 | only the input's own field changes |
| `VorstandErstellenScreen.VorstandForm.HandleFotoChange` | src/components/Vorstand/VorstandErstellen.jsx:33-51 | no file changes nothing; a type other than PNG, JPEG or WEBP sets "Nur PNG, JPG oder WEBP erlaubt." and clears the preview and `foto`; an accepted photo's data URL becomes `foto` and the preview and clears the error |
| `VorstandErstellenScreen.VorstandForm.CheckRequired` | src/components/Vorstand/VorstandErstellen.jsx:74-79 | the loop accepts exactly when all eleven required fields are non-empty, and otherwise sets "Bitte alle Pflichtfelder ausfüllen." |
| `VorstandErstellenScreen.VorstandForm.HandleSubmit` | src/components/Vorstand/VorstandErstellen.jsx:54-114 | both messages are cleared and a missing required field stops there; otherwise the form is posted, success shows `res.data.message` or "Vorstand erfolgreich erstellt!" and empties all thirteen fields and the preview, failure shows the backend error or "Fehler beim Erstellen des Vorstands." and keeps the form |
| `CreateBlogScreen.DataUrls` | src/components/Blogs/CreateBlog.jsx:14-27 | one data URL per chosen file, in the order chosen |
| `CreateBlogScreen.CreateBlog.constructor` | src/components/Blogs/CreateBlog.jsx:6-11 | an empty title, text and picture list, no messages, not loading |
| `CreateBlogScreen.CreateBlog.SetTitel` | src/components/Blogs/CreateBlog.jsx:71 | typing stores the title |
| `CreateBlogScreen.CreateBlog.SetInhalt` | src/components/Blogs/CreateBlog.jsx:81 | typing stores the text |
| `CreateBlogScreen.CreateBlog.HandleBildUpload` | src/components/Blogs/CreateBlog.jsx:14-27 | the pictures are replaced by the chosen files' data URLs |
| `CreateBlogScreen.CreateBlog.HandleSubmit` | src/components/Blogs/CreateBlog.jsx:29-57 | both messages are cleared; an empty title or text sets "Titel und Inhalt müssen angegeben werden." and sends nothing; otherwise the post is sent, success shows the backend's message and empties the form, failure shows the backend error or "Fehler beim Erstellen des Blogs." and keeps it; loading ends false on every path |
| `LoginScreen.PasswordProblem` | src/components/Login/LoginForm.jsx:54-62 | a new password may be sent exactly when it is non-empty and equals its confirmation; an empty entry and a mismatch each have their own message |
| `LoginScreen.LoginForm.constructor` | src/components/Login/LoginForm.jsx:6-13 | empty inputs, no error, the login step, no id or token, the stored values as they were |
| `LoginScreen.LoginForm.SetCredentials` | src/components/Login/LoginForm.jsx:97-108 | typing stores user name and password |
| `LoginScreen.LoginForm.SetNewPasswords` | src/components/Login/LoginForm.jsx:125-136 | typing stores the new password and its confirmation |
| `LoginScreen.LoginForm.HandleLogin` | src/components/Login/LoginForm.jsx:16-47 | the credentials are posted; failure shows the backend error or the login failure text and changes nothing else; a password never changed switches to step two keeping id and token in the component only; otherwise token and user are stored and the page leaves for "/" |
| `LoginScreen.LoginForm.HandleChangePassword` | src/components/Login/LoginForm.jsx:50-83 | a `PasswordProblem` sets its message and sends nothing; otherwise the new password is PUT with the kept token, success alerts and returns to step one with all four inputs cleared, failure shows the backend error or "Fehler beim Ändern des Passworts." |
| `EventRegistrationsScreen.HeaderRow` | src/components/Events/EventRegistrations.jsx:75 | the head is "#", then the field names in order, then "Anmeldedatum" |
| `EventRegistrationsScreen.PdfCell` | src/components/Events/EventRegistrations.jsx:78 | the PDF shows any value that is defined (so also "", 0, false and null) and "-" only for a missing one |
| `EventRegistrationsScreen.HtmlCell` | src/components/Events/EventRegistrations.jsx:173 | the HTML table shows a value only when it is truthy, and "-" for a missing or falsy one |
| `EventRegistrationsScreen.DateCell` | src/components/Events/EventRegistrations.jsx:79 | the registration date is shown when `created_at` is truthy, and "-" otherwise |
| `EventRegistrationsScreen.PdfRow` | src/components/Events/EventRegistrations.jsx:76-80 | a PDF row is the running number from 1, one `PdfCell` per field in order, then the date |
| `EventRegistrationsScreen.HtmlRow` | src/components/Events/EventRegistrations.jsx:170-175 | an HTML row is the running number from 1, one `HtmlCell` per field in order, then the date |
| `EventRegistrationsScreen.PdfRows` | src/components/Events/EventRegistrations.jsx:76-80 | one PDF row per registration, in order |
| `EventRegistrationsScreen.HtmlRows` | src/components/Events/EventRegistrations.jsx:170-176 | one HTML row per registration, in order |
| `EventRegistrationsScreen.PdfTableShape` | src/components/Events/EventRegistrations.jsx:75-84 | every PDF row has exactly one cell per header column and the rows are numbered 1, 2, ... |
| `EventRegistrationsScreen.CellsAgreeUnlessFalsy` | src/components/Events/EventRegistrations.jsx:173 | the two tables show the same cell exactly when the value is missing or truthy (both directions); a present falsy value is printed in the PDF and replaced by "-" on screen |
| `EventRegistrationsScreen.RowsAgreeUnlessFalsy` | src/components/Events/EventRegistrations.jsx:76-80 | the HTML and the PDF row of a registration have the same length, number and date, and agree in a value column exactly when that value is missing or truthy |
| `EventRegistrationsScreen.EventTitle` | src/components/Events/EventRegistrations.jsx:47-56 | the title is never empty: the event's title when the request succeeds with a non-empty one, "Event" otherwise |
| `EventRegistrationsScreen.ReplaceSpaceRuns` | src/components/Events/EventRegistrations.jsx:119 | `replace(/\s+/g, "_")` leaves no white space in the file name and never lengthens it |
| `EventRegistrationsScreen.NoSpacesUnchanged` | src/components/Events/EventRegistrations.jsx:119 | a title without white space goes into the file name unchanged |
| `EventRegistrationsScreen.ReplaceSpaceRunsIdempotent` | src/components/Events/EventRegistrations.jsx:119 | sanitising a sanitised name changes nothing |
| `EventRegistrationsScreen.RunCollapses` | src/components/Events/EventRegistrations.jsx:119 | a white-space run of any length anywhere in the title (after a non-space character or at the start, before a non-space character or at the end) becomes exactly one "_", and the parts on either side are sanitised on their own |
| `EventRegistrationsScreen.ReplaceAppend` | src/components/Events/EventRegistrations.jsx:119 | a piece of the title that does not end in white space is sanitised independently of what follows it |
| `EventRegistrationsScreen.EventRegistrations.constructor` | src/components/Events/EventRegistrations.jsx:9-20 | no registrations or fields, loading, no error, the popup closed with no data, not saving |
| `EventRegistrationsScreen.EventRegistrations.FetchRegistrations` | src/components/Events/EventRegistrations.jsx:23-37 | success stores the fields and registrations, a missing list as []; failure sets the backend error or "Fehler beim Laden der Anmeldungen."; loading ends false |
| `EventRegistrationsScreen.EventRegistrations.ExportPdf` | src/components/Events/EventRegistrations.jsx:44-120 | the document's heading names `EventTitle`, its subheading the event id, its head is `HeaderRow`, its body `PdfRows` of the current registrations, and its file name is built from the sanitised title |
| `EventRegistrationsScreen.EventRegistrations.OpenPopup` | src/components/Events/EventRegistrations.jsx:153 | "Manuelle Anmeldung" opens the popup |
| `EventRegistrationsScreen.EventRegistrations.ClosePopup` | src/components/Events/EventRegistrations.jsx:214 | "Abbrechen" closes the popup and keeps the entered data |
| `EventRegistrationsScreen.EventRegistrations.SetManualField` | src/components/Events/EventRegistrations.jsx:194-206 | `{...manualData, [f.feldname]: value}`: only that field changes |
| `EventRegistrationsScreen.EventRegistrations.HandleManualSubmit` | src/components/Events/EventRegistrations.jsx:122-142 | the entered data is posted for the event; success closes the popup, clears the data and reloads; failure sets the backend error or "Fehler beim Speichern der Anmeldung." and keeps both; saving ends false |
| `ImpressumCreateScreen.AlertOf` | src/components/Impressum/ImpressumCreate.jsx:49 | the alert shows the backend's message when it sent one, and "undefined" when it sent none |
| `ImpressumCreateScreen.SetLinkField` | src/components/Impressum/ImpressumCreate.jsx:36-38 | `{ ...newLink, [name]: value }` sets that field and leaves the other two |
| `ImpressumCreateScreen.FindIcon` | src/components/Impressum/ImpressumCreate.jsx:149 | `iconOptions.find` for the icon the link list renders: none exactly when no option has the name, otherwise the first option with that name |
| `ImpressumCreateScreen.AnchorOf` | src/components/Impressum/ImpressumCreate.jsx:150-152 | an e-mail link becomes `mailto:` in the same tab with no `rel`; every other link opens a new tab with `noopener noreferrer` |
| `ImpressumCreateScreen.AnchorIsolation` | src/components/Impressum/ImpressumCreate.jsx:150-152 | a new tab always comes with `noopener noreferrer` and only e-mail links stay in the tab (both directions), and every anchor ends with the link's url |
| `ImpressumCreateScreen.ImpressumCreate.constructor` | src/components/Impressum/ImpressumCreate.jsx:22-30 | three empty imprint fields, no links, a fresh link on the first icon, not loading |
| `ImpressumCreateScreen.ImpressumCreate.HandleImpressumChange` | src/components/Impressum/ImpressumCreate.jsx:32-34 | only the input's own imprint field changes |
| `ImpressumCreateScreen.ImpressumCreate.HandleNewLinkChange` | src/components/Impressum/ImpressumCreate.jsx:36-38 | only the input's own field of the new link changes |
| `ImpressumCreateScreen.ImpressumCreate.AddLink` | src/components/Impressum/ImpressumCreate.jsx:40-56 | an incomplete link alerts "Alle Felder sind Pflicht!" and sends nothing; otherwise it is posted, success alerts the message, appends the link and resets the input, failure alerts the backend error or "Fehler beim Erstellen des Links." and keeps both |
| `ImpressumCreateScreen.ImpressumCreate.HandleSubmit` | src/components/Impressum/ImpressumCreate.jsx:58-77 | the imprint is posted; success alerts the message and empties the three fields and the link list, failure alerts the backend error or "Fehler beim Erstellen des Impressums."; loading ends false |
| `ImpressumCreateScreen.ImpressumCreate.Anchors` | src/components/Impressum/ImpressumCreate.jsx:147-160 | one anchor per listed link, in order, each `AnchorOf` its link |
| `FooterScreen.SetField` | src/components/Impressum/Footer.jsx:31-33 | `{ ...form, [name]: value }` sets that field and leaves the other two |
| `FooterScreen.GetIcon` | src/components/Impressum/Footer.jsx:67-71 | the icon `Fa<name>` when the name is non-empty and the library has it, the link icon otherwise; either way an icon that exists |
| `FooterScreen.GetIconInjective` | src/components/Impressum/Footer.jsx:69 | two different icon names never show the same named icon |
| `FooterScreen.Footer.constructor` | src/components/Impressum/Footer.jsx:7-11 | no imprint, loading, no error, an empty form and status |
| `FooterScreen.Footer.FetchImpressum` | src/components/Impressum/Footer.jsx:14-29 | success stores the imprint, failure sets "Fehler beim Laden des Impressums."; loading ends false |
| `FooterScreen.Footer.HandleChange` | src/components/Impressum/Footer.jsx:31-33 | only the input's own field changes |
| `FooterScreen.Footer.HandleSubmit` | src/components/Impressum/Footer.jsx:35-65 | an incomplete form sets "Bitte füllen Sie alle Pflichtfelder aus." and sends nothing; otherwise it is posted, and only status 201 thanks the visitor and empties the form, while any other status or a failure keeps it and shows the failure text |
| `FunktionenVerwaltungScreen.SaveRequest` | src/components/Funktion/FunktionenVerwaltung.jsx:30-51 | nothing is sent exactly when `name.trim()` is "" (both directions); otherwise the name is PUT to the edited function when an id is being edited, and POSTed when not |
| `FunktionenVerwaltungScreen.SaveRequestBlank` | src/components/Funktion/FunktionenVerwaltung.jsx:32 | nothing is sent exactly when the name is nothing but white space (both directions) |
| `FunktionenVerwaltungScreen.FunktionenVerwaltung.constructor` | src/components/Funktion/FunktionenVerwaltung.jsx:6-11 | no functions, an empty name, nothing being edited, not loading, no error |
| `FunktionenVerwaltungScreen.FunktionenVerwaltung.FetchFunktionen` | src/components/Funktion/FunktionenVerwaltung.jsx:13-24 | success replaces the list, failure keeps it and sets "Funktionen konnten nicht geladen werden."; loading ends false |
| `FunktionenVerwaltungScreen.FunktionenVerwaltung.SetName` | src/components/Funktion/FunktionenVerwaltung.jsx:77 | typing stores the name |
| `FunktionenVerwaltungScreen.FunktionenVerwaltung.HandleSubmit` | src/components/Funktion/FunktionenVerwaltung.jsx:30-51 | the request is `SaveRequest`; a blank name sets "Funktionsname ist erforderlich."; success empties the name, clears the error, ends an edit and reloads; failure sets the backend error or "Fehler beim Speichern der Funktion." and keeps the form |
| `FunktionenVerwaltungScreen.FunktionenVerwaltung.HandleEdit` | src/components/Funktion/FunktionenVerwaltung.jsx:53-56 | the function's id and name go into the form |
| `FunktionenVerwaltungScreen.FunktionenVerwaltung.HandleDelete` | src/components/Funktion/FunktionenVerwaltung.jsx:58-67 | a DELETE is sent exactly when confirmed; success reloads, failure sets the backend error or "Fehler beim Löschen der Funktion." |
| `MeinProfilScreen.LoadedTexts` | src/components/Vorstand/MeinProfil.jsx:43-52 | the form gets exactly the nine text fields, each the loaded value or "" when it is missing |
| `MeinProfilScreen.PreviewOf` | src/components/Vorstand/MeinProfil.jsx:54-56 | a non-empty stored photo is previewed as its PNG data URL, a missing or empty one gives no preview |
| `MeinProfilScreen.LoadError` | src/components/Vorstand/MeinProfil.jsx:60-66 | 404 gives "Profil nicht gefunden.", 403 "Zugriff verweigert.", anything else (no response included) "Profil konnte nicht geladen werden." |
| `MeinProfilScreen.Entries` | src/components/Vorstand/MeinProfil.jsx:97-111 | the nine text fields in their fixed order with the form's values, then the photo file exactly when one was chosen |
| `MeinProfilScreen.IndexOf` | src/components/Vorstand/MeinProfil.jsx:130 | the first position of the character, or none when it does not occur |
| `MeinProfilScreen.SecondPiece` | src/components/Vorstand/MeinProfil.jsx:130 | `split(",")[1]` is undefined exactly when there is no comma, and never holds a comma |
| `MeinProfilScreen.MergedFoto` | src/components/Vorstand/MeinProfil.jsx:126-132 | without a new file the profile keeps its previous photo |
| `MeinProfilScreen.MergedFotoAsWritten` | src/components/Vorstand/MeinProfil.jsx:129-131 | as written: without a new file the previous photo stays; with one, a photo is left only when the preview holds a comma |
| `MeinProfilScreen.BlobPreviewLosesFoto` | src/components/Vorstand/MeinProfil.jsx:80-89 | as written, a new file's comma-free object URL preview leaves the updated profile with no photo at all |
| `MeinProfilScreen.BlobPreviewExample` | src/components/Vorstand/MeinProfil.jsx:80-89 | a concrete profile whose photo disappears after choosing a new PNG |
| `MeinProfilScreen.PrefixComma` | src/components/Vorstand/MeinProfil.jsx:55 | the only comma of the PNG data URL prefix is its last character, so what follows it is the base64 text |
| `MeinProfilScreen.MergedFotoShowsNewPhoto` | src/components/Vorstand/MeinProfil.jsx:126-132 | taking the base64 part of the new file's data URL, the card shows exactly the photo just chosen |
| `MeinProfilScreen.Merge` | src/components/Vorstand/MeinProfil.jsx:126-132 | the form's fields overwrite the old ones, every other old field stays, the photo is the merged one and the board flag is kept — corrected: the photo follows `MergedFoto`, not the as-written `MergedFotoAsWritten` of the findings |
| `MeinProfilScreen.MeinProfil.constructor` | src/components/Vorstand/MeinProfil.jsx:6-22 | no profile, loading, no error, not editing, empty texts and no photo |
| `MeinProfilScreen.MeinProfil.FetchProfil` | src/components/Vorstand/MeinProfil.jsx:24-73 | without a token nothing is requested and "Kein Token gefunden, bitte einloggen." is shown; success stores the profile, fills the form and the preview; failure sets the status-dependent message; loading ends false |
| `MeinProfilScreen.MeinProfil.StartEdit` | src/components/Vorstand/MeinProfil.jsx:187 | "Profil bearbeiten" enters edit mode |
| `MeinProfilScreen.MeinProfil.CancelEdit` | src/components/Vorstand/MeinProfil.jsx:288 | "Abbrechen" leaves edit mode and keeps the form |
| `MeinProfilScreen.MeinProfil.HandleInputChange` | src/components/Vorstand/MeinProfil.jsx:75-78 | only the named field takes the typed value |
| `MeinProfilScreen.MeinProfil.HandleFileChange` | src/components/Vorstand/MeinProfil.jsx:80-89 | a chosen file becomes the photo to send with its object URL as preview; no file changes nothing |
| `MeinProfilScreen.MeinProfil.BuildFormData` | src/components/Vorstand/MeinProfil.jsx:97-111 | the multipart body is `Entries` of the form |
| `MeinProfilScreen.MeinProfil.HandleSubmit` | src/components/Vorstand/MeinProfil.jsx:91-137 | sends `Entries`; success leaves edit mode and shows `Merge` of the old profile and the form; failure alerts "Fehler beim Aktualisieren des Profils." and changes nothing — corrected: the shown photo follows `MergedFoto` of the findings, not the code as written |

## Left out

- Requests run to completion before the handler goes on: the `loading` flag's value while a request is in flight, a component unmounting mid-request and two handlers interleaving are not modelled; contracts state the flag's final value.
- `FileReader` is taken to succeed at once with the file's data URL, and `URL.createObjectURL` is a parameter; the later asynchronous callback of a reader is not modelled.
- Lower-casing covers ASCII and the Latin-1 capitals only; other Unicode case mappings, normalisation and locale-dependent comparison are not modelled.
- URLs, headers, `console.error` logging and styling are left out; a failure that is only logged leaves the state as the model says.
- JSON serialisation is not modelled: `localStorage` holds the token as text and the user as a value, not its JSON text.
- The jsPDF page layout, fonts and page breaks are left out; the PDF is modelled as its head row, body rows and file name, and `toLocaleString` of a date is an opaque cell.
- Rendering is left out except where a handler's input comes from it (which rows, sections or buttons exist); the browser's `required` attributes, which only block a submit in the page, are not modelled.
- The gallery's banner state is left out: `loadBanner`/`setBanner` are not declared by the component, which is the Galerie row of the findings.
- Handlers that mutate a row object in place before copying the array (the import rows, the newsletter sections, the price options of a new event) are modelled as value updates; the aliasing with the previous state object is not captured.
- `Array.isArray` on the export's input and other checks of a response body's type are not modelled: bodies arrive with the type the screen expects.
- `SubscribersListScreen.SortByTimeDesc`: sorted descending and a permutation of its input; the stability of `Array.prototype.sort` for equal timestamps is not stated.
- `EventRegistrationsScreen.PdfFilename`: the file name is a plain expression without a contract of its own; the export method's contract states that the document carries it.
- `ContactScreen.Contact.HandleDragEnd`: requires both drag ids to be among the listed items, since the drag library only reports ids of rendered entries.
- `ImportSubscribersScreen.ImportSubscribersTable.HandleChange`: requires the index of a rendered row, since only rendered rows have inputs and buttons.
- `NewsletterCreateScreen.NewsletterForm.HandleSectionChange`: requires the index of a rendered section, since only rendered sections have inputs and buttons.
- `NewsletterCreateScreen.NewsletterForm.RemoveSection`: requires the index of a rendered section, since only rendered sections have inputs and buttons.
- `MeinProfilScreen.Merge` and `MeinProfilScreen.MeinProfil.HandleSubmit`: the photo of the shown profile follows the corrected `MergedFoto` of the findings; with a newly chosen file the code as written leaves it undefined (`MergedFotoAsWritten`, `BlobPreviewLosesFoto`).
- Reloads after a successful save: the upload handlers of the gallery and the create, update and delete handlers of the contacts, team and link screens do not return the reload the component starts after success; it is the screen's separate load method (`LoadGalerie`, `LoadLogo`, `LoadEmergency`, `LoadMitarbeiter`, `FetchSections`), and the contracts do not say that it follows. Only `GalerieScreen.Galerie.HandleDeleteBild`, the function screen and the registration screen return a reload flag.
- `MeinProfilScreen.MeinProfil.HandleSubmit`: the spread of `formData` also copies `fotoFile` and `fotoPreview` into the shown profile; only its text fields and photo are modelled.

## Findings

| source | as written | input that shows it | evidently intended | confidence | as-written member | corrected member |
|---|---|---|---|---|---|---|
| src/components/Galerie/Galerie.jsx:128-139 | after a successful banner upload the handler calls `setBanner`, which the component never declares; the resulting ReferenceError is caught and the screen shows "Banner-Upload fehlgeschlagen" | any banner upload the server accepts | a successful upload leaves the error text as it was | not executed | `GalerieScreen.BannerSuccessReportsFailure` | `GalerieScreen.BannerUploadError` |
| src/components/Vorstand/MeinProfil.jsx:80-89 | after saving a new photo the shown profile takes `fotoPreview.split(",")[1]`, but the preview is an object URL without a comma, so the profile loses its photo | a profile with a photo, a new PNG chosen, preview `blob:http://localhost:3000/1f0e` | the shown photo is the base64 part of the new file's data URL | not executed | `MeinProfilScreen.BlobPreviewLosesFoto` | `MeinProfilScreen.MergedFotoShowsNewPhoto` |
