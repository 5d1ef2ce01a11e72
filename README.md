# CND Monitoramento: client list screen and client form

This project models the two interactive parts of the CND (Certidão Negativa
de Débitos) monitoring console:

- **The main screen** (`CNDMonitoramento.tsx`). It loads the client records from the back end, filters them by company name and CNPJ, and keeps a set of selected ids. It also opens the create/edit form and the delete dialog. After a successful save it reloads the list, closes the form and forgets the record being edited; the selection and the searches stay. After a successful delete it reloads the list, clears the selection and closes the dialog. After a failure either handler leaves its part of the screen as it was.
- **The client form** (`ClienteFormModal.tsx`). It holds a draft record and an error map keyed by field path. It includes the CNPJ input mask `formatCNPJ` and the validator `validateForm`, with its seven rules in source order.

Module by module:

- `JsStrings` covers the JavaScript string operations the code relies on: digit extraction, `slice`, `includes`, `toLowerCase` and `trim`.
- `ClienteTypes` covers the record types.
- `ClienteApi` covers the service calls. The HTTP result of each call is a parameter: `accepted` for a save, and the set of rejected paths for a delete. `CreateCliente`, `UpdateCliente` and `DeleteCliente` are plain definitions of these calls with no contract of their own; what they mean for the screen is stated by the handlers and lemmas that use them. The same holds for `JsStrings.ToLower` and `Monitoramento.Loaded`.
- `CnpjMask` covers the mask and the anchored CNPJ pattern.
- `ClienteForm` covers the validator and the form component, as a class whose methods update `formData` and `errors`.
- `Monitoramento` covers the screen, as a class whose handler methods update its state. Its module-level methods chain the form or dialog handler with the screen handler it calls, and then with the `onClose` that follows.

The screen's save handler calls `updateCliente(editingCliente.id, formData)`, but `updateCliente` declares a single parameter, so it receives the record id and ignores `formData`. It reads `empresa.idEmpresa` from that id, and a number has no `empresa`. So every edit fails before any request is sent. The model states this as written (`ClienteApi.UpdateWithNumberFails`, `Monitoramento.Screen.HandleFormSubmit`).

A failed save still closes the form: the screen's handler catches every error, so the form's `handleSubmit` always goes on to `onClose`. The form therefore closes after any save that passed validation (`Monitoramento.SubmitForm`). The delete dialog closes after any confirmed attempt in the same way (`Monitoramento.ConfirmDelete`).

## Model

| member | source | states |
|---|---|---|
| JsStrings.DigitsOf | src/components/cnd/ClienteFormModal.tsx:67 | `value.replace(/\D/g, '')` keeps only decimal digits and never lengthens the text |
| JsStrings.DigitsOfAppend | src/components/cnd/ClienteFormModal.tsx:67 | stripping non-digits distributes over concatenation |
| JsStrings.DigitsOfDigits | src/components/cnd/ClienteFormModal.tsx:67 | a text made only of digits is left unchanged |
| JsStrings.DigitsOfNoDigits | src/components/cnd/ClienteFormModal.tsx:67 | a text with no digit becomes empty |
| JsStrings.Slice | src/components/cnd/ClienteFormModal.tsx:69-73 | `slice(start, end)` clamps both bounds to the length and copies the characters in between |
| JsStrings.SliceFrom | src/components/cnd/ClienteFormModal.tsx:69-72 | `slice(start)` copies the suffix from `start`, or nothing past the end |
| JsStrings.ToLowerFolds | src/components/cnd/CNDMonitoramento.tsx:68 | after `toLowerCase` no upper-case letter is left, every other character is kept, and lower-casing again changes nothing |
| JsStrings.ToLowerIgnoresCase | src/components/cnd/CNDMonitoramento.tsx:68 | two texts that differ only in the case of ASCII letters lower-case to the same text, so the name search ignores case |
| JsStrings.Includes | src/components/cnd/CNDMonitoramento.tsx:68-69 | `includes` as a scan from the left; its meaning is stated by `IncludesIff` |
| JsStrings.IncludesIff | src/components/cnd/CNDMonitoramento.tsx:68-69 | `includes` holds exactly when the needle occurs at some index |
| JsStrings.IncludesEmpty | src/components/cnd/CNDMonitoramento.tsx:68 | every text includes the empty text, so an empty name search hides nothing |
| JsStrings.TrimStart | src/components/cnd/ClienteFormModal.tsx:80 | dropping leading white space never lengthens the text |
| JsStrings.TrimEnd | src/components/cnd/ClienteFormModal.tsx:80 | dropping trailing white space never lengthens the text |
| JsStrings.TrimStartEmptyIff | src/components/cnd/ClienteFormModal.tsx:80 | the left trim is empty exactly when the text is all white space |
| JsStrings.TrimEndEmptyIff | src/components/cnd/ClienteFormModal.tsx:80 | the right trim is empty exactly when the text is all white space |
| JsStrings.TrimEmptyIff | src/components/cnd/ClienteFormModal.tsx:80 | `!s.trim()` holds exactly when `s` is all white space |
| JsStrings.TrimStartKeepsFirst | src/components/cnd/ClienteFormModal.tsx:80 | a non-empty left trim starts with a non-space character |
| JsStrings.Trim | src/components/cnd/ClienteFormModal.tsx:80 | `trim` drops white space at both ends; `TrimEmptyIff` states when it leaves nothing |
| JsStrings.Utf16Length | src/components/cnd/ClienteFormModal.tsx:89 | `.length` counts UTF-16 code units: at least one and at most two per character, and exactly one per character when none lies above U+FFFF |
| JsStrings.Utf16LengthOfEmoji | src/components/cnd/ClienteFormModal.tsx:89 | four emoji are four characters but have `.length` 8 |
| ClienteTypes.DraftOf | src/components/cnd/ClienteFormModal.tsx:45-58 | the draft copied from a record gives back that record when its id is restored |
| ClienteTypes.DraftOfWithId | src/components/cnd/ClienteFormModal.tsx:45-58 | copying the draft out of a record built from a draft gives back that draft |
| ClienteApi.UpdateWithNumberFails | src/services/clienteService.ts:51-54 | passing a bare number always fails with the missing-idEmpresa error |
| ClienteApi.DeleteMultipleClientes | src/services/clienteService.ts:69-73 | `Promise.all` of single deletes succeeds exactly when every one of them succeeds |
| CnpjMask.MatchesCnpjRegex | src/components/cnd/ClienteFormModal.tsx:78 | `cnpjRegex.test`: exactly 18 characters, `.` at 2 and 6, `/` at 10, `-` at 15 and ASCII digits elsewhere |
| CnpjMask.FormatCnpj | src/components/cnd/ClienteFormModal.tsx:66-74 | `formatCNPJ` step by step as written; its meaning is stated by the lemmas below |
| CnpjMask.KeptDigits | src/components/cnd/ClienteFormModal.tsx:67-73 | the digits that survive the mask are the first fourteen of the input |
| CnpjMask.InsertIs | src/components/cnd/ClienteFormModal.tsx:69-72 | one mask step is a prefix of the text so far, the separator, then the digits from a position on |
| CnpjMask.StepsAreLayout | src/components/cnd/ClienteFormModal.tsx:68-72 | the four rebuild steps produce the grouped form `XX.XXX.XXX/XXXX-XX…` of the digits |
| CnpjMask.FormatIsLayout | src/components/cnd/ClienteFormModal.tsx:66-74 | `formatCNPJ` is the grouped form of the first fourteen digits |
| CnpjMask.LongLayoutCut | src/components/cnd/ClienteFormModal.tsx:73 | cutting to 18 characters equals grouping only the first fourteen digits |
| CnpjMask.LayoutLength | src/components/cnd/ClienteFormModal.tsx:68-72 | the grouped form has one separator for each of the thresholds 2, 5, 8 and 12 that the digit count exceeds |
| CnpjMask.LayoutShape | src/components/cnd/ClienteFormModal.tsx:68-72 | the grouped form of at most fourteen digits is a prefix of the CNPJ pattern |
| CnpjMask.LayoutSplit | src/components/cnd/ClienteFormModal.tsx:68-72 | the grouped form ends with its last group's separator and that group |
| CnpjMask.DigitsOfAroundSeparator | src/components/cnd/ClienteFormModal.tsx:67 | a separator contributes no digits |
| CnpjMask.LayoutDigits | src/components/cnd/ClienteFormModal.tsx:67-72 | stripping the separators from the grouped form gives back the digits |
| CnpjMask.FormatCnpjLength | src/components/cnd/ClienteFormModal.tsx:73 | the masked text is at most 18 characters |
| CnpjMask.FormatCnpjContents | src/components/cnd/ClienteFormModal.tsx:66-74 | the masked text holds exactly the kept digits, every other character is `.`, `/` or `-`, and each character sits where the pattern expects it |
| CnpjMask.FormatCnpjShortInput | src/components/cnd/ClienteFormModal.tsx:68 | with at most two digits, no separator is inserted |
| CnpjMask.FormatCnpjMatchesIff | src/components/cnd/ClienteFormModal.tsx:66-78 | the masked text passes `cnpjRegex` exactly when the input had at least fourteen digits |
| CnpjMask.FormatCnpjIdempotent | src/components/cnd/ClienteFormModal.tsx:66-74 | masking a masked text changes nothing, so re-typing over the field is stable |
| CnpjMask.MaskedDigits | src/components/cnd/ClienteFormModal.tsx:78 | a text that passes `cnpjRegex` has fourteen digits |
| CnpjMask.MaskedIsLayout | src/components/cnd/ClienteFormModal.tsx:78 | a text that passes `cnpjRegex` is the grouped form of its own digits |
| CnpjMask.MatchesIffFixedPoint | src/components/cnd/ClienteFormModal.tsx:66-78 | a text passes `cnpjRegex` exactly when it is 18 characters long and the mask leaves it unchanged |
| CnpjMask.FormatCnpjExample | src/components/cnd/ClienteFormModal.tsx:66-74 | the fourteen digits `11222333000181` are masked as `11.222.333/0001-81` |
| CnpjMask.ExampleKeepsAllDigits | src/components/cnd/ClienteFormModal.tsx:67 | a fourteen-digit input keeps all its digits |
| CnpjMask.ExampleLayout | src/components/cnd/ClienteFormModal.tsx:69-72 | the grouped form of `11222333000181` |
| CnpjMask.FormatCnpjSingleDigit | src/components/cnd/ClienteFormModal.tsx:68 | one typed digit is shown as is |
| ClienteForm.MessageText | src/components/cnd/ClienteFormModal.tsx:80-100 | every validation message is non-empty, so `errors[field]` is truthy when set |
| ClienteForm.PathShape | src/components/cnd/ClienteFormModal.tsx:119-121 | a field path holds a dot exactly for the three `empresa.*` fields, and distinct fields have distinct paths |
| ClienteForm.Get | src/components/cnd/ClienteFormModal.tsx:119 | each field holds a value of its own type |
| ClienteForm.SetField | src/components/cnd/ClienteFormModal.tsx:119-131 | the input handler sets the named field, nested or top level, and leaves every other field as it was |
| ClienteForm.RuleMessage | src/components/cnd/ClienteFormModal.tsx:80-100 | the message each rule leaves under its key, with "too long" winning over "required" for idEmpresa |
| ClienteForm.ExpectedErrors | src/components/cnd/ClienteFormModal.tsx:76-101 | the error map `validateForm` builds, rule by rule in source order from an empty map |
| ClienteForm.ErrorsAfterMeaning | src/components/cnd/ClienteFormModal.tsx:76-101 | after the first n rules, a field has an error exactly when one of those rules covers it and fails, with that rule's message |
| ClienteForm.ExpectedErrorsMeaning | src/components/cnd/ClienteFormModal.tsx:76-101 | `validateForm` reports a field exactly when its rule fails, with the message of the last failing rule for it |
| ClienteForm.ExpectedErrorsWellFormed | src/components/cnd/ClienteFormModal.tsx:76-101 | errors are only ever keyed by the six checked fields |
| ClienteForm.CnpjStep | src/components/cnd/ClienteFormModal.tsx:80-82 | the client-CNPJ rule adds its message exactly when the text is blank or fails `cnpjRegex` |
| ClienteForm.EmpresaCnpjStep | src/components/cnd/ClienteFormModal.tsx:83-85 | the company-CNPJ rule adds its message exactly when the text is blank or fails `cnpjRegex` |
| ClienteForm.IdEmpresaStep | src/components/cnd/ClienteFormModal.tsx:86-91 | the two idEmpresa rules run in order, so "too long" overwrites "required" |
| ClienteForm.NomeEmpresaStep | src/components/cnd/ClienteFormModal.tsx:92-94 | a blank company name adds its message |
| ClienteForm.PeriodicidadeStep | src/components/cnd/ClienteFormModal.tsx:95-97 | a periodicity that is zero or negative adds its message |
| ClienteForm.StatusClienteStep | src/components/cnd/ClienteFormModal.tsx:98-100 | a blank status adds its message |
| ClienteForm.MaskedNotBlank | src/components/cnd/ClienteFormModal.tsx:78-80 | a text that passes `cnpjRegex` is neither blank nor rejected by the CNPJ rule |
| ClienteForm.Acceptable | src/components/cnd/ClienteFormModal.tsx:80-100 | the field-by-field conditions a draft must meet; `ValidIff` ties them to the error map |
| ClienteForm.ValidIff | src/components/cnd/ClienteFormModal.tsx:76-103 | the error map is empty exactly when both CNPJs match the pattern, idEmpresa is non-blank and at most 6 UTF-16 code units long (JavaScript `.length`), the name and status are non-blank, and the periodicity is positive |
| ClienteForm.ValidationOutcome | src/components/cnd/ClienteFormModal.tsx:102-103 | `Object.keys(newErrors).length === 0` is the acceptance condition, and the keys are the six checked fields |
| ClienteForm.IdEmpresaTooLongReported | src/components/cnd/ClienteFormModal.tsx:89-91 | an idEmpresa longer than 6 UTF-16 code units (JavaScript `.length`) is always reported with the "too long" message, and the draft is refused |
| ClienteForm.EmojiIdEmpresaRefused | src/components/cnd/ClienteFormModal.tsx:89-91 | an idEmpresa of four emoji is refused as too long, although it has only four characters |
| ClienteForm.FlagsNotChecked | src/components/cnd/ClienteFormModal.tsx:76-104 | the three jurisdiction flags never affect validation |
| ClienteForm.NoJurisdictionCanValidate | src/components/cnd/ClienteFormModal.tsx:76-104 | a draft with no jurisdiction selected is still accepted if the rest is valid |
| ClienteForm.InitialFormDataErrors | src/components/cnd/ClienteFormModal.tsx:19-31 | submitting the blank create form reports exactly the two CNPJs, idEmpresa and the company name |
| ClienteForm.TypedCnpjValidIff | src/components/cnd/ClienteFormModal.tsx:155 | a CNPJ typed through the mask passes the CNPJ rule exactly when at least fourteen digits were typed |
| ClienteForm.AcceptableDraftHasUpdateKey | src/services/clienteService.ts:52-54 | a draft the form accepts carries the `empresa.idEmpresa` that `updateCliente` needs |
| ClienteForm.AcceptedDraftUpdateReachesServer | src/services/clienteService.ts:51-58 | `updateCliente` given an accepted draft passes its local check and settles exactly as the server answers |
| ClienteForm.FormModal.constructor | src/components/cnd/ClienteFormModal.tsx:40-41 | the form starts with the initial draft and no errors |
| ClienteForm.FormModal.OpenEffect | src/components/cnd/ClienteFormModal.tsx:43-64 | opening with a record loads its draft, opening without one loads the initial draft, both clear the errors, and while closed nothing changes |
| ClienteForm.FormModal.ValidateForm | src/components/cnd/ClienteFormModal.tsx:76-104 | the error map becomes the validator's map for the current draft, and the result is true exactly when the draft is acceptable |
| ClienteForm.FormModal.BeginSubmit | src/components/cnd/ClienteFormModal.tsx:106-112 | submission validates first and hands over the current draft only when it is acceptable |
| ClienteForm.FormModal.HandleInputChange | src/components/cnd/ClienteFormModal.tsx:119-140 | the edited field takes the new value, and its error, if any, is removed while every other error stays; since only validated fields ever carry an error, toggling a jurisdiction flag leaves the error map unchanged |
| Monitoramento.FilterClientes | src/components/cnd/CNDMonitoramento.tsx:66-72 | the filtered view is a sub-list of the records, each matching both searches |
| Monitoramento.FilterMembership | src/components/cnd/CNDMonitoramento.tsx:67-71 | a record is shown exactly when it is loaded and its lower-cased company name includes the lower-cased name search and, if the CNPJ search is non-empty, its CNPJ includes it |
| Monitoramento.FilterAppend | src/components/cnd/CNDMonitoramento.tsx:67 | filtering keeps the list order: filtering a concatenation concatenates the filtered parts |
| Monitoramento.FilterAround | src/components/cnd/CNDMonitoramento.tsx:67 | a record is shown between the matches before it and after it, when it matches |
| Monitoramento.FilterNoSearch | src/components/cnd/CNDMonitoramento.tsx:30-31 | with both search boxes empty, every record is shown in order |
| Monitoramento.IdsOfCons | src/components/cnd/CNDMonitoramento.tsx:153 | the id set of a list is its first id plus the id set of the rest |
| Monitoramento.IdsOfDistinct | src/components/cnd/CNDMonitoramento.tsx:153 | with distinct ids, the id set has as many elements as the list |
| Monitoramento.HeaderChecked | src/components/cnd/CNDMonitoramento.tsx:283 | the header checkbox: some row is shown and the selection has as many ids as rows are shown |
| Monitoramento.SelectAllChecksHeader | src/components/cnd/CNDMonitoramento.tsx:283 | after select-all over a non-empty view with distinct ids, the header checkbox is checked |
| Monitoramento.HeaderCheckedWithHiddenSelection | src/components/cnd/CNDMonitoramento.tsx:283 | the header compares sizes only, so it shows checked when a hidden id is selected and the shown row is not |
| Monitoramento.SelectAllWithDuplicateIds | src/components/cnd/CNDMonitoramento.tsx:153 | when two shown rows share an id, select-all leaves the header unchecked |
| Monitoramento.Label | src/components/cnd/CNDMonitoramento.tsx:171 | the dialog label `nome (cnpj)` of a record |
| Monitoramento.SelectedNames | src/components/cnd/CNDMonitoramento.tsx:168-172 | the dialog lists at most one name per shown row |
| Monitoramento.SelectedNamesAppend | src/components/cnd/CNDMonitoramento.tsx:168-172 | the names follow the view's order: a view in two parts lists the first part's selected labels, then the second's, once per selected row |
| Monitoramento.SelectedNamesMembership | src/components/cnd/CNDMonitoramento.tsx:168-172 | a label `nome (cnpj)` is listed exactly when a shown row with that label has a selected id |
| Monitoramento.SelectedNamesCount | src/components/cnd/CNDMonitoramento.tsx:168-172 | with distinct ids, the dialog lists as many names as there are selected ids that are shown |
| Monitoramento.NamesAgainstDeletedIds | src/components/cnd/CNDMonitoramento.tsx:113 | with distinct shown ids, the dialog never lists more names than ids are deleted, and lists fewer when a selected id is hidden by the filter |
| Monitoramento.IsMultiple | src/components/cnd/CNDMonitoramento.tsx:350 | the dialog speaks of several records exactly when more than one id is selected |
| Monitoramento.Dispatch | src/components/cnd/CNDMonitoramento.tsx:115-129 | a bulk delete succeeds exactly when no id is rejected, and a single delete exactly when its path is not rejected |
| Monitoramento.SingletonOf | src/components/cnd/CNDMonitoramento.tsx:113-124 | `idsToDelete[0]` of a one-element selection is its element |
| Monitoramento.Screen.Filtered | src/components/cnd/CNDMonitoramento.tsx:66-72 | `filteredClientes` recomputed from the current list and searches |
| Monitoramento.Screen.Mount | src/components/cnd/CNDMonitoramento.tsx:28-46 | on mount: the list is loaded, the searches and selection are empty, both dialogs are closed, nothing is being edited, and every record is shown |
| Monitoramento.Screen.LoadClientes | src/components/cnd/CNDMonitoramento.tsx:48-63 | the list becomes the fetched list, or empty on error |
| Monitoramento.Screen.HandleFormSubmit | src/components/cnd/CNDMonitoramento.tsx:75-107 | editing always fails with the missing-idEmpresa error; creating settles like the POST; success reloads, closes the form and clears the edited record; failure changes nothing |
| Monitoramento.Screen.HandleDeleteConfirm | src/components/cnd/CNDMonitoramento.tsx:110-143 | more than one selected id goes to the bulk delete with exactly those ids; one id goes to a single delete of that id; none sends `undefined`; success reloads, clears the selection and closes the dialog; failure changes nothing |
| Monitoramento.Screen.HandleClienteSelect | src/components/cnd/CNDMonitoramento.tsx:145-150 | the row's id is selected exactly when its box is checked, and no other id changes |
| Monitoramento.Screen.HandleSelectAll | src/components/cnd/CNDMonitoramento.tsx:152-154 | checking selects exactly the ids of the shown rows; unchecking clears the selection |
| Monitoramento.Screen.HandleEdit | src/components/cnd/CNDMonitoramento.tsx:156-159 | the record becomes the one being edited and the form opens |
| Monitoramento.Screen.OpenCreate | src/components/cnd/CNDMonitoramento.tsx:214 | the create button clears the edited record and opens the form |
| Monitoramento.Screen.HandleDeleteClick | src/components/cnd/CNDMonitoramento.tsx:161-166 | a truthy id replaces the selection with that id alone; a missing or zero id keeps the selection; the dialog opens in both cases |
| Monitoramento.Screen.CloseForm | src/components/cnd/CNDMonitoramento.tsx:338 | closing the form also clears the edited record |
| Monitoramento.Screen.CloseDeleteModal | src/components/cnd/CNDMonitoramento.tsx:346 | closing the dialog only closes it |
| Monitoramento.Screen.SetSearchEmpresa | src/components/cnd/CNDMonitoramento.tsx:207 | the name search box holds the typed text |
| Monitoramento.Screen.SetSearchCnpj | src/components/cnd/CNDMonitoramento.tsx:211 | the CNPJ search box holds the typed text |
| Monitoramento.SubmitForm | src/components/cnd/ClienteFormModal.tsx:106-117 | an invalid draft sends nothing and leaves the screen as it was; a valid one is saved and the form closes whatever the outcome; an edit always fails and keeps the list; a create settles like the POST and, on success, reloads; a failed save keeps the list; the selection, the searches and the delete dialog never change |
| Monitoramento.ConfirmDelete | src/components/cnd/DeleteConfirmModal.tsx:24-31 | after a confirmed delete the dialog is closed whatever the outcome; several ids go to the bulk delete, one id to a single delete of it, none to a delete of `undefined`; success reloads and clears the selection, failure keeps both; the form and the edited record never change |
| Monitoramento.OpenEditForm | src/components/cnd/CNDMonitoramento.tsx:156-159 | the edit button opens the form on the record's draft with no errors; the list and the selection stay |
| Monitoramento.OpenCreateForm | src/components/cnd/CNDMonitoramento.tsx:214 | the create button opens the form on the initial draft with no errors; the list and the selection stay |

## Left out

- Toasts, `console.error` and the rendered markup are not modelled; they do not change the state the handlers keep.
- The `loading`, `formLoading` and `deleteLoading` spinner flags are left out. They only disable inputs while a call is pending.
- Asynchrony is left out. Each handler runs to completion before the next event, and React's batching and interleaving of awaits are not modelled.
- `fetch`, `BASE_URL`, JSON encoding and the HTTP status handling of `fetchWithError` are reduced to a success/failure parameter per call. `getClienteById` is never called by the screen and is not modelled.
- Monitoramento.Dispatch: a failed bulk delete leaves the list as it was. The model does not capture that `Promise.all` may already have deleted some records on the server before one request failed; the next reload would show that.
- JsStrings.ToLower: lower-cases ASCII letters only. Full Unicode case mapping is not modelled.
- The regular expressions `/\D/g` and the anchored `cnpjRegex` are stated as explicit per-character predicates, not run through a regular-expression engine. `\d` is taken as the ASCII digits, as in JavaScript.
- The periodicity input's `parseInt(...) || 0` conversion is not modelled; `periodicidade` is an integer in the draft.
- The selection is a mathematical set. The insertion order of the JavaScript `Set` is not kept, so `Array.from(selected)[0]` for a one-element selection is that element.
- ClienteForm.FormModal.HandleInputChange: the error map is keyed by a `Field` enumeration rather than by the path string; `ClienteForm.PathShape` shows the paths are distinct, so nothing is lost. Messages are an enumeration whose exact texts `ClienteForm.MessageText` gives.
- The rendering of `DeleteConfirmModal` (its title and list) and the `NotFound` page are not modelled.
- The `maxLength={6}` attribute of the idEmpresa input is not modelled: `HandleInputChange` accepts any text, so the validator's length rule is what the model relies on.
- Text is a sequence of Unicode code points, not of UTF-16 code units. The one `.length` the validator compares (idEmpresa) is counted in code units by `JsStrings.Utf16Length`; the mask's `slice` positions only fall on its ASCII digit string and separators, where both counts agree.
