# openEQUELLA settings screens and Hibernate column helpers, modelled in Dafny

This project models the small layer of stateable logic inside openEQUELLA's
administrative front end and two of its server-side Hibernate helpers:

- **Theme editor** (`ThemePage`): the nine-colour palette, its crossed-name
  mappings to and from the server's theme settings record (font size 14 by
  default), per-field colour changes, "Reset to default", "Undo", the staged
  logo upload, saving (logo first, then theme) and resetting the logo, the
  unsaved / success flags, and the HTTP-status-to-error table.
- **MIME type filter dialog** (`MimeTypeFilterDialog`): the initial name and
  selection, the check-box selection update (append if absent, remove the
  first occurrence if present), the save-disabled and name-error predicates,
  and the filter emitted on add/update.
- **Cloud provider dialog** (`CloudProviderDialog`): the URL scheme validator
  (`^[Hh][Tt][Tt][Pp]([Ss]?)://`, empty allowed), the register and error
  predicates, and the URL / disclaimer state.
- **UI setting editor** (`UISettings`): the new-UI / new-search flags, which
  change only after the server accepts a save, and the controls that depend
  on new UI.
- **Schema creation filters** (`CreationFilters`): the tables-only filter
  and the all-data filter.
- **Immutable XStream column type** (`XStreamColumnType`): the dialect's
  column type code, the chunked read loop, the blank-means-null rule, the
  null-aware write, and the identity copy / assemble / replace contract.

React components with state are classes whose methods change their fields;
network calls, the file reader and browser navigation are outcome parameters
of those methods, and what a method does outside its state is returned as a
sequence of effects in order. The MIME name validator is an injected
`string -> bool`; the XML serialiser and deserialiser are function
parameters; the JDBC reader is the sequence of answers to its `read` calls
and the prepared statement call is a returned record.

The model follows the code in three places where a reader might expect
otherwise: the MIME selection is an ordered array that may hold duplicates,
not a set; a failed save leaves the unsaved flag as it was rather than
forcing it to true; and the editor has no explicit "saving" state.

## Model

| member | source | states |
|---|---|---|
| ThemePage.ColorsExtensionality | react-front-end/tsrc/theme/ThemePage.tsx:75-85 | two palettes with the same colour under each of the nine keys are equal |
| ThemePage.SettingsToColors | react-front-end/tsrc/theme/ThemePage.tsx:101-111 | no setting but the font size is lost: the colours written back with the record's own font size give the record again |
| ThemePage.ColorsToSettings | react-front-end/tsrc/theme/ThemePage.tsx:113-127 | the record carries the given font size (14 by default), and the two crossed names go menuText to menuItemTextColor and secondaryText to menuTextColor |
| ThemePage.ColorsRoundTrip | react-front-end/tsrc/theme/ThemePage.tsx:101-127 | writing a palette as a settings record and reading it back gives the same nine colours |
| ThemePage.SaveResetsFontSize | react-front-end/tsrc/theme/ThemePage.tsx:113-127 | a record loaded with a font size other than 14 is written back with 14, so it is not written back unchanged |
| ThemePage.WithColor | react-front-end/tsrc/theme/ThemePage.tsx:169-175 | after changing field k to v, field k is v and the other eight fields are unchanged |
| ThemePage.WithSameColorIsIdentity | react-front-end/tsrc/theme/ThemePage.tsx:169-175 | setting a field to the colour it already has leaves the palette unchanged |
| ThemePage.HandleError | react-front-end/tsrc/theme/ThemePage.tsx:229-255 | 500 gives the invalid-image error, 403 the permission error, any other status the generic error for that status, no response gives nothing |
| ThemePage.ErrorEffects | react-front-end/tsrc/theme/ThemePage.tsx:229-255 | at most one error is shown, and one exactly when the failed request has a response |
| ThemePage.SaveFailureEffects | react-front-end/tsrc/theme/ThemePage.tsx:207-213 | a failed save yields at most one effect, never a request or reload; an axios error has exactly the effects of `handleError`, so with a response it shows the error `HandleError` picks and without one shows nothing; a non-HTTP error is logged |
| ThemePage.SaveSucceeds | react-front-end/tsrc/theme/ThemePage.tsx:201-206 | a save succeeds only when the theme write succeeds, and also needs the logo upload to succeed exactly when a logo is staged |
| ThemePage.SaveRequests | react-front-end/tsrc/theme/ThemePage.tsx:193-203 | a save sends the logo only when one is staged and always first, and ends with the theme settings at font size 14 |
| ThemePage.ThemeEditor.constructor | react-front-end/tsrc/theme/ThemePage.tsx:129-138 | the editor starts with the server's colours, no staged logo, and both flags false |
| ThemePage.ThemeEditor.SaveButtonDisabled | react-front-end/tsrc/theme/ThemePage.tsx:379-384 | the save button is disabled exactly when navigation is not blocked, that is when nothing is unsaved |
| ThemePage.ThemeEditor.PreventNavigation | react-front-end/tsrc/theme/ThemePage.tsx:384 | leaving the page is blocked exactly while changes are unsaved |
| ThemePage.ThemeEditor.HandleDefaultButton | react-front-end/tsrc/theme/ThemePage.tsx:147-161 | the palette becomes the fixed default palette and changes are marked unsaved; logo and success flag unchanged |
| ThemePage.ThemeEditor.SetColorPickerDefaults | react-front-end/tsrc/theme/ThemePage.tsx:163-165 | undo restores the colours mapped from the initial server settings and changes nothing else, the unsaved flag included |
| ThemePage.ThemeEditor.HandleColorChange | react-front-end/tsrc/theme/ThemePage.tsx:169-175 | the palette becomes the old palette with field k set to v, and changes are marked unsaved |
| ThemePage.ThemeEditor.HandleImageChange | react-front-end/tsrc/theme/ThemePage.tsx:177-191 | with a picked file, it is staged with its name, the original logo URL is kept, and changes are marked unsaved; without one nothing changes |
| ThemePage.ThemeEditor.SaveChanges | react-front-end/tsrc/theme/ThemePage.tsx:196-214 | the logo upload (if staged) precedes the theme write and a failure stops the chain and is reported; only on success does the page become clean, show success and reload |
| ThemePage.ThemeEditor.ResetLogo | react-front-end/tsrc/theme/ThemePage.tsx:216-227 | the logo is deleted; on success the page becomes clean, shows success and reloads, on failure the flags are unchanged and the error is reported |
| ThemePage.ThemeEditor.CloseSnackbar | react-front-end/tsrc/theme/ThemePage.tsx:381-383 | closing the success message clears the success flag and nothing else |
| ThemePage.CleanDirtyCycle | react-front-end/tsrc/theme/ThemePage.tsx:200-214 | on a fresh editor after one colour edit, a failed theme write reports its error and leaves save enabled and no success shown; a successful save writes the edited palette, reloads, disables save and shows success |
| MimeTypeFilterDialog.IndexOf | react-front-end/tsrc/settings/Search/searchfilter/MimeTypeFilterEditingDialog.tsx:103-105 | the result is -1 exactly when the type is absent, otherwise the position of its first occurrence |
| MimeTypeFilterDialog.DeleteFirst | react-front-end/tsrc/settings/Search/searchfilter/MimeTypeFilterEditingDialog.tsx:106-112 | deleting removes the first occurrence and keeps the order of the rest; an absent type leaves the selection unchanged |
| MimeTypeFilterDialog.DeleteFirstRemovesOne | react-front-end/tsrc/settings/Search/searchfilter/MimeTypeFilterEditingDialog.tsx:105-113 | unchecking removes exactly one copy of the type, when there is one |
| MimeTypeFilterDialog.UpdatedSelection | react-front-end/tsrc/settings/Search/searchfilter/MimeTypeFilterEditingDialog.tsx:95-116 | checking an unselected type appends it, checking a selected one changes nothing, unchecking a selected one removes its first occurrence keeping the order of the rest (exactly one copy fewer), unchecking an unselected one changes nothing |
| MimeTypeFilterDialog.SelectionStaysDuplicateFree | react-front-end/tsrc/settings/Search/searchfilter/MimeTypeFilterEditingDialog.tsx:101-116 | a duplicate-free selection stays duplicate-free after any update |
| MimeTypeFilterDialog.CheckThenUncheckRestores | react-front-end/tsrc/settings/Search/searchfilter/MimeTypeFilterEditingDialog.tsx:101-116 | checking and then unchecking an unselected type gives back exactly the original selection |
| MimeTypeFilterDialog.UpdatedMembership | react-front-end/tsrc/settings/Search/searchfilter/MimeTypeFilterEditingDialog.tsx:101-116 | on a duplicate-free selection, the type is selected after the update exactly when it was checked |
| MimeTypeFilterDialog.MimeTypeFilterEditingDialog.constructor | react-front-end/tsrc/settings/Search/searchfilter/MimeTypeFilterEditingDialog.tsx:77-84 | the name and selection start from the edited filter, otherwise empty |
| MimeTypeFilterDialog.MimeTypeFilterEditingDialog.SetFilterName | react-front-end/tsrc/settings/Search/searchfilter/MimeTypeFilterEditingDialog.tsx:139 | the name field's change replaces the name |
| MimeTypeFilterDialog.MimeTypeFilterEditingDialog.UpdateMimeTypeSelections | react-front-end/tsrc/settings/Search/searchfilter/MimeTypeFilterEditingDialog.tsx:101-116 | the selection becomes the updated selection and stays duplicate-free |
| MimeTypeFilterDialog.MimeTypeFilterEditingDialog.IsNameValid | react-front-end/tsrc/settings/Search/searchfilter/MimeTypeFilterEditingDialog.tsx:87 | the name is valid exactly when the injected validator accepts it |
| MimeTypeFilterDialog.MimeTypeFilterEditingDialog.SaveDisabled | react-front-end/tsrc/settings/Search/searchfilter/MimeTypeFilterEditingDialog.tsx:162-164 | save is disabled exactly when the name is empty, the validator refuses it, or no type is selected |
| MimeTypeFilterDialog.MimeTypeFilterEditingDialog.NameError | react-front-end/tsrc/settings/Search/searchfilter/MimeTypeFilterEditingDialog.tsx:140 | the name is flagged exactly when it is non-empty and the validator refuses it, and a flagged name always disables save |
| MimeTypeFilterDialog.MimeTypeFilterEditingDialog.OnAddOrUpdate | react-front-end/tsrc/settings/Search/searchfilter/MimeTypeFilterEditingDialog.tsx:118-125 | emits a filter with the original id (absent when adding), the current name and selection, then closes; when save is enabled that filter has a valid name and a type |
| CloudProviderDialog.HasHttpScheme | react-front-end/tsrc/cloudprovider/CloudProviderAddDialog.tsx:76 | a URL with an HTTP scheme starts with the letters h, t, t, p in either case, followed by :// directly or after an s |
| CloudProviderDialog.MatchesSchemePattern | react-front-end/tsrc/cloudprovider/CloudProviderAddDialog.tsx:76 | a URL the scheme pattern matches has at least seven characters and :// at position 4 or 5 |
| CloudProviderDialog.ValidateUrl | react-front-end/tsrc/cloudprovider/CloudProviderAddDialog.tsx:71-78 | the empty URL is valid; a non-empty URL is valid exactly when it starts with http:// or https:// in any letter case |
| CloudProviderDialog.PatternIsHttpScheme | react-front-end/tsrc/cloudprovider/CloudProviderAddDialog.tsx:76 | the scheme pattern matches exactly the case-insensitive http:// and https:// prefixes |
| CloudProviderDialog.AcceptedUrlExamples | react-front-end/tsrc/cloudprovider/CloudProviderAddDialog.tsx:71-78 | http://x, HTTPS://x and hTtP:// are valid |
| CloudProviderDialog.RefusedUrlExamples | react-front-end/tsrc/cloudprovider/CloudProviderAddDialog.tsx:71-78 | ftp://x, http:/x and httpss://x are invalid |
| CloudProviderDialog.CloudProviderAddDialog.constructor | react-front-end/tsrc/cloudprovider/CloudProviderAddDialog.tsx:57-63 | the dialog starts with an empty URL and the disclaimer closed |
| CloudProviderDialog.CloudProviderAddDialog.HandleTextChange | react-front-end/tsrc/cloudprovider/CloudProviderAddDialog.tsx:65-69 | a text change replaces the URL and leaves the disclaimer flag unchanged |
| CloudProviderDialog.CloudProviderAddDialog.OpenDisclaimerDialog | react-front-end/tsrc/cloudprovider/CloudProviderAddDialog.tsx:80-84 | opening sets the disclaimer flag and leaves the URL unchanged |
| CloudProviderDialog.CloudProviderAddDialog.CloseDisclaimerDialog | react-front-end/tsrc/cloudprovider/CloudProviderAddDialog.tsx:86-90 | closing clears the disclaimer flag and leaves the URL unchanged |
| CloudProviderDialog.CloudProviderAddDialog.UrlFieldError | react-front-end/tsrc/cloudprovider/CloudProviderAddDialog.tsx:121 | the field is flagged exactly when the URL is non-empty without an HTTP scheme, so an empty field is never flagged |
| CloudProviderDialog.CloudProviderAddDialog.RegisterDisabled | react-front-end/tsrc/cloudprovider/CloudProviderAddDialog.tsx:147 | register is enabled exactly when the URL starts with an HTTP scheme, so never for the empty URL |
| CloudProviderDialog.CloudProviderAddDialog.Register | react-front-end/tsrc/cloudprovider/CloudProviderAddDialog.tsx:141-146 | register passes exactly the current URL, which has an HTTP scheme whenever the button is enabled |
| UISettings.UISettingEditor.constructor | react-front-end/tsrc/settings/UISettingEditor.tsx:61-62 | before the fetch completes new UI is on and new search is off |
| UISettings.UISettingEditor.FetchCompleted | react-front-end/tsrc/settings/UISettingEditor.tsx:65-73 | a successful fetch overwrites both flags with the server values; a failed one is reported and changes neither |
| UISettings.UISettingEditor.SetNewUI | react-front-end/tsrc/settings/UISettingEditor.tsx:75-82 | saves the requested new-UI value with the current new-search value; only on success does the new-UI flag change, and then the browser goes to `access/settings.do`; new search is never touched |
| UISettings.UISettingEditor.SetNewSearch | react-front-end/tsrc/settings/UISettingEditor.tsx:84-91 | saves the current new-UI value with the requested new-search value; only on success does the new-search flag change (then refresh); new UI is never touched |
| UISettings.UISettingEditor.DependentControlsDisabled | react-front-end/tsrc/settings/UISettingEditor.tsx:119-131 | the new-search switch and the theme button are disabled exactly when new UI is off |
| UISettings.TurningNewUIOffDisablesNewSearch | react-front-end/tsrc/settings/UISettingEditor.tsx:117-133 | after new UI is successfully turned off, the new-search switch and theme button are disabled and the new-search value is kept |
| CreationFilters.NewTablesOnlyFilter | Source/Plugins/Core/com.equella.serverbase/src/com/tle/core/hibernate/impl/TablesOnlyFilter.java:32-35 | the filter keeps a table name exactly when it is one of the constructor arguments |
| CreationFilters.IncludeTable | Source/Plugins/Core/com.equella.serverbase/src/com/tle/core/hibernate/impl/TablesOnlyFilter.java:53-55 | the all-data filter includes every table; a tables-only filter includes a table exactly when its name is in the filter's set |
| CreationFilters.IncludeForeignKey | Source/Plugins/Core/com.equella.serverbase/src/com/tle/core/hibernate/impl/TablesOnlyFilter.java:38-40 | a foreign key is included exactly when its owning table is, whatever the key |
| CreationFilters.IncludeIndex | Source/Plugins/Core/com.equella.serverbase/src/com/tle/core/hibernate/impl/TablesOnlyFilter.java:43-45 | an index is included exactly when its owning table is, whatever the index |
| CreationFilters.IncludeObject | Source/Plugins/Core/com.equella.serverbase/src/com/tle/core/hibernate/impl/TablesOnlyFilter.java:48-50 | an auxiliary object is included exactly by the all-data filter, never by a tables-only filter |
| CreationFilters.TablesOnlyIncludesNamedTables | Source/Plugins/Core/com.equella.serverbase/src/com/tle/core/hibernate/impl/TablesOnlyFilter.java:53-55 | a table, and its foreign keys and indexes, are included exactly when the table's name was a constructor argument |
| CreationFilters.NameOrderAndDuplicatesIrrelevant | Source/Plugins/Core/com.equella.serverbase/src/com/tle/core/hibernate/impl/TablesOnlyFilter.java:32-35 | constructor arguments with the same names in any order or repetition give the same filter |
| CreationFilters.EmptyTablesOnlyIncludesNothing | Source/Plugins/Core/com.equella.serverbase/src/com/tle/core/hibernate/impl/TablesOnlyFilter.java:53-55 | with no names given nothing is included |
| CreationFilters.AllDataIncludesEverything | Source/Plugins/Core/com.equella.serverbase/src/com/tle/core/hibernate/impl/AllDataHibernateMigrationFilter.java:28-46 | the all-data filter includes every table, foreign key, index and auxiliary object, so whatever any filter includes |
| XStreamColumnType.SqlTypes | Source/Plugins/Core/com.equella.serverbase/src/com/tle/core/hibernate/type/ImmutableHibernateXStreamType.java:47-61 | exactly one type code: LONGVARCHAR for the Postgres dialect, CLOB otherwise |
| XStreamColumnType.Equals | Source/Plugins/Core/com.equella.serverbase/src/com/tle/core/hibernate/type/ImmutableHibernateXStreamType.java:69-73 | null-safe equality: two nulls are equal, null differs from any value, values compare by value |
| XStreamColumnType.StopIndex | Source/Plugins/Core/com.equella.serverbase/src/com/tle/core/hibernate/type/ImmutableHibernateXStreamType.java:93 | the loop runs exactly until the first read that returns at most 0 or throws |
| XStreamColumnType.ConcatFront | Source/Plugins/Core/com.equella.serverbase/src/com/tle/core/hibernate/type/ImmutableHibernateXStreamType.java:90-95 | the appended text equally starts with the first answer's characters followed by those of the rest |
| XStreamColumnType.ReadText | Source/Plugins/Core/com.equella.serverbase/src/com/tle/core/hibernate/type/ImmutableHibernateXStreamType.java:90-98 | reading fails exactly when some read throws after only positive reads, with that exception's message; otherwise the text is the chunks before the first read returning at most 0 |
| XStreamColumnType.ReadAll | Source/Plugins/Core/com.equella.serverbase/src/com/tle/core/hibernate/type/ImmutableHibernateXStreamType.java:90-98 | the accumulated text is the in-order concatenation of the chunks read before the first stopping read; an I/O failure becomes a SQL exception with its message |
| XStreamColumnType.ChunkedTextReadsBack | Source/Plugins/Core/com.equella.serverbase/src/com/tle/core/hibernate/type/ImmutableHibernateXStreamType.java:90-95 | however a text is cut into non-empty chunks, reading them to end of stream gives that text |
| XStreamColumnType.TrimStart | Source/Plugins/Core/com.equella.serverbase/src/com/tle/core/hibernate/type/ImmutableHibernateXStreamType.java:101 | the result is a suffix of the text, everything dropped is at most U+0020, and a non-empty result starts above U+0020 |
| XStreamColumnType.TrimEnd | Source/Plugins/Core/com.equella.serverbase/src/com/tle/core/hibernate/type/ImmutableHibernateXStreamType.java:101 | the result is a prefix of the text, everything dropped is at most U+0020, and a non-empty result ends above U+0020 |
| XStreamColumnType.Trim | Source/Plugins/Core/com.equella.serverbase/src/com/tle/core/hibernate/type/ImmutableHibernateXStreamType.java:101 | the result is empty or starts and ends above U+0020, and a text that already does so is returned unchanged |
| XStreamColumnType.TrimIsInfix | Source/Plugins/Core/com.equella.serverbase/src/com/tle/core/hibernate/type/ImmutableHibernateXStreamType.java:101 | trim returns the piece of the text that starts where the leading blanks end, character for character |
| XStreamColumnType.TrimDropsOnlyBlanks | Source/Plugins/Core/com.equella.serverbase/src/com/tle/core/hibernate/type/ImmutableHibernateXStreamType.java:101 | every character trim drops, before or after the piece it returns, is at most U+0020 |
| XStreamColumnType.TrimEmptyIffBlank | Source/Plugins/Core/com.equella.serverbase/src/com/tle/core/hibernate/type/ImmutableHibernateXStreamType.java:100-101 | Java trim leaves nothing exactly when every character is at most U+0020 |
| XStreamColumnType.NullSafeGet | Source/Plugins/Core/com.equella.serverbase/src/com/tle/core/hibernate/type/ImmutableHibernateXStreamType.java:80-105 | a null reader reads as null, blank text reads as null, other text is whatever the deserialiser gives (null included), an I/O failure is a SQL exception |
| XStreamColumnType.Utf16Length | Source/Plugins/Core/com.equella.serverbase/src/com/tle/core/hibernate/type/ImmutableHibernateXStreamType.java:116 | Java's string length is between the number of characters and twice that, and equals it for text within the Basic Multilingual Plane |
| XStreamColumnType.Utf16LengthOfChar | Source/Plugins/Core/com.equella.serverbase/src/com/tle/core/hibernate/type/ImmutableHibernateXStreamType.java:116 | one character counts one code unit inside the Basic Multilingual Plane and two outside it |
| XStreamColumnType.Utf16LengthAdditive | Source/Plugins/Core/com.equella.serverbase/src/com/tle/core/hibernate/type/ImmutableHibernateXStreamType.java:116 | the code-unit count of a concatenation is the sum of its parts' counts, so with the one-character count it fixes the exact length |
| XStreamColumnType.Utf16LengthCountsSupplementary | Source/Plugins/Core/com.equella.serverbase/src/com/tle/core/hibernate/type/ImmutableHibernateXStreamType.java:116 | one character outside the Basic Multilingual Plane makes Java's length exceed the character count |
| XStreamColumnType.NullSafeSet | Source/Plugins/Core/com.equella.serverbase/src/com/tle/core/hibernate/type/ImmutableHibernateXStreamType.java:107-120 | null is written as SQL NULL with the type code sqlTypes reports; a value as its serialised text with that text's length in UTF-16 code units, at the given index |
| XStreamColumnType.DeepCopy | Source/Plugins/Core/com.equella.serverbase/src/com/tle/core/hibernate/type/ImmutableHibernateXStreamType.java:122-125 | a copy is the value itself |
| XStreamColumnType.IsMutable | Source/Plugins/Core/com.equella.serverbase/src/com/tle/core/hibernate/type/ImmutableHibernateXStreamType.java:127-130 | the type reports itself immutable |
| XStreamColumnType.Disassemble | Source/Plugins/Core/com.equella.serverbase/src/com/tle/core/hibernate/type/ImmutableHibernateXStreamType.java:132-135 | the cached form is the value itself |
| XStreamColumnType.Assemble | Source/Plugins/Core/com.equella.serverbase/src/com/tle/core/hibernate/type/ImmutableHibernateXStreamType.java:137-140 | the value rebuilt from the cache is the cached value |
| XStreamColumnType.Replace | Source/Plugins/Core/com.equella.serverbase/src/com/tle/core/hibernate/type/ImmutableHibernateXStreamType.java:142-145 | merging returns the original, ignoring target and owner |
| XStreamColumnType.CacheRoundTrip | Source/Plugins/Core/com.equella.serverbase/src/com/tle/core/hibernate/type/ImmutableHibernateXStreamType.java:122-140 | assembling the disassembled value gives the value back, and a deep copy equals its original |

## Left out

- Rendering, styling, layout and localised strings of every component: only which control is enabled, flagged or shown is modelled, and only which error kind is chosen, not its text.
- HTTP calls (theme PUT, logo PUT and DELETE), `fetchUISetting` / `saveUISetting`, `updateTemplate`, `appErrorHandler`, `refreshUser` and browser navigation: each becomes an outcome parameter or an entry in a returned effect sequence.
- The page-title update on mount in the theme editor (`templateDefaults`): it only touches the enclosing template.
- The file reader in `handleImageChange`: the asynchronous read is taken as finished; the state update runs on `loadend` whether or not the read succeeded, so read errors are not distinguished. An empty file list makes `readAsDataURL` throw, which the model treats as no change.
- `generateFromError`: not part of this model; the generic error is taken to be always present (the `if (errResponse)` test is taken as true).
- The MIME type list fetched on mount (`getMIMETypesFromServer`) and its display: it does not affect the selection or the emitted filter.
- `validateMimeTypeName`: not part of this model; it is an injected predicate.
- `addElement` / `deleteElement`: not part of this model; they are assumed to append an element and to remove the first matching element (count 1).
- Overlapping saves and a component unmounted while a request is in flight: not guarded in the code and not modelled.
- `TablesOnlyFilter`: the `HashSet` its constructor fills is never changed afterwards, so the filter is a value holding a set rather than an object updated in place; a table whose name is null is not modelled.
- `hashCode`: it throws on null and is not a promised behaviour; `returnedClass` is reflection and not modelled.
- XStream serialisation and deserialisation are function parameters; their own exceptions, and the `Serializable` cast in `disassemble`, are not modelled.
- The JDBC reader: the bound of 4096 characters per `read` is not enforced on the chunks; the column-name lookup is folded into the reader parameter.
- XStreamColumnType.Equals: the values' own `equals` is taken to be value equality.
- Surrogate pairs in the JDBC reader: a read chunk is a string of Unicode scalar values, so a `read` that ends between the two halves of a surrogate pair, and text holding unpaired surrogates, cannot be represented.
