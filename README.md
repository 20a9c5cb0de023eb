# SoundScape Explorer: a verified model of its logic

SoundScape Explorer is a web application for recording sounds on a map. Each sound has a name, an author, a location, emotions and tags. The application has a React front end and a Flask back end. This project models in Dafny the sequential logic under its user interface and its HTTP plumbing:

- **Front-end helpers** (`utils/helpers.js`, module `FrontHelpers`): duration and text formatting, the audio-file check, search filtering, multi-key sorting, grouping, occurrence counting and record sanitising.
- **Back-end helpers** (`utils/helpers.py`, module `BackHelpers`): pagination with its metadata, the coordinate check, query cleaning, the response dictionary, and the unit loop of the file-size formatter.
- **Analytics page** (`Analytics.js`, module `Analytics`): the headline statistics, the emotion and location rankings, the 30-day activity timeline and the insight cards.
- **Application shell** (`App.js`, module `App`): the validity filter of `loadSounds`, the explore-page filters, the home-page sections, the contributor count, the analytics record adapter, and the shell's state.
- **Sound form** (`SoundForm.js`, module `SoundForm`): field edits, multi-select toggling, the file check, the location picker and `validateForm`.
- **Search form** (`SearchForm.js`, module `SearchForm`): the initial parameters, edits, reset, `hasActiveFilters` and the filter chips.
- **Audio uploader** (`AudioUploader.js`, module `AudioUploader`): `validateFile`, the audio information, the drag state, the file handlers and the duration label.
- **Sound routes** (`routes/sounds.py`, module `SoundRoutes`): the extension check, the query `GET /sounds` runs, and the ordered outcomes of creating, updating and tagging a sound.

Shared modules hold the vocabulary:

- `Wrappers`: `Option` and `Result`.
- `Text`: ASCII case folding, trimming, the last-dot extension, and decimal rendering with its parser.
- `Collections`: filtering, and insertion-ordered dictionaries as association lists with `Put`, `Lookup` and `Tally`.
- `Sorting`: the stable insertion sort that stands for `Array.prototype.sort`.
- `JsValues` and `PyValues`: JavaScript and Python values with their truthiness.

The source's stateful components are modelled as classes:

- React `useState` fields become class fields, and each handler is a method with a `modifies` clause.
- Loops that fill a dictionary become methods with loop invariants, proved equal to a specification function.
- What the code gets from outside is a parameter of the model. This covers the HTTP response, the database's answer (including whether it raised), Python's `float` on form text, the current day, `uuid4()`, `secure_filename`, the audio metadata and the accent-stripping normaliser.

## Model

| member | source | states |
|---|---|---|
| FrontHelpers.FormatDuration | frontend-sse/src/utils/helpers.js:8-15 | The label always parses back as minutes and seconds with seconds below 60. With no positive duration it reads 0:00. Otherwise minutes times 60 plus seconds is the floor of the input. |
| FrontHelpers.TruncateText | frontend-sse/src/utils/helpers.js:110-114 | Missing or empty text gives "". Text no longer than the limit comes back unchanged. Longer text gives exactly `trim()` of its first `maxLength` characters (none for a negative limit) followed by "...". That piece is at most `maxLength` long and neither starts nor ends with white space. |
| FrontHelpers.CheckErrors | frontend-sse/src/utils/helpers.js:324-350 | Holds one error per failed check (size, format, MIME type), in the order the checks run, and is empty exactly when no check failed. |
| FrontHelpers.ValidateAudioFile | frontend-sse/src/utils/helpers.js:311-361 | A missing file gives exactly one error. A present file is valid iff its size is within the limit, its lower-cased last-dot extension is allowed and its MIME type matches. Each error appears iff its check failed, in check order. |
| FrontHelpers.DefaultFormatsHaveSubtypes | frontend-sse/src/utils/helpers.js:340-348 | Every default format has an entry in the MIME table, so the type check always applies to an accepted extension. |
| FrontHelpers.FilterBySearch | frontend-sse/src/utils/helpers.js:429-447 | An empty search returns the items unchanged. Otherwise the result is an order-preserving subsequence; every kept item has a truthy field whose normalised text contains the normalised query; and each item is kept as often as it occurs iff it matches. |
| FrontHelpers.CompareValuesConsistent | frontend-sse/src/utils/helpers.js:464-474 | On values of one kind the comparison never throws, is antisymmetric and is transitive. The kinds are: strings, lower-cased; `null`, booleans and numbers, compared as numbers; `undefined`; arrays and objects, compared as their text. |
| FrontHelpers.CompareFieldConsistent | frontend-sse/src/utils/helpers.js:469-474 | One criterion with its direction applied never throws on such values, and stays antisymmetric and transitive. |
| FrontHelpers.CompareByConsistent | frontend-sse/src/utils/helpers.js:457-476 | On items whose criterion fields are uniform in kind, the comparator over the criteria (the first difference decides) never throws, and is antisymmetric and transitive. |
| FrontHelpers.ComparatorConsistent | frontend-sse/src/utils/helpers.js:456-477 | On such items the `multiSort` comparator never throws, and its values form a consistent comparator. |
| FrontHelpers.MultiSortSpec | frontend-sse/src/utils/helpers.js:455-478 | When each criterion field holds one kind of value, `multiSort` throws nothing. It returns a permutation of the input, ordered by the criteria in turn with their directions. Records the criteria cannot tell apart keep their input order. |
| FrontHelpers.NullSortsAsZero | frontend-sse/src/utils/helpers.js:469-474 | `null` compares as 0: sorting `{v: 3}` and `{v: null}` ascending by `v` puts `null` first. |
| FrontHelpers.StringAgainstNullThrows | frontend-sse/src/utils/helpers.js:462-466 | A string field compared with a `null` field throws a `TypeError` (`toLowerCase` of `null`), so `multiSort` throws. |
| FrontHelpers.ArraysCompareAsText | frontend-sse/src/utils/helpers.js:469-474 | Arrays compare as their text. If `[9]` and `[10]` read "9" and "10", ascending order puts `[10]` first. |
| FrontHelpers.PushStep | frontend-sse/src/utils/helpers.js:488-492 | Starting a missing group with `[]` and pushing onto it is adding the item at the end of its group. |
| FrontHelpers.GroupBy | frontend-sse/src/utils/helpers.js:486-495 | The `reduce` loop builds exactly the groups of the specification, one item at a time. |
| FrontHelpers.GroupsContents | frontend-sse/src/utils/helpers.js:486-495 | Each key's group is exactly the items with that key, in their input order, and a key no item has has no group. |
| FrontHelpers.GroupsSizes | frontend-sse/src/utils/helpers.js:486-495 | The group sizes add up to the number of items. |
| FrontHelpers.ItemTokens | frontend-sse/src/utils/helpers.js:505-513 | An array-valued field contributes one key per element; any other value contributes exactly one. |
| FrontHelpers.CountEach | frontend-sse/src/utils/helpers.js:508-510 | The inner `forEach` adds one to the count of each element of the array. |
| FrontHelpers.CountOccurrences | frontend-sse/src/utils/helpers.js:503-516 | The loop leaves the tally of every value counted: array elements one by one, scalars once. |
| FrontHelpers.CountOccurrencesSpec | frontend-sse/src/utils/helpers.js:503-516 | Each key's count is its number of occurrences. The keys are distinct. The counts add up to the number of scalar items plus the lengths of the array values. |
| FrontHelpers.SanitizeData | frontend-sse/src/utils/helpers.js:672-690 | On an object, the result keeps, in order, exactly the entries whose value is neither null nor undefined. Strings are trimmed, arrays lose their null and undefined elements, and other values are kept as they are. |
| Text.Trim | frontend-sse/src/utils/helpers.js:113 | `trim()` gives a contiguous piece of the text that neither starts nor ends with white space, and is empty iff the text is blank. |
| Text.TrimSpec | frontend-sse/src/utils/helpers.js:113 | `trim()` removes exactly a leading and a trailing run of white space. The result sits in the text after a prefix that is all white space, and everything after it is white space. |
| Text.AfterLastDot | frontend-sse/src/utils/helpers.js:332 | `split(".").pop()` is the dot-free tail after the last dot. It is shorter than the name iff the name has a dot. |
| Sorting.SortBySpec | frontend-sse/src/utils/helpers.js:456 | `sort` with a consistent comparator returns a permutation, ordered, in which elements the comparator ties keep their input order. |
| Sorting.SortByOrThrowAgrees | frontend-sse/src/utils/helpers.js:456 | A comparator that throws on no pair of the elements sorts them exactly as the total comparator it agrees with. |
| BackHelpers.FloorDiv | backend-ssE/utils/helpers.py:198 | Python's `//` rounds toward negative infinity, for either sign of the divisor. |
| BackHelpers.PySlice | backend-ssE/utils/helpers.py:190 | A Python slice with non-negative bounds is the clipped slice, no longer than `end - start`. |
| BackHelpers.CeilingDiv | backend-ssE/utils/helpers.py:198 | `(total + size - 1) // size` is the least number of pages of `size` that hold `total` items. |
| BackHelpers.PaginateResults | backend-ssE/utils/helpers.py:186-202 | Pagination fails (Python raises `ZeroDivisionError`) exactly when the page size is zero. |
| BackHelpers.PaginationSpec | backend-ssE/utils/helpers.py:192-201 | The metadata echoes the page, the size and the total. `has_next` holds iff `page * page_size < total`, and `has_previous` iff `page > 1`. For a positive size, the page count is the ceiling of total over size. |
| BackHelpers.PageData | backend-ssE/utils/helpers.py:187-190 | From page 1 on, the data is `results[(page-1)*size : page*size]` clipped to the end, and holds at most a page size. |
| BackHelpers.PagesUpToPrefix | backend-ssE/utils/helpers.py:187-190 | Pages 1 to k, one after the other, are the first `k * size` results. |
| BackHelpers.PagesCoverResults | backend-ssE/utils/helpers.py:186-198 | Pages 1 to `total_pages` together hold every result, in order. |
| BackHelpers.ValidateCoordinates | backend-ssE/utils/helpers.py:112-117 | Given what `float()` makes of each argument, true iff both are finite floats with latitude in [-90, 90] and longitude in [-180, 180]. A conversion that raises `ValueError` or `TypeError` (`None`), NaN or an infinity gives false. |
| BackHelpers.CoordinateChecksAgree | frontend-sse/src/utils/helpers.js:147-156 | The browser's `isValidCoordinates` holds of two numbers iff the server's `validate_coordinates` accepts them as finite floats: latitude in [-90, 90] and longitude in [-180, 180]. |
| BackHelpers.SanitizeMongoQuery | backend-ssE/utils/helpers.py:129-143 | On a dictionary, the result keeps, in order, exactly the entries whose value is not None, not '', and a string, number or list. Strings are stripped, lists lose their None and '' elements, and numbers are kept. |
| BackHelpers.BlankValueStoredEmpty | backend-ssE/utils/helpers.py:132-135 | A blank string passes the emptiness test before stripping and is stored as ''. |
| BackHelpers.StrippedStoresNoEmptyString | backend-ssE/utils/helpers.py:132-135 | The corrected cleaning, which tests strings after stripping, keeps exactly the present, non-blank entries and stores no ''. |
| BackHelpers.CreateResponse | backend-ssE/utils/helpers.py:158-172 | "success" comes first and "timestamp" last. "data" is present iff data is not None; "error" and "message" are present iff truthy. Each carries only the value given for it. |
| BackHelpers.FormatFileSize | backend-ssE/utils/helpers.py:88-99 | Zero gives "0 B". Otherwise the unit index stays within B..GB, the value times 1024 to the unit's power is the size, the value is below 1024 unless the unit is GB, and it is at least 1 unless the unit is B. |
| Analytics.StatsSpec | frontend-sse/src/components/Analytics/Analytics.js:23-27 | `totalSounds` is the number of sounds. There are never more distinct authors than sounds, and none only without sounds. The distinct emotions number as many as the tally's entries and at most as many as the emotions given. |
| Analytics.CountEmotions | frontend-sse/src/components/Analytics/Analytics.js:37-42 | The nested loops build the tally of every emotion of every sound. |
| Analytics.EmotionCountsSpec | frontend-sse/src/components/Analytics/Analytics.js:37-42 | Each emotion's count is its number of occurrences, and the counts add up to the number of emotions given. |
| Analytics.CountLocations | frontend-sse/src/components/Analytics/Analytics.js:52-58 | The loop builds the tally of the truthy locations, skipping sounds without one. |
| Analytics.DayKeys | frontend-sse/src/components/Analytics/Analytics.js:79-105 | One day per sound: `createdAt` when given (today when it does not parse), else `fecha` (today when it does not parse), else today. |
| Analytics.UnparsableCreatedAtIgnoresFecha | frontend-sse/src/components/Analytics/Analytics.js:80-102 | An unparsable `createdAt` sends a sound to today even when its `fecha` is a valid other day. |
| Analytics.CountDays | frontend-sse/src/components/Analytics/Analytics.js:75-128 | The loop builds the tally of the sounds' days. |
| Analytics.DailyCountsSpec | frontend-sse/src/components/Analytics/Analytics.js:75-128 | Each sound adds one to its own day: every day counts the sounds dated on it, and the counts add up to the number of sounds. |
| Analytics.Take | frontend-sse/src/components/Analytics/Analytics.js:47 | `slice(0, n)` is the prefix of length min(n, length). |
| Analytics.ByCountDescConsistent | frontend-sse/src/components/Analytics/Analytics.js:46 | `b.count - a.count` is a consistent comparator. |
| Analytics.SortedByCount | frontend-sse/src/components/Analytics/Analytics.js:44-46 | Sorting by count is a permutation into non-increasing order. |
| Analytics.RankByCountSpec | frontend-sse/src/components/Analytics/Analytics.js:44-47 | The ranking has min(n, entries) entries, in non-increasing order, all taken from the counts; no entry left out has a higher count than one kept. |
| Analytics.TakeOfSorted | frontend-sse/src/components/Analytics/Analytics.js:44-47 | The same, for any non-increasing rearrangement of the counts. |
| Analytics.TallyCountsOccurrences | frontend-sse/src/components/Analytics/Analytics.js:37-42 | A tally has one entry per distinct element, holding its positive number of occurrences. |
| Analytics.RankedCounts | frontend-sse/src/components/Analytics/Analytics.js:44-47 | Ranking such counts gives occurrence counts, non-increasing. An element left out occurs no more often than any ranked one, and the first occurs at least as often as any. |
| Analytics.RankedTally | frontend-sse/src/components/Analytics/Analytics.js:44-63 | The emotion (top 8) and location (top 6) rankings: at most n entries, each an element's occurrence count, non-increasing, with nothing more frequent left out. |
| Analytics.Window | frontend-sse/src/components/Analytics/Analytics.js:135-156 | A window of n days has n entries. |
| Analytics.WindowEntries | frontend-sse/src/components/Analytics/Analytics.js:135-156 | Entry j of the window is day `first + j` with that day's count, or 0. |
| Analytics.BuildTimeline | frontend-sse/src/components/Analytics/Analytics.js:134-156 | The countdown loop builds the 30 consecutive days ending today, oldest first, each with its daily count or 0. |
| Analytics.ActiveDaysBound | frontend-sse/src/components/Analytics/Analytics.js:158-164 | There are at most as many active days as days, and at most as many as counted sounds. There are none exactly when the total is zero. |
| Analytics.WindowTotal | frontend-sse/src/components/Analytics/Analytics.js:158-161 | A window's total is the number of keys that fall within it. |
| Analytics.TimelineTotalOfTally | frontend-sse/src/components/Analytics/Analytics.js:158-161 | The timeline total is the number of days that fall within the last 30. |
| Analytics.AllDayKeysRecent | frontend-sse/src/components/Analytics/Analytics.js:134-156 | All day keys are in the window iff every sound is dated within the last 30 days. |
| Analytics.NoDayKeyRecent | frontend-sse/src/components/Analytics/Analytics.js:134-156 | No day key is in the window iff no sound is dated within the last 30 days. |
| Analytics.TimelineCountsRecentSounds | frontend-sse/src/components/Analytics/Analytics.js:158-176 | The timeline counts exactly the sounds dated within the last 30 days. Its total never exceeds the number of sounds, and equals it iff every sound is in the window, which is when the page logs no discrepancy. |
| Analytics.NoActivityIffNoRecentSound | frontend-sse/src/components/Analytics/Analytics.js:162-164 | `daysWithActivity` is zero iff no sound is dated within the last 30 days. |
| Analytics.GenerateInsightsSpec | frontend-sse/src/components/Analytics/Analytics.js:198-245 | One to four cards. "Emoción Dominante" is first iff there are emotions, and names the first ranked one. Collaboration appears iff authors > 1, diversity iff at least 3 ranked emotions. Exactly one activity card comes last. |
| Analytics.InsightsSpec | frontend-sse/src/components/Analytics/Analytics.js:190-245 | The dominant card appears iff some sound has an emotion, and its emotion occurs at least as often as any other. The last card reports no recent activity iff no sound is dated within the last 30 days. |
| Analytics.Analyze | frontend-sse/src/components/Analytics/Analytics.js:18-196 | `calculateAnalytics` computes the statistics, rankings, timeline and insights of the specification. |
| Analytics.AnalyticsView.constructor | frontend-sse/src/components/Analytics/Analytics.js:10-14 | The page starts with empty statistics and empty lists. |
| Analytics.AnalyticsView.CalculateAnalytics | frontend-sse/src/components/Analytics/Analytics.js:18-196 | Every part of the page's state is replaced by what the sounds give. |
| Analytics.AnalyticsView.OnSoundsChanged | frontend-sse/src/components/Analytics/Analytics.js:250-268 | When the sounds change, a non-empty list replaces every part of the state by what the sounds give. An empty list leaves the previous statistics, rankings, timeline and insights in place. |
| App.IsValidSound | frontend-sse/src/App.js:543-558 | A record passes iff it is an object with a truthy `_id` and `nombre` and a `ubicacion` object whose `coordinates` is an array of two. |
| App.ValidSoundsSpec | frontend-sse/src/App.js:543-558 | The kept records are an order-preserving subsequence. Each is valid, and each valid record is kept as often as it occurs. Nothing is dropped iff every record is valid. |
| App.AfterLoad | frontend-sse/src/App.js:520-589 | A request that threw keeps the sounds and sets the network message. An unsuccessful answer keeps the sounds and sets the load message. A successful answer with an array keeps its valid records and clears the error; without an array it empties the list. |
| App.LoadKeepsOnlyValid | frontend-sse/src/App.js:531-576 | Holding only valid records is preserved by every load. |
| App.FilterOrThrowAgrees | frontend-sse/src/App.js:241-252 | A filter test that never raises filters like the plain filter. |
| App.ExploreFilterSpec | frontend-sse/src/App.js:237-256 | The corrected explore filter shows, in order, exactly the sounds that pass each filter switched on (the term in name, description or author, case-insensitively; the emotion among `emociones`), and every sound when neither is on. |
| App.SearchAgreesOnWellTyped | frontend-sse/src/App.js:241-247 | On records with string fields the written search test does not raise and agrees with the intended one. |
| App.EmotionAgreesOnWellTyped | frontend-sse/src/App.js:249-253 | The same for the emotion test. |
| App.ExploreFilterAgreesOnWellTyped | frontend-sse/src/App.js:237-256 | On such records the written explore filter raises nothing and equals the corrected one. |
| App.NoAuthorNoMatchRaises | frontend-sse/src/App.js:243-245 | A sound whose name misses the term and that has no description and no author makes the written search raise. |
| App.AuthorlessSoundIsValid | frontend-sse/src/App.js:543-551 | A record without `autor` passes the validity filter. |
| App.AuthorlessSoundRaises | frontend-sse/src/App.js:240-247 | Searching "bosque" over that record raises, while the corrected filter shows nothing. |
| App.MissingAuthorBreaksSearch | frontend-sse/src/App.js:240-247 | A loaded record can make the explore search raise a `TypeError`. |
| App.Home | frontend-sse/src/App.js:69-82 | `recent` is the first min(6, n) sounds and `featured` the first min(3, n). `featured` is a prefix of `recent`, and it is empty iff there are no sounds. |
| App.ContributorCount | frontend-sse/src/App.js:214 | There are never more contributors than sounds, and none exactly when there is no sound. |
| App.AdaptSoundSpec | frontend-sse/src/App.js:362-413 | Every adapted record has an author, an emotion list, a location and the same known date as `createdAt` and `fecha`. A falsy author becomes "Autor desconocido" and a falsy duration 30. Non-array emotions become []. String authors and emotions are kept. |
| App.AdaptedDayKey | frontend-sse/src/App.js:364-390 | The analytics page counts an adapted sound on its `fecha`'s day, and on today when there is none or it does not parse. |
| App.UndatedSoundsAllOnTimeline | frontend-sse/src/App.js:364-371 | When no record has a date, the timeline counts every sound. |
| App.WithNewSound | frontend-sse/src/App.js:610 | The new sound is prepended: the length grows by one, the head is the new sound and the tail is the old list. |
| App.CreatedSoundAfterReload | frontend-sse/src/App.js:609-612 | After the reload the new sound stays in front only if the reload did not succeed; a successful reload shows the server's valid records. |
| App.AppState.constructor | frontend-sse/src/App.js:498-502 | The initial state: no sounds, no selection, loading, no error, checking the connection. |
| App.AppState.LoadSounds | frontend-sse/src/App.js:520-589 | `loadSounds` leaves the state `AfterLoad` gives, with loading cleared, and touches nothing else. |
| App.AppState.CheckConnection | frontend-sse/src/App.js:510-518 | A healthy check sets "connected". A failed one sets "disconnected" and the no-server message. |
| App.AppState.HandleSoundCreated | frontend-sse/src/App.js:609-612 | The new sound is put in front, then the list is reloaded. |
| App.AppState.HandleSoundSelect | frontend-sse/src/App.js:614-616 | Selecting a sound sets the selection and nothing else. |
| App.AppState.CloseModal | frontend-sse/src/App.js:618-620 | Closing the modal clears the selection and nothing else. |
| SoundForm.WithInput | frontend-sse/src/components/Forms/SoundForm.js:40-43 | Only the named input field takes the typed text; every other field is unchanged. |
| SoundForm.WithList | frontend-sse/src/components/Forms/SoundForm.js:55-67 | Only the named list changes; every other field is unchanged. |
| SoundForm.ToggleSpec | frontend-sse/src/components/Forms/SoundForm.js:54-69 | Toggling flips membership of the clicked value. An absent value is appended at the end; a present one is removed, leaving a subsequence. Every other value keeps its multiplicity. |
| SoundForm.ToggleTwiceRestoresAbsent | frontend-sse/src/components/Forms/SoundForm.js:54-69 | Toggling an unselected value twice restores the list. |
| SoundForm.ToggleTwiceMovesToEnd | frontend-sse/src/components/Forms/SoundForm.js:54-69 | Toggling a selected value twice moves it to the end, once. |
| SoundForm.ToggleTwiceReorders | frontend-sse/src/components/Forms/SoundForm.js:54-69 | ["a", "b"] toggled twice at "a" is ["b", "a"]. |
| SoundForm.ToggleKeepsDistinct | frontend-sse/src/components/Forms/SoundForm.js:54-69 | A list without repetitions stays without repetitions. |
| SoundForm.BlankIffTrimsToEmpty | frontend-sse/src/components/Forms/SoundForm.js:124-130 | A text is all white space iff `trim()` leaves it empty. |
| SoundForm.FileVerdictSpec | frontend-sse/src/components/Forms/SoundForm.js:75-99 | A file is accepted iff it is within 50MB and its extension is allowed. An oversized file reports the size message whatever its name. The verdict agrees with `validateAudioFile` without its MIME test. |
| SoundForm.ErrorsOverSnoc | frontend-sse/src/components/Forms/SoundForm.js:121-143 | Running one more check adds its message exactly when it fails. |
| SoundForm.ErrorsOverKeys | frontend-sse/src/components/Forms/SoundForm.js:121-143 | Checks run in order record exactly the failing keys, each with its own message. |
| SoundForm.FormErrorsKeys | frontend-sse/src/components/Forms/SoundForm.js:121-143 | `validateForm` records an error under a key iff that check fails, with that check's message, and under no other key. |
| SoundForm.CollectErrors | frontend-sse/src/components/Forms/SoundForm.js:122-143 | The step-by-step building of `newErrors` yields exactly the form's errors. |
| SoundForm.FormErrorsSpec | frontend-sse/src/components/Forms/SoundForm.js:121-146 | There is no error iff name and author are not blank, both coordinates are truthy (zero counts as missing), there is a file or a sound being edited, and an emotion is chosen. |
| SoundForm.NewFormErrors | frontend-sse/src/components/Forms/SoundForm.js:15-26 | An untouched new form reports exactly the name, author, audio and emotion errors; the default location passes. |
| SoundForm.ZeroLatitudeEditedAsDefault | frontend-sse/src/components/Forms/SoundForm.js:19 | A sound stored at latitude zero is edited at the default latitude. |
| SoundForm.EditingNeedsNoFile | frontend-sse/src/components/Forms/SoundForm.js:136-138 | An edited sound with a name, an author and an emotion validates without a new file. |
| SoundForm.EquatorPickFails | frontend-sse/src/components/Forms/SoundForm.js:132-134 | A point picked on the equator fails the location check. |
| SoundForm.SoundFormState.constructor | frontend-sse/src/components/Forms/SoundForm.js:15-34 | Each field is `initialData`'s value or its default; there is no file and no error; the preview is the stored audio URL. |
| SoundForm.SoundFormState.HandleInputChange | frontend-sse/src/components/Forms/SoundForm.js:38-52 | Only the named field changes, and only that field's error is cleared. |
| SoundForm.SoundFormState.HandleMultiSelectChange | frontend-sse/src/components/Forms/SoundForm.js:54-69 | The named list is toggled at the value; nothing else changes. |
| SoundForm.SoundFormState.HandleFileChange | frontend-sse/src/components/Forms/SoundForm.js:71-99 | No file changes nothing. A rejected file records its message under `audio` and is not kept. An accepted file becomes the audio file and the preview, and the `audio` error is cleared. |
| SoundForm.SoundFormState.HandleLoadedMetadata | frontend-sse/src/components/Forms/SoundForm.js:103-108 | The duration becomes the whole seconds of the metadata's duration; nothing else changes. |
| SoundForm.SoundFormState.HandleLocationSelect | frontend-sse/src/components/Forms/SoundForm.js:112-119 | The picked point becomes latitude and longitude and the picker closes. |
| SoundForm.SoundFormState.ToggleLocationSelector | frontend-sse/src/components/Forms/SoundForm.js:335-341 | The map button opens the picker when it is closed and closes it when it is open; the form, its errors and the file stay. |
| SoundForm.SoundFormState.ValidateForm | frontend-sse/src/components/Forms/SoundForm.js:121-146 | The errors are replaced by the form's errors, and the result is true iff there are none. |
| SearchForm.SpreadLookup | frontend-sse/src/components/Forms/SearchForm.js:11-19 | After `{ ...base, ...over }` a key reads as `over` has it, else as `base` has it. |
| SearchForm.SpreadKeepsKeysFirst | frontend-sse/src/components/Forms/SearchForm.js:11-19 | A spread keeps the keys of `base` first, in their order. |
| SearchForm.InitialParamsSpec | frontend-sse/src/components/Forms/SearchForm.js:11-19 | The six names come first, in order. A key given in `initialValues` reads its value, and a name it lacks reads "". |
| SearchForm.EmptyParamsGet | frontend-sse/src/components/Forms/SearchForm.js:39-46 | Each of the six names reads "" in the reset parameters. |
| SearchForm.HasActiveFilters | frontend-sse/src/components/Forms/SearchForm.js:54-56 | True iff some parameter value is not the empty string. |
| SearchForm.ActiveIffChips | frontend-sse/src/components/Forms/SearchForm.js:54-56 | When every value is text, some filter is active iff some chip is shown. |
| SearchForm.NullIsActiveWithoutChip | frontend-sse/src/components/Forms/SearchForm.js:54-56 | A `null` from `initialValues` counts as active but shows no chip. |
| SearchForm.EmptyParamsInactive | frontend-sse/src/components/Forms/SearchForm.js:38-47 | After a reset no filter is active and no chip is shown. |
| SearchForm.ClearRemovesChip | frontend-sse/src/components/Forms/SearchForm.js:181-201 | Clearing a chip's parameter removes that chip and keeps the other chips in order. |
| SearchForm.SearchFormState.constructor | frontend-sse/src/components/Forms/SearchForm.js:11-21 | The parameters start as the six empty ones overridden by `initialValues`; the advanced panel is closed. |
| SearchForm.SearchFormState.HandleInputChange | frontend-sse/src/components/Forms/SearchForm.js:30-36 | The named key takes the value. Every other key reads as before, and an existing key keeps its place. |
| SearchForm.SearchFormState.HandleReset | frontend-sse/src/components/Forms/SearchForm.js:38-52 | The parameters become the six empty ones, so no filter is active; the advanced flag stays. |
| SearchForm.SearchFormState.RemoveFilter | frontend-sse/src/components/Forms/SearchForm.js:199-201 | Only the chip's key becomes ""; every other key reads as before. |
| SearchForm.SearchFormState.ToggleAdvanced | frontend-sse/src/components/Forms/SearchForm.js:21 | The advanced flag flips and the parameters stay. |
| AudioUploader.RoundMegabytes | frontend-sse/src/components/Audio/AudioUploader.js:22-24 | `Math.round(bytes / 2^20)` is the whole number of megabytes nearest the size, halves up. |
| AudioUploader.DefaultLimitIs50 | frontend-sse/src/components/Audio/AudioUploader.js:8-9 | The default limit reads "50MB". |
| AudioUploader.ValidateFileSpec | frontend-sse/src/components/Audio/AudioUploader.js:19-34 | The file is accepted iff it is within the limit and its lower-cased extension is accepted. The size error takes precedence over the format error. |
| AudioUploader.ValidateFileAgrees | frontend-sse/src/components/Audio/AudioUploader.js:19-34 | With the default props, the uploader accepts exactly what the sound form's check accepts, and what `validateAudioFile` accepts apart from its MIME test. |
| AudioUploader.GetAudioInfoSpec | frontend-sse/src/components/Audio/AudioUploader.js:36-64 | The information keeps the size and name, takes the extension as format, and has the floored duration, or 0 when the metadata fails. |
| AudioUploader.JsRemainder | frontend-sse/src/components/Audio/AudioUploader.js:140 | JavaScript's `%` has the dividend's sign and is smaller than the divisor in size. For a non-negative dividend it is the Euclidean remainder. For a negative one it is that remainder minus the divisor, or 0 when the divisor divides the dividend. |
| AudioUploader.JsRemainderSpec | frontend-sse/src/components/Audio/AudioUploader.js:140 | The dividend minus the remainder is a whole multiple of the divisor. |
| AudioUploader.FormatDurationSpec | frontend-sse/src/components/Audio/AudioUploader.js:137-142 | Zero gives "Desconocida". A positive duration parses back as minutes and seconds below 60 that make it up. A negative one gives no clock text. |
| AudioUploader.ZeroLabelsDiffer | frontend-sse/src/components/Audio/AudioUploader.js:138 | For zero the uploader shows "Desconocida" where the shared helper shows "0:00". |
| AudioUploader.UploaderState.constructor | frontend-sse/src/components/Audio/AudioUploader.js:5-15 | No drag, no file, no error and no information; the props are kept. |
| AudioUploader.UploaderState.HandleFile | frontend-sse/src/components/Audio/AudioUploader.js:66-84 | A rejected file sets its message and leaves the file and information unchanged. An accepted file clears the error, is selected and gets its information. |
| AudioUploader.UploaderState.HandleDrag | frontend-sse/src/components/Audio/AudioUploader.js:86-95 | "dragenter" and "dragover" activate, "dragleave" deactivates, and other events leave the flag unchanged. |
| AudioUploader.UploaderState.HandleDrop | frontend-sse/src/components/Audio/AudioUploader.js:97-106 | A drop always deactivates, then handles the first file if there is one. |
| AudioUploader.UploaderState.HandleInputChange | frontend-sse/src/components/Audio/AudioUploader.js:108-113 | The first chosen file, if any, is handled; the drag flag stays. |
| AudioUploader.UploaderState.HandleRemoveFile | frontend-sse/src/components/Audio/AudioUploader.js:115-127 | The file, its information and the error are cleared. |
| SoundRoutes.AllowedFile | backend-ssE/routes/sounds.py:10-13 | True iff the name has a dot and the lower-cased text after its last dot is allowed. |
| SoundRoutes.AllowedFileAgreesWithBrowser | backend-ssE/routes/sounds.py:10-13 | For a name with a dot, the server accepts exactly the extensions the browser's check accepts. |
| SoundRoutes.DotlessNameAcceptedByBrowser | backend-ssE/routes/sounds.py:12 | A file named "mp3" passes the browser's extension check. |
| SoundRoutes.DotlessNameRejectedByServer | backend-ssE/routes/sounds.py:12 | The same file fails `allowed_file`, which demands a dot. |
| SoundRoutes.GetSoundsQuery | backend-ssE/routes/sounds.py:20-34 | The location query runs iff both coordinates are truthy, so zero falls through. Otherwise the emotion query runs iff an emotion is given; otherwise all sounds are listed. Radius defaults to 10 and limit to 100. |
| SoundRoutes.ZeroCoordinateNotLocated | backend-ssE/routes/sounds.py:26 | A point on the equator or the prime meridian is never searched by location. |
| SoundRoutes.CreateSound | backend-ssE/routes/sounds.py:72-147 | The answer is 201, 400 or 500. The 400s come in order: missing part, empty name, then disallowed type. The upload is saved as "uuid_secure-name" only for an allowed file, and the required fields are checked only after that, so a 400 for missing data leaves a file behind. With the fields present, the answer is 201 iff both coordinates convert with `float` and the insert succeeds. Otherwise it is a 500, with the upload still saved. |
| SoundRoutes.AudioUrl | backend-ssE/routes/sounds.py:102 | The URL is "/uploads/" followed by the stored name. |
| SoundRoutes.MissingDataLeavesFile | backend-ssE/routes/sounds.py:95-124 | A valid upload without a name is rejected after the file was written, whatever the database would do. |
| SoundRoutes.NonNumericCoordinateFails | backend-ssE/models/sound_model.py:13-19 | A latitude that `float` refuses passes the route's presence check and fails in the model layer: a 500, with the upload already written. |
| SoundRoutes.UpdateSound | backend-ssE/routes/sounds.py:150-178 | A falsy body is a 400. A truthy body that is not an object is a 500, because the model layer's `pop` raises; so is a database that raises. Otherwise the answer is 200 iff a document was modified, else 404. |
| SoundRoutes.AddTag | backend-ssE/routes/sounds.py:181-210 | A body that is not an object is a 500. A falsy tag is a 400. Otherwise a database that raises gives a 500, and the answer is 200 iff a document was modified, else 404. |
| SoundRoutes.ListBodyIsServerError | backend-ssE/models/sound_model.py:93 | A non-empty list body passes the emptiness check of both routes and is still answered with a 500. |

## Left out

- Rendering, routing, CSS, the debug logging and `window.debugSoundScape`: presentation, not behaviour.
- The HTTP client, the database, `uuid4()`, `secure_filename`, the clock and the audio element's metadata: they are parameters of the operations that use them.
- SoundRoutes.CreateSound: a failure of `os.makedirs` or `file.save` (a 500 before or while the upload is written) is not modelled; the file system is taken to succeed.
- FrontHelpers.MultiSort: the pairs compared follow the model's insertion sort. Which pairs an engine compares is not fixed by the language, so where some pairs throw (a string field against a non-string), an engine may throw on inputs the model sorts, or the other way round. On inputs of uniform kind nothing throws and the result is the one `MultiSortSpec` states.
- FrontHelpers.LooseCompare: the text of an array or object (`toString`) and the reading of a string as a number are the parameters `show` and `toNumber`; NaN is a missing number.
- Asynchrony: awaited results (the load response, the health check, `getAudioInfo`) are parameters, and each handler runs to completion in order. Interleavings of concurrent handlers are not modelled.
- The `onSuccess`, `onCancel`, `onSearch`, `onReset`, `onFileSelect` and `onFileRemove` callbacks, and the sound form's `handleSubmit` and its multipart form: they belong to the parent components or the HTTP client.
- `get_sound` and `delete_sound`: they only forward to the database.
- `request.json` raising on a body that is not JSON (Flask's 415) is not modelled; the body is a parsed value.
- Floating point: numbers are exact reals. NaN and the infinities appear only where a comparison depends on them (`validate_coordinates`). `toFixed`, the insight percentages and the `.1f` rendering of `format_file_size` are not modelled.
- Case folding and trimming are ASCII-only. White space is space, tab, line feed, vertical tab, form feed and carriage return, on both sides. Python's `strip()` also removes `\x1c` to `\x1f` and other Unicode white space, so in BackHelpers.SanitizeMongoQuery and BackHelpers.StrippedStoresNoEmptyString a value such as `"\x1c"`, which Python strips to `''`, stays as it is. `normalizeSearchText`'s accent stripping is the parameter `normalize`, and `toString` is the parameter `show`.
- JavaScript property keys: `toKey` (the conversion of a value to a property key) is a parameter. Objects keep insertion order; the engine's moving of integer-like keys to the front and prototype properties are not modelled.
- Dates: a date is a day number, and `new Date(v)` is a parameter returning the day or nothing. Time zones are not modelled.
- Analytics.StatsSpec: the author and emotion sets compare the adapted strings. A JavaScript `Set` compares objects by identity, and it keeps `5` and `"5"` apart, which App.AdaptSound has already merged into one key (see below).
- App.ContributorCount: the set holds the raw `autor` values and compares them as values, as `Set` does for strings and numbers (so `5` and `"5"` are two contributors). Two distinct author objects with equal contents count once here, where a JavaScript `Set` compares objects by identity and counts them twice.
- The home page's unique-emotions statistic is not modelled; it is the same set size as the analytics page's `uniqueEmotions`, covered by Analytics.StatsSpec.
- `formatFileSize` of the uploader (log and pow on floats) and `formatFileSize`, `formatDate`, `calculateDistance` and the other float and clock helpers of `helpers.js` are not modelled.
- BackHelpers.FormatFileSize: the `.1f` text is not produced; the method returns the scaled value and the unit index.
- SoundForm.SoundFormState.HandleInputChange: inputs are the six typed fields (`InputField`), not arbitrary names. Likewise HandleMultiSelectChange takes the three lists. A key the source sets to `null` in `errors` is modelled as removed, since the form reads only its truthiness.
- FrontHelpers.TruncateText: lengths and cut points count code points (Dafny characters), not UTF-16 code units. The same holds for string order: JsValues.LexCompare, and with it FrontHelpers.MultiSort, compare strings by code point, where JavaScript compares UTF-16 code units. The two orders differ only when a character outside the Basic Multilingual Plane meets one from U+E000 to U+FFFF. For text outside the Basic Multilingual Plane, such as emoji, JavaScript's `length` is larger and `substring` can cut a surrogate pair in half; the model does neither.
- App.AdaptSound: non-string authors and emotion elements are turned into text through `KeyText`, so the number `5` and the string `"5"` become the same author or emotion. The page's own sets and tallies (Analytics.js:24-25) would keep them apart. `showCoordinates` is a total parameter. The `TypeError` that `coordinates[1].toFixed(2)` throws on a coordinate that is not a number is not modelled; such a record can reach the analytics page when a new sound is kept after a failed reload, since that sound is not validated.
- BackHelpers.ValidateCoordinates: an `int` too large for a double makes `float()` raise `OverflowError`. The function does not catch that error (it catches only `ValueError` and `TypeError`), so the call raises instead of returning false. The argument's type has no outcome for it.
- SoundForm.InitialForm takes `initialData` already typed: `ubicacion.coordinates` is an optional sequence of numbers. A record whose `ubicacion` lacks `coordinates` (a `TypeError` in the source) is not represented. `DEFAULT_LAT` and `DEFAULT_LNG` take their values for an unset environment.
- Analytics.Sound takes durations as numbers; a string duration, which `+` would concatenate, is not represented.
- AudioUploader.UploaderState.HandleFile: `getAudioInfo` runs after the file is selected. The moment between the two updates, when the file is selected but its information is not yet stored, is not represented.

## Findings

| source | as written | input that shows it | evidently intended | confidence | as-written member | corrected member |
|---|---|---|---|---|---|---|
| frontend-sse/src/App.js:243-245 | The explore search calls `sound.autor.toLowerCase()` without optional chaining, although `loadSounds` accepts records without `autor` and the back end does not require one | A loaded record `{nombre: "Ola", _id: "1", ubicacion: {coordinates: [0, 0]}}` and the search term "bosque": the filter throws a `TypeError` | `autor?.toLowerCase()`, as for `descripcion`, so that a record without an author simply does not match. The corrected filter also treats as no match a `nombre` that is not a string, a `descripcion` that is neither a string nor missing, and an `emociones` that is neither a string, an array nor missing. In those cases the `autor?.` fix alone would still throw | not executed | App.MissingAuthorBreaksSearch | App.ExploreFilterSpec |
| backend-ssE/utils/helpers.py:132-135 | `sanitize_mongo_query` tests `value != ''` before stripping, so a blank string passes and is stored as `''` | `{"q": "  "}` gives `{"q": ""}` | Strip first and drop values that are empty afterwards | not executed | BackHelpers.BlankValueStoredEmpty | BackHelpers.StrippedStoresNoEmptyString |
