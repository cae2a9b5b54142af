# Modismos: a verified model of the app's logic

This project models, in Dafny, the logic underneath the Android client of the *modismos* system.
The app takes Spanish text or recorded audio full of Colombian idioms. It sends the input to an
analysis service, shows the idioms the service detected, and keeps each user's personal dictionary
of discovered words. The model covers these parts:

- **Analysis screen** (`AnalysisActivity.kt`):
  - parsing the analysis response into a word list and a table of meanings;
  - merging each word with its lexicon record, joined by a completion counter;
  - the user's word history;
  - highlighting the detected idioms in the text. This is an exact, case-insensitive,
    non-overlapping scan, with a fallback to a root-prefix match;
  - `capitalizeFirstLetter` and `formatTime`.
- **Outcome classification** (`AnalysisHandler.kt`): the decision table that routes a parsed
  response to success, no idioms, partial service or error.
- **Personal dictionary** (`DictionaryFragment.kt`):
  - the guards before loading;
  - the counter join over the per-word lookups;
  - the alphabetical sort;
  - the empty state.
- **Home screen** (`HomeFragment.kt`):
  - the text and audio guards;
  - the character counter;
  - the audio duration limit;
  - the `mm:ss` clock;
  - the player card's label and the uploaded file's name;
  - the player and recorded-path state.
- **Theme** (`ThemeHelper.kt`): the stored theme, its name and its night mode.
- **Recorder** (`AudioRecorderActivity.kt`):
  - start, pause, resume and stop bookkeeping;
  - the timer, where paused time does not count;
  - the result returned to the caller.
- **Forms** (`RegisterActivity.kt`, `LoginActivity.kt`, `ProfileFragment.kt`):
  - ordered check chains;
  - mapping FirebaseAuth failures to messages;
  - the terms checkbox;
  - the password-change steps;
  - the password visibility toggle.

Modelling conventions:
- **Screens are classes.** The fields a screen updates in place are class fields. Callbacks are
  methods with `modifies` clauses.
- **Pure rules are functions**, with their properties in `ensures` clauses and lemmas.
- **Firebase, Firestore and media answers are inputs.** The outcome of a query, whether a file was
  copied, and a media duration probe are all passed in. The writes a screen makes are results.
- **Library behaviour the code relies on is a parameter**, and every property holds for any choice
  of it:
  - `Text.CharServices` stands for lowercase, uppercase, `isLetter` and `isWhitespace`;
  - `AuthForms.EmailPattern` stands for the email pattern;
  - a date formatter `int -> string` stands for `SimpleDateFormat`.
- **Lowercasing works per character**, so it keeps the length. The highlighting code mixes indices
  of the lowercased text and of the original text, and relies on this.
- **Kotlin's `/` and `%` truncate toward zero.** They are modelled as `ClockFormat.Quot` and
  `ClockFormat.Rem`.
- **`String.toLong`** is `ClockFormat.ParseLong`, including the 64-bit range check.

Three behaviours of the code that a reader might not expect:

- **Detected words are not de-duplicated.** `parseApiResponse` keeps every non-empty detected
  word. A word detected twice is looked up twice and may be listed twice
  (`AnalysisActivity.Collect`, `AnalysisActivity.CollectWords`).
- **The history merge filters only against the words already stored.** Two spellings of the same
  word in one batch are both added. A user record that does not exist yet is created with every
  word (`AnalysisActivity.SaveDetectedWords`).
- **The neutral sentence is shown as plain text**, with no highlighting of its own.

## Model

| member | source | states |
|---|---|---|
| Text.Lower | app/src/main/java/com/proyecto/modismos/activities/AnalysisActivity.kt:494-495 | lowercasing keeps the length and maps each character independently |
| Text.Trim | app/src/main/java/com/proyecto/modismos/fragments/HomeFragment.kt:278 | the trimmed text is empty exactly when the input is blank, and otherwise starts and ends with a non-space |
| Text.TrimStart | app/src/main/java/com/proyecto/modismos/fragments/HomeFragment.kt:278 | the result is a suffix of the input, empty exactly when the input is blank, starting with a non-space |
| Text.TrimEnd | app/src/main/java/com/proyecto/modismos/fragments/HomeFragment.kt:278 | the result is a prefix of the input ending with a non-space, and non-empty when the input starts with a non-space |
| Text.SearchFrom | app/src/main/java/com/proyecto/modismos/activities/AnalysisActivity.kt:500 | a search from `i` returns -1 or a position at or after `i` where the pattern fits |
| Text.IndexOf | app/src/main/java/com/proyecto/modismos/activities/AnalysisActivity.kt:500 | `indexOf` with any start: -1, or a position where the pattern fits in the text, never before the start for a non-empty pattern |
| Text.IndexOfFirst | app/src/main/java/com/proyecto/modismos/activities/AnalysisActivity.kt:500 | `indexOf` finds the first occurrence at or after the start, and -1 means there is none |
| Text.IndexOfAtMost | app/src/main/java/com/proyecto/modismos/activities/AnalysisActivity.kt:500 | an occurrence at `j` means `indexOf` from any earlier start answers some position up to `j` |
| Text.NextSpace | app/src/main/java/com/proyecto/modismos/activities/AnalysisActivity.kt:532 | the next whitespace position from `i`, with no whitespace before it |
| Text.SpaceRunEnd | app/src/main/java/com/proyecto/modismos/activities/AnalysisActivity.kt:532 | the end of a run of whitespace: past at least one space when one starts at `i`, and not at a space |
| Text.SplitOnSpaces | app/src/main/java/com/proyecto/modismos/activities/AnalysisActivity.kt:532 | `split(Regex("\\s+"))` gives at least one token and no token contains whitespace |
| Text.KeepLetters | app/src/main/java/com/proyecto/modismos/activities/AnalysisActivity.kt:536-537 | only a-z and the accented vowels and ñ are kept, and a text of such letters is unchanged |
| Text.LastIndexOf | app/src/main/java/com/proyecto/modismos/fragments/HomeFragment.kt:497 | the position of the last occurrence of the character, or -1, with no occurrence after it |
| Text.SubstringAfterLast | app/src/main/java/com/proyecto/modismos/fragments/HomeFragment.kt:471 | the text after the last occurrence, which holds no occurrence, or the `missing` value when there is none |
| Text.SubstringBeforeLast | app/src/main/java/com/proyecto/modismos/fragments/HomeFragment.kt:497 | the text before the last occurrence, or the whole text when there is none |
| Text.LastIndexOfSplit | app/src/main/java/com/proyecto/modismos/fragments/HomeFragment.kt:497 | in `p + [c] + q` with no `c` in `q`, the last `c` is at position `|p|` |
| Text.AfterLastSplit | app/src/main/java/com/proyecto/modismos/fragments/HomeFragment.kt:497 | in `p + [c] + q` with no `c` in `q`, the text after the last `c` is `q` |
| Text.BeforeLastSplit | app/src/main/java/com/proyecto/modismos/fragments/HomeFragment.kt:497 | in `p + [c] + q` with no `c` in `q`, the text before the last `c` is `p` |
| ClockFormat.Quot | app/src/main/java/com/proyecto/modismos/fragments/HomeFragment.kt:574-575 | Kotlin's integer division: it truncates toward zero and agrees with Euclidean division for non-negative operands |
| ClockFormat.Rem | app/src/main/java/com/proyecto/modismos/fragments/HomeFragment.kt:576 | Kotlin's remainder: it has the sign of the dividend, satisfies the division identity, and lies below the divisor in magnitude |
| ClockFormat.DigitChar | app/src/main/java/com/proyecto/modismos/fragments/HomeFragment.kt:577 | a digit below ten is the character '0' to '9' for it |
| ClockFormat.Decimal | app/src/main/java/com/proyecto/modismos/fragments/HomeFragment.kt:577 | the decimal numeral of a natural number is a non-empty string of digits |
| ClockFormat.DecimalRoundTrip | app/src/main/java/com/proyecto/modismos/fragments/HomeFragment.kt:577 | a numeral reads back as the number it was made from |
| ClockFormat.NumeralRoundTrip | app/src/main/java/com/proyecto/modismos/fragments/HomeFragment.kt:229 | an integer's `toString()` is digits that read back as the number, with a leading minus sign for a negative one |
| ClockFormat.InLongRange | app/src/main/java/com/proyecto/modismos/fragments/HomeFragment.kt:582 | a value is accepted exactly when it fits in 64 bits |
| ClockFormat.ParseLong | app/src/main/java/com/proyecto/modismos/fragments/HomeFragment.kt:582 | `toLong()` accepts only a run of digits with an optional leading "+" or "-"; such a run gives its signed value when that fits in 64 bits and fails otherwise, and every other string (the empty one included) fails |
| ClockFormat.ParseLongNumeral | app/src/main/java/com/proyecto/modismos/fragments/HomeFragment.kt:582 | every 64-bit value reads back from its own `toString()` |
| ClockFormat.Pad2 | app/src/main/java/com/proyecto/modismos/fragments/HomeFragment.kt:577 | `%02d` has at least two characters, is exactly two digits for 0..99, and starts with '-' for a negative number |
| ClockFormat.Pad2RoundTrip | app/src/main/java/com/proyecto/modismos/fragments/HomeFragment.kt:577 | a zero-padded number reads back as itself |
| ClockFormat.FirstIndex | app/src/main/java/com/proyecto/modismos/fragments/HomeFragment.kt:577 | the first position of a character, or the length, with no occurrence before it |
| ClockFormat.FormatTime | app/src/main/java/com/proyecto/modismos/fragments/HomeFragment.kt:573-578 | the clock of a non-negative duration reads back as `ms/1000/60` minutes and `(ms/1000)%60` seconds, the seconds are below 60, and the two bracket the duration to the second |
| ClockFormat.ClockReadsBack | app/src/main/java/com/proyecto/modismos/fragments/HomeFragment.kt:577 | `%02d:%02d` of two numbers reads back as those two numbers |
| AnalysisActivity.FirstNonObject | app/src/main/java/com/proyecto/modismos/activities/AnalysisActivity.kt:201-202 | the index where `getJSONObject(i)` first throws, with every earlier element an object |
| AnalysisActivity.PairsOf | app/src/main/java/com/proyecto/modismos/activities/AnalysisActivity.kt:203-204 | each element read as its `palabra` and `significado_detectado`, in order |
| AnalysisActivity.ParseDetections | app/src/main/java/com/proyecto/modismos/activities/AnalysisActivity.kt:197-237 | with neither field there is nothing detected and no failure; a malformed field is a failure; a `modismos_detallados` array completes exactly when every element is an object |
| AnalysisActivity.DetailedTakesPriority | app/src/main/java/com/proyecto/modismos/activities/AnalysisActivity.kt:197-217 | when `modismos_detallados` is present, the `modismos_detected` field makes no difference |
| AnalysisActivity.NonEmptyWordsAppend | app/src/main/java/com/proyecto/modismos/activities/AnalysisActivity.kt:206-207 | the reference word list of a longer input extends that of the shorter one |
| AnalysisActivity.CollectWords | app/src/main/java/com/proyecto/modismos/activities/AnalysisActivity.kt:201-232 | the parsing loop lists exactly the non-empty words in order, with no de-duplication, and keys the meanings by the lowercased listed words |
| AnalysisActivity.CollectLastWins | app/src/main/java/com/proyecto/modismos/activities/AnalysisActivity.kt:209 | a word's meaning is the one given with its last spelling, so later entries overwrite earlier ones |
| AnalysisActivity.Capitalize | app/src/main/java/com/proyecto/modismos/activities/AnalysisActivity.kt:596-602 | "" stays "", only the first character is upper-cased, and the rest is unchanged |
| AnalysisActivity.AsList | app/src/main/java/com/proyecto/modismos/activities/AnalysisActivity.kt:307 | an optional entry contributes nothing when absent and exactly itself when present |
| AnalysisActivity.Merge | app/src/main/java/com/proyecto/modismos/activities/AnalysisActivity.kt:286-354 | an entry exists exactly when the document was found or the BETO meaning is non-empty; its definitions are exactly the BETO meaning; its type and synonyms come from the document with the defaults "Modismo" and [] |
| AnalysisActivity.LexiconQueries | app/src/main/java/com/proyecto/modismos/activities/AnalysisActivity.kt:281-283 | one query per word, for the capitalized word |
| AnalysisActivity.ModismoLoad.constructor | app/src/main/java/com/proyecto/modismos/activities/AnalysisActivity.kt:277-279 | the join starts with an empty list and a zero counter, and it is published at once only when there are no words |
| AnalysisActivity.ModismoLoad.Deliver | app/src/main/java/com/proyecto/modismos/activities/AnalysisActivity.kt:286-364 | each callback appends its merged entry if there is one and counts once; the list is published exactly when the count reaches the number of words, and never holds more entries than answers |
| AnalysisActivity.ScanDetailed | app/src/main/java/com/proyecto/modismos/activities/AnalysisActivity.kt:200-211 | the loop over `modismos_detallados` gathers exactly the reference collection of the elements before the first non-object, and completes exactly when there is none |
| AnalysisActivity.ScanDetected | app/src/main/java/com/proyecto/modismos/activities/AnalysisActivity.kt:220-231 | the loop over the keys of `modismos_detected` gathers exactly the reference collection of its pairs |
| AnalysisActivity.AnalysisScreen.constructor | app/src/main/java/com/proyecto/modismos/activities/AnalysisActivity.kt:180-194 | the screen starts with no sentence, no meanings and no idioms |
| AnalysisActivity.AnalysisScreen.ParseApiResponse | app/src/main/java/com/proyecto/modismos/activities/AnalysisActivity.kt:180-259 | sets the neutral sentence and the meaning table; hands on the detected words only when parsing completed, and otherwise empties the list view |
| AnalysisActivity.AnalysisScreen.LoadModismos | app/src/main/java/com/proyecto/modismos/activities/AnalysisActivity.kt:268-281 | issues the capitalized queries over a fresh join; no words empties the list view |
| AnalysisActivity.AnalysisScreen.OnLookupResult | app/src/main/java/com/proyecto/modismos/activities/AnalysisActivity.kt:286-364 | a lookup answer is delivered to the join, and the screen shows the joined list exactly when it is published |
| AnalysisActivity.NewWords | app/src/main/java/com/proyecto/modismos/activities/AnalysisActivity.kt:395-397 | keeps exactly the words whose lowercase form is not stored, and never more than were given |
| AnalysisActivity.NewWordsAppend | app/src/main/java/com/proyecto/modismos/activities/AnalysisActivity.kt:395-397 | the filter keeps order: filtering a concatenation filters each part |
| AnalysisActivity.SaveDetectedWords | app/src/main/java/com/proyecto/modismos/activities/AnalysisActivity.kt:368-414 | nothing is written without a user or without words; a missing record is created with every capitalized word and that count; otherwise only new words are added and counted, and none of them is already stored |
| Highlighting.SpannableString.constructor | app/src/main/java/com/proyecto/modismos/activities/AnalysisActivity.kt:484 | a spannable starts with the text and no spans |
| Highlighting.SpannableString.SetSpan | app/src/main/java/com/proyecto/modismos/activities/AnalysisActivity.kt:505-517 | a span is accepted only within the text and is added after the earlier ones |
| Highlighting.SpansOf | app/src/main/java/com/proyecto/modismos/activities/AnalysisActivity.kt:505-517 | each marked range gets a colour span and then a bold span over the same characters |
| Highlighting.SpansOfAppend | app/src/main/java/com/proyecto/modismos/activities/AnalysisActivity.kt:505-517 | the spans of two lists of ranges are the spans of the first followed by those of the second |
| Highlighting.ExactRangesOccur | app/src/main/java/com/proyecto/modismos/activities/AnalysisActivity.kt:498-520 | every exact match is a case-insensitive occurrence of the word at or after the start, as long as the word |
| Highlighting.ExactRangesOrdered | app/src/main/java/com/proyecto/modismos/activities/AnalysisActivity.kt:519 | each match starts at or after the end of the previous one, so matches never overlap |
| Highlighting.ExactStep | app/src/main/java/com/proyecto/modismos/activities/AnalysisActivity.kt:500-519 | one search step: -1 ends the loop, and otherwise the match lies past the start and within the text |
| Highlighting.ExactLoopRanges | app/src/main/java/com/proyecto/modismos/activities/AnalysisActivity.kt:498-520 | the loop as it runs marks exactly the ranges of the reference definition |
| Highlighting.ExactLoopStep | app/src/main/java/com/proyecto/modismos/activities/AnalysisActivity.kt:500-519 | one round of the running loop either stops or records the match and resumes at its end |
| Highlighting.ExactRangesCover | app/src/main/java/com/proyecto/modismos/activities/AnalysisActivity.kt:498-520 | every occurrence at or after the start lies inside one of the marked matches |
| Highlighting.NoExactIffNoOccurrence | app/src/main/java/com/proyecto/modismos/activities/AnalysisActivity.kt:523 | the root fallback runs exactly when the word does not occur anywhere in the text |
| Highlighting.Root | app/src/main/java/com/proyecto/modismos/activities/AnalysisActivity.kt:525-529 | the root is a prefix of the word, two characters shorter when the word is longer than four, and otherwise the whole word |
| Highlighting.LetterRunEnd | app/src/main/java/com/proyecto/modismos/activities/AnalysisActivity.kt:550-552 | the `endWord` loop stops at the text's end or at the first non-letter, having passed only letters |
| Highlighting.PrefixOccurs | app/src/main/java/com/proyecto/modismos/activities/AnalysisActivity.kt:540-542 | where a token that starts with the root occurs, the root occurs too |
| Highlighting.RootStep | app/src/main/java/com/proyecto/modismos/activities/AnalysisActivity.kt:535-572 | the token loop is one token's mark followed by the rest, from the updated position |
| Highlighting.TokenRangeSound | app/src/main/java/com/proyecto/modismos/activities/AnalysisActivity.kt:536-567 | a token's mark starts where the token's cleaned form (its lowercase letters, which begin with the root) occurs in the lowercase text, goes on past that form only over letters, and ends at the end of the text or before a non-letter |
| Highlighting.RootRangesSound | app/src/main/java/com/proyecto/modismos/activities/AnalysisActivity.kt:531-572 | every mark of the root fallback is made for the cleaned form of one of the tokens in that sense |
| Highlighting.RootMarkStartsWithRoot | app/src/main/java/com/proyecto/modismos/activities/AnalysisActivity.kt:540-546 | such a mark starts where the root itself occurs in the lowercase text and is at least as long as the root |
| Highlighting.WordRangesWithin | app/src/main/java/com/proyecto/modismos/activities/AnalysisActivity.kt:492-573 | every range marked for an idiom is non-empty and within the text |
| Highlighting.AllRangesWithin | app/src/main/java/com/proyecto/modismos/activities/AnalysisActivity.kt:492-574 | every range marked for any idiom is non-empty and within the text |
| Highlighting.HighlightRanges | app/src/main/java/com/proyecto/modismos/activities/AnalysisActivity.kt:486-488 | blank text or no idioms marks nothing, and every range is within the text |
| Highlighting.Mark | app/src/main/java/com/proyecto/modismos/activities/AnalysisActivity.kt:505-517 | one range gets its colour span and its bold span |
| Highlighting.MarkNextExact | app/src/main/java/com/proyecto/modismos/activities/AnalysisActivity.kt:499-519 | one round of the exact loop marks the next match, if there is one, and keeps the loop's reference result |
| Highlighting.MarkExact | app/src/main/java/com/proyecto/modismos/activities/AnalysisActivity.kt:498-520 | the exact loop adds the spans of exactly the reference matches, and reports a match exactly when there is one |
| Highlighting.MarkToken | app/src/main/java/com/proyecto/modismos/activities/AnalysisActivity.kt:536-567 | one token adds the spans of its reference mark |
| Highlighting.MarkRoots | app/src/main/java/com/proyecto/modismos/activities/AnalysisActivity.kt:531-572 | the token loop adds the spans of the reference root marks |
| Highlighting.MarkWord | app/src/main/java/com/proyecto/modismos/activities/AnalysisActivity.kt:493-573 | one idiom adds the spans of its exact matches, or of the root fallback when there are none |
| Highlighting.HighlightDetectedWords | app/src/main/java/com/proyecto/modismos/activities/AnalysisActivity.kt:483-577 | the text is unchanged, and its spans are exactly those of the reference ranges, idiom by idiom |
| AnalysisHandler.ReadResult | app/src/main/java/com/proyecto/modismos/handlers/AnalysisHandler.kt:36-52 | missing fields default to "unknown", 0, true and true; the transcription is `original_text` for audio and the caller's text otherwise |
| AnalysisHandler.ServiceName | app/src/main/java/com/proyecto/modismos/handlers/AnalysisHandler.kt:70-76 | "BETO y PHI", "BETO", "PHI" or "servicios", each exactly for its pair of availabilities |
| AnalysisHandler.Classify | app/src/main/java/com/proyecto/modismos/handlers/AnalysisHandler.kt:58-84 | each callback is chosen exactly in its case, with the result, the service name or the invalid-response message |
| AnalysisHandler.CasesPartition | app/src/main/java/com/proyecto/modismos/handlers/AnalysisHandler.kt:58-84 | the four cases cover every result and no two overlap |
| AnalysisHandler.HandleAnalysisResponse | app/src/main/java/com/proyecto/modismos/handlers/AnalysisHandler.kt:27-90 | unreadable JSON gives the unreadable-response error; success needs status "success" and a positive total; errors carry one of the two messages |
| AnalysisHandler.NoModismosBeatsPartial | app/src/main/java/com/proyecto/modismos/handlers/AnalysisHandler.kt:64-67 | "success" with total 0 gives no-idioms, even with a service down |
| AnalysisHandler.EmptyResponseIsInvalid | app/src/main/java/com/proyecto/modismos/handlers/AnalysisHandler.kt:80-83 | an object with none of the fields gives the invalid-response error |
| AnalysisHandler.NegativeTotalIsInvalid | app/src/main/java/com/proyecto/modismos/handlers/AnalysisHandler.kt:80-83 | "success" with a negative total and both services up gives the invalid-response error |
| DictionaryFragment.LexLeTotal | app/src/main/java/com/proyecto/modismos/fragments/DictionaryFragment.kt:171 | any two words compare one way or the other |
| DictionaryFragment.LexLeTrans | app/src/main/java/com/proyecto/modismos/fragments/DictionaryFragment.kt:171 | the string order is transitive |
| DictionaryFragment.Insert | app/src/main/java/com/proyecto/modismos/fragments/DictionaryFragment.kt:171 | inserting adds the entry and nothing else |
| DictionaryFragment.InsertSorted | app/src/main/java/com/proyecto/modismos/fragments/DictionaryFragment.kt:171 | inserting into a sorted list keeps it sorted |
| DictionaryFragment.SortByPalabra | app/src/main/java/com/proyecto/modismos/fragments/DictionaryFragment.kt:171 | sorting is a permutation of the list |
| DictionaryFragment.SortByPalabraSorted | app/src/main/java/com/proyecto/modismos/fragments/DictionaryFragment.kt:171 | the sorted list is in ascending order of `palabra` |
| DictionaryFragment.SortByPalabraOfSorted | app/src/main/java/com/proyecto/modismos/fragments/DictionaryFragment.kt:171 | a list already in order is left as it is |
| DictionaryFragment.DictionaryEntry | app/src/main/java/com/proyecto/modismos/fragments/DictionaryFragment.kt:130-144 | a found document gives exactly `Modismo(wordName, "Modismo", significados or [], sinonimos or [])`; not found and failed give nothing |
| DictionaryFragment.DictionaryScreen.constructor | app/src/main/java/com/proyecto/modismos/fragments/DictionaryFragment.kt:32 | the screen starts with an empty list |
| DictionaryFragment.DictionaryScreen.ShowLoading | app/src/main/java/com/proyecto/modismos/fragments/DictionaryFragment.kt:185-198 | the progress bar and the list swap, and the empty state is hidden |
| DictionaryFragment.DictionaryScreen.ShowEmptyState | app/src/main/java/com/proyecto/modismos/fragments/DictionaryFragment.kt:200-220 | only the empty state is shown, with the message |
| DictionaryFragment.DictionaryScreen.LoadDiscoveredWords | app/src/main/java/com/proyecto/modismos/fragments/DictionaryFragment.kt:81-93 | with no user the login prompt is shown and nothing is read; otherwise loading is shown and the user's document is read |
| DictionaryFragment.DictionaryScreen.OnUserDocument | app/src/main/java/com/proyecto/modismos/fragments/DictionaryFragment.kt:94-115 | a failed read, a missing document or an empty word list shows the empty state with no lookups; otherwise every stored word is looked up, after the list is cleared |
| DictionaryFragment.DictionaryScreen.LoadWordDetails | app/src/main/java/com/proyecto/modismos/fragments/DictionaryFragment.kt:118-123 | the list is cleared and the counter starts at zero, over the given names |
| DictionaryFragment.DictionaryScreen.UpdateUI | app/src/main/java/com/proyecto/modismos/fragments/DictionaryFragment.kt:166-183 | an empty list shows the empty state; otherwise the list is sorted by word and shown |
| DictionaryFragment.DictionaryScreen.FinishLoading | app/src/main/java/com/proyecto/modismos/fragments/DictionaryFragment.kt:149-152 | after the last answer the list is the sorted arrivals, in order, and the empty state shows exactly when nothing arrived |
| DictionaryFragment.DictionaryScreen.OnWordLookup | app/src/main/java/com/proyecto/modismos/fragments/DictionaryFragment.kt:125-163 | each answer counts once and appends its entry if found; the list is updated exactly when the count reaches the number of words, and is then sorted |
| HomeFragment.AnalizarTexto | app/src/main/java/com/proyecto/modismos/fragments/HomeFragment.kt:277-297 | the trimmed text is sent exactly when it is non-empty and at most 400 characters, and each rejection has its message |
| HomeFragment.TextLimitBoundary | app/src/main/java/com/proyecto/modismos/fragments/HomeFragment.kt:289 | 400 characters are sent, 401 are not |
| HomeFragment.AnalizarAudio | app/src/main/java/com/proyecto/modismos/fragments/HomeFragment.kt:308-321 | audio is sent exactly when a non-empty recorded path is set |
| HomeFragment.CounterColorFor | app/src/main/java/com/proyecto/modismos/fragments/HomeFragment.kt:231-243 | red above 400, orange from 360 to 400, gray below 360 |
| HomeFragment.ValidateAudioDuration | app/src/main/java/com/proyecto/modismos/fragments/HomeFragment.kt:409-425 | accepted exactly when the probe succeeds with at most 50000 ms |
| HomeFragment.FormatTimestamp | app/src/main/java/com/proyecto/modismos/fragments/HomeFragment.kt:580-588 | a timestamp that is not a 64-bit number gives "Audio"; otherwise the formatted date |
| HomeFragment.BaseName | app/src/main/java/com/proyecto/modismos/fragments/HomeFragment.kt:497 | the file name after the last '/', which holds no '/' |
| HomeFragment.AudioLabel | app/src/main/java/com/proyecto/modismos/fragments/HomeFragment.kt:497-502 | "Grabación - " or "Audio subido - " and the formatted time for the two prefixes, and any other name unchanged |
| HomeFragment.RecordingLabel | app/src/main/java/com/proyecto/modismos/activities/AudioRecorderActivity.kt:147-160 | a file the recorder names after its start time is labelled with that time formatted |
| HomeFragment.NumeralHasNoSeparator | app/src/main/java/com/proyecto/modismos/activities/AudioRecorderActivity.kt:147-160 | a number's text holds no '/' and no '.' |
| HomeFragment.FileBaseName | app/src/main/java/com/proyecto/modismos/fragments/HomeFragment.kt:497 | the base name of `dir/<stem>.<ext>` is the stem when neither part holds a '/' or a '.' |
| HomeFragment.FileExtension | app/src/main/java/com/proyecto/modismos/fragments/HomeFragment.kt:465-473 | the text after the last '.' of the display name, or "m4a" with no dot or no name; never holds a '.' |
| HomeFragment.UploadedFileName | app/src/main/java/com/proyecto/modismos/fragments/HomeFragment.kt:442 | an uploaded file is named "uploaded_", the clock, a '.' and the display name's extension |
| HomeFragment.UploadedBaseName | app/src/main/java/com/proyecto/modismos/fragments/HomeFragment.kt:442-443 | the base name of an uploaded file's path is "uploaded_" and the clock |
| HomeFragment.UploadedLabel | app/src/main/java/com/proyecto/modismos/fragments/HomeFragment.kt:497-501 | an uploaded file's card reads "Audio subido - " and the copy time formatted, when the extension holds no '/' |
| HomeFragment.HomeScreen.constructor | app/src/main/java/com/proyecto/modismos/fragments/HomeFragment.kt:40-78 | no recorded path, no player, nothing playing |
| HomeFragment.HomeScreen.OnTextChanged | app/src/main/java/com/proyecto/modismos/fragments/HomeFragment.kt:217-244 | the counter reads "count/400" in its colour, and the clear button shows exactly for a non-empty text |
| HomeFragment.HomeScreen.ReleaseMediaPlayer | app/src/main/java/com/proyecto/modismos/fragments/HomeFragment.kt:590-598 | the player is gone and nothing plays |
| HomeFragment.HomeScreen.ShowAudioPlayer | app/src/main/java/com/proyecto/modismos/fragments/HomeFragment.kt:477-513 | after a release, a prepared player shows the card and the label, not playing |
| HomeFragment.HomeScreen.OnRecorderResult | app/src/main/java/com/proyecto/modismos/fragments/HomeFragment.kt:80-97 | only RESULT_OK changes anything; a missing path clears the recorded path and leaves the player as it was; an accepted recording is kept and shown; a too-long one is deleted, the path cleared, the error dialog shown and the old player card left on screen |
| HomeFragment.HomeScreen.HandleUploadedAudio | app/src/main/java/com/proyecto/modismos/fragments/HomeFragment.kt:436-463 | a copied file within the limit becomes the recorded path and is shown; a too-long one is deleted with the error dialog and the player left as it was; a failed copy changes nothing |
| HomeFragment.HomeScreen.TogglePlayPause | app/src/main/java/com/proyecto/modismos/fragments/HomeFragment.kt:515-528 | with a player the playing flag flips, and without one nothing changes |
| HomeFragment.HomeScreen.OnPause | app/src/main/java/com/proyecto/modismos/fragments/HomeFragment.kt:602-605 | nothing plays after pausing the fragment |
| HomeFragment.HomeScreen.DeleteAudio | app/src/main/java/com/proyecto/modismos/fragments/HomeFragment.kt:530-540 | the recorded file is deleted, the path cleared and the card hidden, so audio analysis is refused afterwards |
| ThemeHelper.Preferences.constructor | app/src/main/java/com/proyecto/modismos/utils/ThemeHelper.kt:37-38 | a new store holds nothing |
| ThemeHelper.Preferences.GetInt | app/src/main/java/com/proyecto/modismos/utils/ThemeHelper.kt:62 | the stored value, or the default when nothing is stored |
| ThemeHelper.Preferences.PutInt | app/src/main/java/com/proyecto/modismos/utils/ThemeHelper.kt:53-55 | the key now maps to the value and nothing else changes |
| ThemeHelper.NightModeSetting.constructor | app/src/main/java/com/proyecto/modismos/utils/ThemeHelper.kt:33 | the night mode starts at the given mode |
| ThemeHelper.NightModeSetting.SetDefaultNightMode | app/src/main/java/com/proyecto/modismos/utils/ThemeHelper.kt:33 | the night mode is set |
| ThemeHelper.NightMode | app/src/main/java/com/proyecto/modismos/utils/ThemeHelper.kt:42-47 | NO exactly for 0, YES exactly for 1, FOLLOW_SYSTEM for everything else |
| ThemeHelper.ThemeName | app/src/main/java/com/proyecto/modismos/utils/ThemeHelper.kt:65-72 | "Claro" exactly for 0, "Oscuro" exactly for 1, "Automático" for everything else |
| ThemeHelper.ApplyThemeStatic | app/src/main/java/com/proyecto/modismos/utils/ThemeHelper.kt:19-34 | the static mapping applies the same night mode as the instance one, and FOLLOW_SYSTEM with nothing stored |
| ThemeHelper.ThemeHelper.constructor | app/src/main/java/com/proyecto/modismos/utils/ThemeHelper.kt:37-38 | a helper reads the given store |
| ThemeHelper.ThemeHelper.GetSavedTheme | app/src/main/java/com/proyecto/modismos/utils/ThemeHelper.kt:61-63 | the stored theme unvalidated, or THEME_AUTO when nothing is stored |
| ThemeHelper.ThemeHelper.GetCurrentThemeName | app/src/main/java/com/proyecto/modismos/utils/ThemeHelper.kt:65-72 | the name of the saved theme, "Automático" when nothing is stored |
| ThemeHelper.ThemeHelper.ApplyTheme | app/src/main/java/com/proyecto/modismos/utils/ThemeHelper.kt:40-50 | the night mode of the saved theme is applied |
| ThemeHelper.ThemeHelper.SaveAndApplyTheme | app/src/main/java/com/proyecto/modismos/utils/ThemeHelper.kt:52-59 | the theme is stored, read back as itself, and its night mode applied |
| ThemeHelper.LastWriteWins | app/src/test/java/com/proyecto/modismos/utils/ThemeHelperTest.kt:298-321 | after two saves a fresh helper over the same store sees the second theme, its name and its night mode |
| AudioRecorderActivity.TickText | app/src/main/java/com/proyecto/modismos/activities/AudioRecorderActivity.kt:295-300 | the tick shows `60000 - millisUntilFinished` as minutes and seconds, at most one minute |
| AudioRecorderActivity.AudioRecorder.constructor | app/src/main/java/com/proyecto/modismos/activities/AudioRecorderActivity.kt:34-56 | not recording, not paused, not cancelled, no result |
| AudioRecorderActivity.AudioRecorder.StartTimer | app/src/main/java/com/proyecto/modismos/activities/AudioRecorderActivity.kt:291-294 | the timer runs for `60000 - (now - startTime)` |
| AudioRecorderActivity.AudioRecorder.StartRecording | app/src/main/java/com/proyecto/modismos/activities/AudioRecorderActivity.kt:147-200 | the file is named after the start time; a started recorder records from now with a full timer; a failure finishes the screen |
| AudioRecorderActivity.AudioRecorder.PauseRecording | app/src/main/java/com/proyecto/modismos/activities/AudioRecorderActivity.kt:202-221 | only a running, unpaused recording pauses, at `now`; the elapsed time is unchanged |
| AudioRecorderActivity.AudioRecorder.ResumeRecording | app/src/main/java/com/proyecto/modismos/activities/AudioRecorderActivity.kt:223-242 | only a paused recording resumes; the start time shifts by the pause, so the elapsed time right after resuming is the elapsed time at the pause |
| AudioRecorderActivity.AudioRecorder.StopRecording | app/src/main/java/com/proyecto/modismos/activities/AudioRecorderActivity.kt:269-289 | not recording and not paused afterwards, whatever the state before, with no recorder and no timer |
| AudioRecorderActivity.AudioRecorder.StopRecordingAndFinish | app/src/main/java/com/proyecto/modismos/activities/AudioRecorderActivity.kt:244-266 | cancelled gives RESULT_CANCELED; otherwise the path with RESULT_OK exactly when the file exists and is non-empty, and no result otherwise |
| AudioRecorderActivity.AudioRecorder.OnCloseClicked | app/src/main/java/com/proyecto/modismos/activities/AudioRecorderActivity.kt:116-119 | closing cancels and finishes with RESULT_CANCELED |
| AudioRecorderActivity.AudioRecorder.OnPauseClicked | app/src/main/java/com/proyecto/modismos/activities/AudioRecorderActivity.kt:125-131 | the button resumes a paused recording and pauses a running one |
| AuthForms.MessageText | app/src/main/java/com/proyecto/modismos/activities/LoginActivity.kt:130 | the exception's message, or "null" |
| AuthForms.FirstFailure | app/src/main/java/com/proyecto/modismos/activities/RegisterActivity.kt:171-214 | a check chain accepts exactly when every check passes, and otherwise reports the first failing check |
| AuthForms.FirstFailureCons | app/src/main/java/com/proyecto/modismos/activities/RegisterActivity.kt:171-214 | the head check either fails the chain or hands over to the rest |
| AuthForms.FirstFailure3 | app/src/main/java/com/proyecto/modismos/activities/RegisterActivity.kt:171-214 | three checks in front of a chain: the first of them that fails, or else the verdict of the rest |
| RegisterActivity.ValidateInput | app/src/main/java/com/proyecto/modismos/activities/RegisterActivity.kt:171-214 | accepted exactly when the email is non-empty and valid, the password has six characters, the confirmation is identical and the terms are accepted; each failure exactly in its place in the order |
| RegisterActivity.ValidateInputIsFirstFailure | app/src/main/java/com/proyecto/modismos/activities/RegisterActivity.kt:171-214 | the sign-up checks are the first failure of the six checks in their order |
| RegisterActivity.MinimumLength | app/src/main/java/com/proyecto/modismos/activities/RegisterActivity.kt:194 | six characters pass and five fail |
| RegisterActivity.RegistrationErrorMessage | app/src/main/java/com/proyecto/modismos/activities/RegisterActivity.kt:216-225 | weak password, invalid credentials and collision each have their message, and anything else the generic one |
| RegisterActivity.RegisterUser | app/src/main/java/com/proyecto/modismos/activities/RegisterActivity.kt:95-129 | the trimmed email and the untrimmed passwords are checked; no account is requested unless every check passes; a signed-up user gets a profile with an empty word list; a sign-up without a current user ends in "Error: Usuario no encontrado"; a failed sign-up ends in the message for its error |
| RegisterActivity.TermsCheckboxAfter | app/src/main/java/com/proyecto/modismos/activities/RegisterActivity.kt:37-44 | only RESULT_OK sets the checkbox, to `checkTerms` or false |
| LoginActivity.ValidateInput | app/src/main/java/com/proyecto/modismos/activities/LoginActivity.kt:102-122 | accepted exactly when the email is non-empty and valid and the password non-empty; each failure exactly in its place |
| LoginActivity.ValidateInputIsFirstFailure | app/src/main/java/com/proyecto/modismos/activities/LoginActivity.kt:102-122 | the sign-in checks are the first failure of the three checks in their order |
| LoginActivity.LoginErrorMessage | app/src/main/java/com/proyecto/modismos/activities/LoginActivity.kt:124-132 | invalid user, invalid credentials (a weak-password failure included) and anything else each get their message |
| LoginActivity.LoginUser | app/src/main/java/com/proyecto/modismos/activities/LoginActivity.kt:72-100 | the trimmed email and the untrimmed password are checked; sign-in is requested only after the checks pass |
| LoginActivity.PasswordNotTrimmed | app/src/main/java/com/proyecto/modismos/activities/LoginActivity.kt:73-74 | a password of spaces is used as it is |
| LoginActivity.ResetPassword | app/src/main/java/com/proyecto/modismos/activities/LoginActivity.kt:134-157 | a reset mail goes exactly to a non-empty trimmed email that matches the pattern, and each rejection has its message |
| ProfileFragment.ProfileScreen.constructor | app/src/main/java/com/proyecto/modismos/fragments/ProfileFragment.kt:24-29 | the password is hidden and the fields empty |
| ProfileFragment.ProfileScreen.SetupUserData | app/src/main/java/com/proyecto/modismos/fragments/ProfileFragment.kt:71-83 | the email and the mask, or a redirect to sign-in; the fields are read-only and only a placeholder is shown |
| ProfileFragment.ProfileScreen.TogglePasswordVisibility | app/src/main/java/com/proyecto/modismos/fragments/ProfileFragment.kt:85-97 | the flag flips, and the field shows the matching placeholder, never the password |
| ProfileFragment.ToggleTwice | app/src/main/java/com/proyecto/modismos/fragments/ProfileFragment.kt:85-97 | two toggles restore the flag and the input type |
| ProfileFragment.ChangePasswordChecks | app/src/main/java/com/proyecto/modismos/fragments/ProfileFragment.kt:122-146 | accepted exactly when every check passes; each toast exactly in its place in the order |
| ProfileFragment.ChangePassword | app/src/main/java/com/proyecto/modismos/fragments/ProfileFragment.kt:120-167 | reauthentication with the signed-in email only after the checks pass, the update only after reauthentication succeeds, and the message of each step |
| Lexicon.IndexSetBound | app/src/main/java/com/proyecto/modismos/activities/AnalysisActivity.kt:327-331 | a counter that counts each of `n` callbacks once never passes `n` |

## Left out

- Firebase Authentication and Firestore. Queries, transactions and `arrayUnion` are SDK calls. Their answers are inputs and their writes are results.
- Networking (`ApiService`) and fetching the ID token.
- Media: `MediaPlayer`, `MediaRecorder`, `CountDownTimer` and `Handler`. Their outcomes are boolean inputs: whether the recorder started, whether the player prepared, and whether a pause succeeded.
- Animations, toasts, dialogs, colours and other view details. Visibility flags are kept where a property depends on them.
- Clock reads (`System.currentTimeMillis`) are parameters.
- JSON type coercion (`optString`, `getString` on non-strings) is not modelled. A field is either of the expected type or it makes the parse fail.
- `HomeFragment.HomeScreen.ShowAudioPlayer`: takes it that the prepared listener fires once the player has prepared. The source registers it after a synchronous `prepare()`, and when Android calls it is not modelled.
- `HomeFragment.FileExtension`: a null display name and a missing display-name column are not modelled. Either one throws inside the `try` of `handleUploadedAudio` (`HomeFragment.kt:469-470`). The upload is then abandoned with the error toast and no file is kept. `HomeFragment.HomeScreen.HandleUploadedAudio` with `copied == false` stands for that case.
- A character of the model is a Unicode code point, but Kotlin's `length`, string indices and `compareTo` count UTF-16 code units. The two differ only for characters outside the Basic Multilingual Plane, such as emoji. `uppercase` and `lowercase` are taken character by character and keep the length, so a case change that lengthens a string is not modelled (`"ß".uppercase()` is `"SS"`). The members below inherit this.
- `HomeFragment.AnalizarTexto`: counts code points against the 400-character limit. A text of 201 emoji (402 UTF-16 units) passes here although the source rejects it.
- `HomeFragment.HomeScreen.OnTextChanged`: the counter shows code points, not UTF-16 units.
- `RegisterActivity.ValidateInput`: the six-character password minimum counts code points, so three emoji fail here although the source accepts them.
- `ProfileFragment.ChangePasswordChecks`: counts the new password's length in code points, as above.
- `DictionaryFragment.LexLeTotal`: orders words by code point, not by UTF-16 unit. `DictionaryFragment.SortByPalabra` inherits that order.
- `AnalysisActivity.Capitalize`: upper-cases the first character as one character. The source can turn it into several.
- `ClockFormat.ParseLong`: does not model `toLong` accepting non-ASCII digits.
- `HomeFragment.UploadedLabel`: says nothing about a display name whose extension holds a '/'. The copy's name then points into a sub-directory of `audio_recordings`, and its base name is no longer `uploaded_<time>`.
- `HomeFragment.CounterColorFor`: the float comparison `count >= 400 * 0.9` is modelled as the integer test `count * 10 >= 3600`. The two are equal for every integer count.
- `Highlighting.HighlightDetectedWords`: requires every idiom's word to be non-empty, which the parser guarantees. With an empty word the source's exact scan would not advance.
- `AnalysisActivity.Merge`: the record's `region` field is read but never used by the source, so it is not modelled.
- `DictionaryFragment.SortByPalabra`: is stable like `sortBy`, but stability is not stated as a property.
- The `isInitialized` and `parent != null` guards of the dictionary views are not modelled. The views are taken to exist.
- `refreshDictionary` reloads through `loadDiscoveredWords`, and calling it is not modelled separately.
- The `formatTime` of `AnalysisActivity.kt:685-690` is the same function as that of `HomeFragment.kt:573-578`. Both are `ClockFormat.FormatTime`.
- `filterWordsInSentence` is never called, so it is not modelled.
- The other screens, adapters and dialog helpers hold no logic of their own to model.
