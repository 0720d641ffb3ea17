# tesla-status-frontend: the code-translation layer in Dafny

The Tesla order-status dashboard receives raw codes from Tesla's API. These
are order states, task states, option codes, country and model codes, and
the OAuth redirect URL. It turns each one into a display record for the
user, with a Spanish name, a badge colour, a progress figure, a category or
a flag. Every decoder is total: an absent code and an unknown code both have
a fixed fallback, and none of them fails.

This project models those decoders and the two small pieces of logic beside
them. Each module follows one source file:

| module | file | what it holds |
|---|---|---|
| `Wrappers` | — | `Option`, and `Absent` for JavaScript's `!code` on a nullable string (null or `""`) |
| `Text` | — | the JavaScript string built-ins the decoders call: ASCII `toUpperCase`/`toLowerCase`, `trim` with its white-space set, `split` on one character |
| `Statuses` | `src/lib/translations/statuses.ts` | `STATUS_CODES` and `decodeStatus`: exact key, then upper-cased, then lower-cased |
| `OrderTimeline` | `src/components/OrderTimeline.tsx` | `STEPS`, the `findIndex` that picks the active step, the per-step flags and the fill ratio of the connecting line |
| `TaskStatuses` | `src/lib/translations/taskStatuses.ts` | `TASK_STATUS_CODES`, `ORDER_SUBSTATUS_CODES`, `decodeTaskStatus` and its `replace` fallback, `decodeOrderSubstatus`, `formatStatusCode` |
| `MktOptions` | `src/lib/translations/mktOptions.ts` | the eight option tables and their spread merge, `decodeMktOption`, `decodeMktOptions`, and `groupMktOptionsByCategory` as a loop over a map |
| `Countries` | `src/lib/translations/countries.ts` | `COUNTRY_CODES` and `decodeCountry` |
| `Models` | `src/lib/translations/models.ts` | `MODEL_CODES` and `decodeModel` |
| `TeslaPopup` | `src/app/auth/tesla-popup/page.tsx` | `extractCode`: the regular expression `[?&]code=([^&]+)` as a scan plus a declarative reading of the match |
| `Dashboard` | `src/app/dashboard/page.tsx` | the wiring: the timeline is given `decodeStatus(order_status).progress` and nothing else |

Nullable string parameters are `Option<string>`. Dictionaries are finite
`map`s holding exactly the listed keys. The spread merge of the option tables
is Dafny's right-biased map union `+`. JavaScript's `obj[key] || fallback`
is a membership test, because every entry in every table is a non-empty
string or an object, so it is never falsy.

Two facts about the code that a reader might expect otherwise:
- The fallback names are `"Desconocido"` (unknown code) and `"Otro"` (unknown option category).
- No code derives progress from the VIN, the delivery appointment or the vehicle's location. The dashboard hands `decodeStatus(...).progress` to the timeline unchanged (`src/app/dashboard/page.tsx:219,280`), and the `Dashboard` module models exactly that.

## Model

| member | source | states |
|---|---|---|
| `Text.Upper` | src/lib/translations/statuses.ts:50 | `toUpperCase` on ASCII: same length; each character is upper-cased and everything else is kept |
| `Text.Lower` | src/lib/translations/statuses.ts:56 | `toLowerCase` on ASCII: same length; each character is lower-cased and everything else is kept |
| `Text.UpperIdempotent` | src/lib/translations/countries.ts:32 | upper-casing twice is upper-casing once |
| `Text.LowerIdempotent` | src/lib/translations/models.ts:12 | lower-casing twice is lower-casing once |
| `Text.UpperOfLower` | src/lib/translations/statuses.ts:50-57 | upper-casing forgets an earlier lower-casing, and the other way round |
| `Text.Trim` | src/lib/translations/mktOptions.ts:139 | `trim`: the result is an infix of the input; only white space was cut from either end; the result neither starts nor ends with white space |
| `Text.TrimIdempotent` | src/lib/translations/mktOptions.ts:147 | trimming a trimmed string changes nothing |
| `Text.TrimAfterSpace` | src/lib/translations/mktOptions.ts:147 | one leading space before a code is trimmed away and the code stays |
| `Text.TrimAllSpace` | src/lib/translations/mktOptions.ts:147 | a string of white space only trims to `""` |
| `Text.Split` | src/lib/translations/mktOptions.ts:147 | `split(',')`: there is always at least one piece, even for `""` |
| `Text.SplitCountsSeparators` | src/lib/translations/mktOptions.ts:147 | there is one more piece than there are separators |
| `Text.SplitPiecesLackSeparator` | src/lib/translations/mktOptions.ts:147 | no piece of `split(',')` holds a comma |
| `Text.SplitAppend` | src/lib/translations/mktOptions.ts:147 | splitting `a + "," + b` is splitting `a`, then splitting `b` |
| `Text.JoinSplit` | src/lib/translations/mktOptions.ts:147 | joining the pieces with the separator gives back the input, so `split` loses nothing |
| `Text.SplitNoSeparator` | src/lib/translations/mktOptions.ts:147 | a string without the separator splits into itself alone |
| `Statuses.TableProgressInRange` | src/lib/translations/statuses.ts:7-38 | every listed progress is between 0 and 100 |
| `Statuses.DecodeStatus` | src/lib/translations/statuses.ts:41-63 | an absent code gives `Desconocido`/0/outline; an unknown code is shown verbatim at progress 0 in outline; a present code is known exactly when the result is a table record; progress is always in 0..100 |
| `Statuses.FoldedAgreesWithTable` | src/lib/translations/statuses.ts:7-38 | keys that differ only in case carry the same record, so the dictionary can be read case-insensitively |
| `Statuses.FoldedKeyReachable` | src/lib/translations/statuses.ts:45-59 | every case-insensitive key is reached by the exact or the upper-cased try |
| `Statuses.DecodeStatusIsCaseInsensitive` | src/lib/translations/statuses.ts:44-62 | the three tries in order give the record of the code's case-insensitive match, or the verbatim fallback when there is none |
| `Statuses.KnownIffFolded` | src/lib/translations/statuses.ts:44-59 | a code is found exactly when it matches a key up to case |
| `Statuses.CaseVariantsDecodeAlike` | src/lib/translations/statuses.ts:50-58 | two spellings of a known code that differ only in case decode alike |
| `Statuses.AliasesDecodeAlike` | src/lib/translations/statuses.ts:9-37 | the long, legacy two-letter and lower-case spellings of a state all decode to that state's one record |
| `Statuses.CancelledIsDestructiveZero` | src/lib/translations/statuses.ts:17-38 | every spelling of cancelled gives progress 0 in the destructive colour |
| `Statuses.MixedCaseDelivered` | src/lib/translations/statuses.ts:41-53 | `Delivered` is no key but its upper-cased form is, so the second try finds it: Entregado, 100 |
| `Statuses.LowerCaseLegacyIn` | src/lib/translations/statuses.ts:49-53 | `in` is no key; it upper-cases to the legacy key `IN`: En Producción, 50 |
| `Statuses.MixedCaseProduction` | src/lib/translations/statuses.ts:55-59 | neither `Production` nor `PRODUCTION` is a key, `production` is, so only the third try finds it: En Producción, 50 |
| `OrderTimeline.StepsStrictlyIncrease` | src/components/OrderTimeline.tsx:21-71 | seven steps, thresholds from 10 to 100, strictly increasing |
| `OrderTimeline.Selects` | src/components/OrderTimeline.tsx:81-84 | the `findIndex` predicate holds at a step exactly when the progress is below the next step's threshold; at the last step it always holds |
| `OrderTimeline.FindIndexFrom` | src/components/OrderTimeline.tsx:80-85 | `findIndex`: the first step satisfying the predicate, or -1 when none does |
| `OrderTimeline.ActiveIndex` | src/components/OrderTimeline.tsx:79-87 | `activeIndex` is the first step the predicate selects, a valid index |
| `OrderTimeline.FindIndexNeverMisses` | src/components/OrderTimeline.tsx:80-87 | the predicate always holds at the last step, so the `-1` fallback is never taken |
| `OrderTimeline.ActiveIndexIsLastReached` | src/components/OrderTimeline.tsx:79-87 | below 10 the first step is active; otherwise the active step is the last one whose threshold has been reached |
| `OrderTimeline.ThresholdSelectsItsStep` | src/components/OrderTimeline.tsx:21-87 | a progress exactly at a step's threshold makes that step active |
| `OrderTimeline.ActiveIndexMonotone` | src/components/OrderTimeline.tsx:80-87 | more progress never moves the active step back |
| `OrderTimeline.FullProgressIsLastStep` | src/components/OrderTimeline.tsx:64-87 | from 100 on, the `delivered` step is active |
| `OrderTimeline.Flags` | src/components/OrderTimeline.tsx:106-108 | one flag record per step: `isCompleted` exactly before the active step, `isCurrent` exactly at it, `isPending` exactly after it |
| `OrderTimeline.FlagsPartitionSteps` | src/components/OrderTimeline.tsx:106-108 | each step is exactly one of completed, current or pending; the active step is current and no other step is; the completed steps form a prefix |
| `OrderTimeline.FillRatio` | src/components/OrderTimeline.tsx:98-101 | the drawn share of the line is in [0, 1]; it is 1 exactly on the last step and 0 exactly on the first |
| `OrderTimeline.FillRatioMonotone` | src/components/OrderTimeline.tsx:98-101 | more progress never draws a shorter line |
| `TaskStatuses.UnderscoresToSpaces` | src/lib/translations/taskStatuses.ts:229 | `replace(/_/g, ' ')`: same length, every `_` becomes a space, other characters kept |
| `TaskStatuses.CapitalizeWords` | src/lib/translations/taskStatuses.ts:230 | `replace(/\b\w/g, upper)`: same length; a character is upper-cased exactly where `\b\w` matches, every other character is kept |
| `TaskStatuses.CapitalizeWordsAt` | src/lib/translations/taskStatuses.ts:230 | `replace(/\b\w/g, upper)`: a character is upper-cased exactly when it is a word character that starts a word; every other character is kept |
| `TaskStatuses.FormatUnknown` | src/lib/translations/taskStatuses.ts:228-230 | same length, no `_` left; character by character, the code with spaces upper-cased exactly at the starts of words and kept elsewhere; equal up to case to the code with spaces |
| `TaskStatuses.FormatUnknownCapitalizes` | src/lib/translations/taskStatuses.ts:230 | no word starts with a lower-case letter |
| `TaskStatuses.FormatUnknownIdempotent` | src/lib/translations/taskStatuses.ts:228-230 | formatting a formatted name changes nothing |
| `TaskStatuses.DecodeTaskStatus` | src/lib/translations/taskStatuses.ts:208-237 | absent gives `No Disponible`; else the upper-cased code in the task table, else in the substatus table, else the formatted name with `Estado: <code>` in outline |
| `TaskStatuses.DecodeOrderSubstatus` | src/lib/translations/taskStatuses.ts:240-256 | absent gives empty name and description; else an exact, case-sensitive lookup, else the code verbatim with `Substatus: <code>` |
| `TaskStatuses.FormatStatusCode` | src/lib/translations/taskStatuses.ts:259-264 | absent gives `No disponible`; otherwise the decoded task name |
| `TaskStatuses.TablesDisjoint` | src/lib/translations/taskStatuses.ts:13-186 | no key is both a task status and an order substatus, so the order of the two lookups never matters |
| `TaskStatuses.DecodeTaskStatusIgnoresCase` | src/lib/translations/taskStatuses.ts:215-225 | a known task code decodes alike in every case spelling |
| `TaskStatuses.DecodersAgreeOnSubstatusKeys` | src/lib/translations/taskStatuses.ts:208-256 | on a listed substatus key both decoders return the same record |
| `TaskStatuses.LowerCaseSubstatusExample` | src/lib/translations/taskStatuses.ts:208-256 | `_z` is found by the task decoder, which upper-cases, but not by the substatus decoder, which does not |
| `TaskStatuses.FormatUnknownExample` | src/lib/translations/taskStatuses.ts:228-230 | `tax_docs_2` formats as `Tax Docs 2` |
| `TaskStatuses.UnknownTaskExample` | src/lib/translations/taskStatuses.ts:228-236 | `tax_docs_2` decodes to `Tax Docs 2`, `Estado: tax_docs_2`, outline |
| `TaskStatuses.FormatStatusCodeNonEmpty` | src/lib/translations/taskStatuses.ts:259-264 | the formatted name is never empty |
| `TaskStatuses.MissingCodeDisplays` | src/lib/translations/taskStatuses.ts:208-264 | a missing code shows `No disponible` through `formatStatusCode` but `No Disponible` through `decodeTaskStatus` |
| `MktOptions.PaintInMerged` | src/lib/translations/mktOptions.ts:127-136 | every paint entry survives the merge unchanged |
| `MktOptions.InteriorInMerged` | src/lib/translations/mktOptions.ts:127-136 | every interior entry survives the merge unchanged |
| `MktOptions.WheelInMerged` | src/lib/translations/mktOptions.ts:127-136 | every wheel entry survives the merge unchanged |
| `MktOptions.AutopilotInMerged` | src/lib/translations/mktOptions.ts:127-136 | every Autopilot entry survives the merge unchanged |
| `MktOptions.ChargerInMerged` | src/lib/translations/mktOptions.ts:127-136 | every charging entry survives the merge unchanged |
| `MktOptions.PackageInMerged` | src/lib/translations/mktOptions.ts:127-136 | every package entry survives the merge unchanged |
| `MktOptions.BatteryInMerged` | src/lib/translations/mktOptions.ts:127-136 | every battery entry survives the merge unchanged |
| `MktOptions.ModelConfigInMerged` | src/lib/translations/mktOptions.ts:127-136 | every model-configuration entry is in the merge |
| `MktOptions.MergedKeysAreTableKeys` | src/lib/translations/mktOptions.ts:127-136 | the merged keys are exactly the union of the eight tables' keys |
| `MktOptions.NoEntryIsOther` | src/lib/translations/mktOptions.ts:8-124 | no listed option is filed under the fallback category `Otro` |
| `MktOptions.DecodeMktOption` | src/lib/translations/mktOptions.ts:138-141 | the code upper-cased and then trimmed is looked up; a miss gives category `Otro` with the code as given |
| `MktOptions.OtherIffUnknown` | src/lib/translations/mktOptions.ts:138-141 | the category is `Otro` exactly when the code is not listed |
| `MktOptions.DecodeIgnoresCaseAndSpace` | src/lib/translations/mktOptions.ts:139 | two listed codes that agree after upper-casing and trimming decode alike |
| `MktOptions.TrimAll` | src/lib/translations/mktOptions.ts:147 | `map(c => c.trim())`: one trimmed piece per piece |
| `MktOptions.DropEmpty` | src/lib/translations/mktOptions.ts:147 | `filter(Boolean)`: keeps exactly the non-empty pieces, never more than before |
| `MktOptions.DropEmptySingleton` | src/lib/translations/mktOptions.ts:147 | one piece is kept exactly when it is not empty |
| `MktOptions.DropEmptyAppend` | src/lib/translations/mktOptions.ts:147 | filtering a concatenation filters each part in turn, so the order is kept |
| `MktOptions.DropEmptyKeepsCopies` | src/lib/translations/mktOptions.ts:147 | every non-empty piece is kept as often as it occurs, and only `""` is dropped |
| `MktOptions.TokensArePlainCodes` | src/lib/translations/mktOptions.ts:147 | every code taken from the option string is non-empty, holds no comma and has no white space at either end |
| `MktOptions.Tokens` | src/lib/translations/mktOptions.ts:147 | the codes of an option string: at most one per comma-separated piece |
| `MktOptions.MapSeq` | src/lib/translations/mktOptions.ts:149 | `map(decodeMktOption)`: one result per code, each the function applied to the code at that position |
| `MktOptions.DecodeMktOptions` | src/lib/translations/mktOptions.ts:143-150 | an absent string gives no options; otherwise one decoded option per code, in order |
| `MktOptions.DecodeViaTokens` | src/lib/translations/mktOptions.ts:144-149 | the empty string takes the same path as any other: decoding is mapping `decodeMktOption` over the codes |
| `MktOptions.TokensAppend` | src/lib/translations/mktOptions.ts:147 | the codes of `a + "," + b` are the codes of `a` followed by those of `b` |
| `MktOptions.TokensOfPiece` | src/lib/translations/mktOptions.ts:147 | a piece without a comma is one trimmed code, or none if it is blank |
| `MktOptions.DecodeMktOptionsAppend` | src/lib/translations/mktOptions.ts:143-150 | decoding `a + "," + b` is decoding `a`, then decoding `b` |
| `MktOptions.BlankDecodesToNothing` | src/lib/translations/mktOptions.ts:144-147 | a string of white space decodes to no options |
| `MktOptions.TokensOfThreeCodes` | src/lib/translations/mktOptions.ts:147 | `"A, B, C"` gives the codes A, B and C in that order |
| `MktOptions.DecodeThreeCodes` | src/lib/translations/mktOptions.ts:143-150 | `"A, B, C"` decodes to the three options in that order, each decoded on its own |
| `MktOptions.UnlistedInitialIsUnknown` | src/lib/translations/mktOptions.ts:8-136 | a code whose first letters begin no table's codes is not in the merge |
| `MktOptions.DecodesPaintExample` | src/lib/translations/mktOptions.ts:138-141 | `PPSW` is the pearl-white paint |
| `MktOptions.DecodesWheelExample` | src/lib/translations/mktOptions.ts:138-141 | `WY19P` is the 19-inch Sport wheel |
| `MktOptions.DecodesUnknownExample` | src/lib/translations/mktOptions.ts:140 | `unknowncode` falls back to `Otro` and keeps its lower-case name |
| `MktOptions.DecodeOptionsExample` | src/lib/translations/mktOptions.ts:143-150 | `"PPSW, WY19P, unknowncode"` decodes to Pintura / Blanco Perla Multicapa, Rines / Rines Sport 19", and Otro / unknowncode, in that order |
| `MktOptions.CategoriesAreThoseSeen` | src/lib/translations/mktOptions.ts:153-158 | the group keys are exactly the categories present in the input |
| `MktOptions.OfCategoryMembers` | src/lib/translations/mktOptions.ts:157 | a group holds exactly the options of its category |
| `MktOptions.GroupByCategory` | src/lib/translations/mktOptions.ts:152-160 | the reduce loop ends with one key per category seen, in first-seen order, and each key's group is that category's options in input order |
| `MktOptions.CategoriesDistinct` | src/lib/translations/mktOptions.ts:154-156 | a key is created only once |
| `MktOptions.GroupNonEmptyIffSeen` | src/lib/translations/mktOptions.ts:154-157 | a category has a non-empty group exactly when it is a key |
| `MktOptions.GroupingKeepsCount` | src/lib/translations/mktOptions.ts:152-160 | the group sizes add up to the number of options, so none is lost or duplicated |
| `MktOptions.CategoriesFirstSeenOrder` | src/lib/translations/mktOptions.ts:153-156 | the keys made by any prefix of the input are a prefix of the final keys |
| `Countries.RegionalIndicator` | src/lib/translations/countries.ts:2-27 | a letter's regional indicator symbol lies at the same offset from U+1F1E6 as the letter from `A` |
| `Countries.FlagsSpellTheirKeys` | src/lib/translations/countries.ts:2-27 | every listed flag is its code's two regional indicators, `UK` excepted |
| `Countries.UkFlagIsGb` | src/lib/translations/countries.ts:9 | `UK` carries the flag of the region `GB` |
| `Countries.NoCountryHasWhiteFlag` | src/lib/translations/countries.ts:2-27 | no listed country shows the fallback white flag |
| `Countries.DecodeCountry` | src/lib/translations/countries.ts:30-33 | absent gives `Desconocido` with the white flag; otherwise the upper-cased code is looked up, and a miss shows it upper-cased under the white flag |
| `Countries.DecodeCountryIgnoresCase` | src/lib/translations/countries.ts:32 | a present code and its upper-cased form decode alike, listed or not |
| `Countries.ListedIffFlagged` | src/lib/translations/countries.ts:31-32 | the flag is not the white flag exactly when the code is present and listed |
| `Countries.UnlistedNameIsUpperCase` | src/lib/translations/countries.ts:32 | an unlisted code is shown upper-cased, with no lower-case letter left |
| `Countries.ColombiaEitherCase` | src/lib/translations/countries.ts:30-33 | `co` and `CO` both give Colombia |
| `Countries.UnlistedExample` | src/lib/translations/countries.ts:32 | `xx` shows as `XX` under the white flag |
| `Models.NamesHoldLowerCase` | src/lib/translations/models.ts:1-8 | every model name has a lower-case second letter |
| `Models.DecodeModel` | src/lib/translations/models.ts:10-13 | absent gives `Desconocido`; otherwise the lower-cased code is looked up, and a miss shows the code upper-cased |
| `Models.DecodeModelIgnoresCase` | src/lib/translations/models.ts:12 | a present code and its lower-cased form decode alike, listed or not |
| `Models.ListedIffModelName` | src/lib/translations/models.ts:11-12 | the result is a model name exactly when the code is present and listed |
| `Models.ModelYAnyCase` | src/lib/translations/models.ts:1-13 | `MY`, `My` and `my` all give Model Y |
| `Models.UnlistedExample` | src/lib/translations/models.ts:12 | `zz` shows as `ZZ` |
| `TeslaPopup.RunEnd` | src/app/auth/tesla-popup/page.tsx:35 | `[^&]+` runs greedily: no `&` before the end, and the end is an `&` or the end of the URL |
| `TeslaPopup.MatchesAt` | src/app/auth/tesla-popup/page.tsx:35 | a match starts with `?code=` or `&code=` and has a character after it |
| `TeslaPopup.CapturedAt` | src/app/auth/tesla-popup/page.tsx:35 | the value captured after a match is the greedy run up to the next `&` or the end |
| `TeslaPopup.Search` | src/app/auth/tesla-popup/page.tsx:35 | the scan returns the first position where the pattern matches, or none |
| `TeslaPopup.ExtractCode` | src/app/auth/tesla-popup/page.tsx:34-37 | null exactly when no `?`/`&` is followed by `code=` and a non-`&` character; otherwise the value captured at the first match |
| `TeslaPopup.CodeIsNonEmptyWithoutAmpersand` | src/app/auth/tesla-popup/page.tsx:35-36 | a returned code is non-empty and holds no `&` |
| `TeslaPopup.CaptureIsUnique` | src/app/auth/tesla-popup/page.tsx:35 | the capture after a match is determined: it runs to the next `&` or the end |
| `TeslaPopup.FirstMatchIsUnique` | src/app/auth/tesla-popup/page.tsx:35 | there is one leftmost match |
| `TeslaPopup.ExtractCodeIsFirstCapture` | src/app/auth/tesla-popup/page.tsx:35-36 | the result is `v` exactly when `v` is what the regular expression captures at its leftmost match |
| `TeslaPopup.FirstParameterWins` | src/app/auth/tesla-popup/page.tsx:35 | `?code=a&code=b` gives `a` |
| `TeslaPopup.EmptyParameterIsSkipped` | src/app/auth/tesla-popup/page.tsx:35 | `?code=&code=b` gives `b` |
| `TeslaPopup.LongerNameDoesNotMatch` | src/app/auth/tesla-popup/page.tsx:35 | `?xcode=1` gives null |
| `TeslaPopup.UpperCaseNameDoesNotMatch` | src/app/auth/tesla-popup/page.tsx:35 | `?CODE=1` gives null, because the match is case-sensitive |
| `Dashboard.TimelineIndex` | src/app/dashboard/page.tsx:219-280 | the step shown is the timeline's active index for the decoded status's progress |
| `Dashboard.AliasesLightTheirStage` | src/app/dashboard/page.tsx:280 | every spelling of every order state shows that state's step; ordered and cancelled stay on the first step |
| `Dashboard.StateStageIsItsIndex` | src/components/OrderTimeline.tsx:21-87 | each state's progress selects that state's step |
| `Dashboard.DeliveredIsLastStep` | src/app/dashboard/page.tsx:280 | `DELIVERED` shows the last step |
| `Dashboard.OrderedIsFirstStep` | src/app/dashboard/page.tsx:280 | `ORDERED` (progress 15) shows the first step |
| `Dashboard.ProgressZeroIsFirstStep` | src/app/dashboard/page.tsx:280 | an absent code, an unknown code and cancelled all show the first step |
| `Dashboard.LifeCycleNeverGoesBack` | src/app/dashboard/page.tsx:280 | a state with more progress never shows an earlier step |

## Left out

- Case mapping is ASCII only. JavaScript's `toUpperCase` and `toLowerCase` map all of Unicode, and can change a string's length (`ß` becomes `SS`). `\b\w` is ASCII in JavaScript without the `u` flag, so `formatStatusCode`'s fallback is exact.
- Lookups on `Object.prototype` keys such as `constructor` are not modelled. A JavaScript record would return an inherited member for them. The tables here hold the listed keys only.
- `CUSTOMER_TYPE_CODES` (`src/lib/translations/taskStatuses.ts:189-205`) is not modelled. No decoder reads it.
- `OrderTimeline.ActiveIndex`: progress is an integer here. The source types it as a JavaScript `number`. For `NaN` every comparison in the predicate is false, so `findIndex` returns -1 and the fallback to the last step is taken. That case is not modelled, and neither are fractional values. The dashboard only ever passes integer table values.
- The `icon` of each timeline step, the JSX, class names and CSS strings are not modelled. The width and height percentages are modelled only as the exact ratio `FillRatio`.
- `MktOptions.GroupByCategory`: the JavaScript result is one record whose key order is the insertion order. Here it is a sequence of keys plus a map. Category names are never integer-like, so JavaScript's reordering of integer keys cannot apply. The arrays are rebuilt as values rather than pushed into in place, so aliasing between the accumulator's arrays is not modelled.
- `MktOptions.DecodeThreeCodes` covers only codes separated by a comma and one space. `DecodeMktOptionsAppend` and `TokensOfPiece` cover any spacing.
- In the tesla-popup page, the `fetch` calls, `window.open`, `localStorage`, router navigation and React state are not modelled. Only `extractCode` is. Its regular expression is modelled directly, with no percent-decoding, as in the source.
- In the dashboard, only the step the timeline shows is modelled (`decodeStatus(order_status).progress` passed to `OrderTimeline`). The rest of the page is rendering.
