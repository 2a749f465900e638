# owasp-exorcist core, modelled in Dafny

This project models the logic of the OWASP exorcism game in Dafny and proves properties of that model. It covers four parts:

- **Template validator.** `validateTemplate` checks one vulnerability template record against the schema. It reports one error, with a `field` and a `message`, for each check that fails. `validateTemplates` splits a list of records into a valid list and an invalid list.
- **Template loader.** `loadTemplates`, `getTemplatesByCategory`, `getTemplateById`, `getTemplateByType` and `getUniqueOwaspCategories` all work on the validator's output. The template catalog is passed in as a parameter.
- **Player history manager.** The history records the sessions played, a per-type encounter counter and two running totals. `startSession`, `recordFix` and `completeSession` update it in place. `getStatistics`, `getRecentlyEncountered` and `getTypesToAvoid` read it.
- **Corruption-state provider.** It classifies a corruption level into the sanctified, possessed and damned tiers. It also defines the provider's initial state and what one successful or failed poll of `corruption-state.json` does to that state.

Files:

- `wrappers.dfy`: `Option` and `Result`.
- `seqs.dfy`: the array operations the sources use, with their laws.
  - `filter`, `find` and `findIndex`;
  - `indexOf`;
  - `[...new Set(xs)]`, which removes duplicates.
- `json.dfy`: untyped JSON values and the JavaScript operations the validator applies to them.
  - truthiness;
  - `typeof`;
  - `Array.isArray`;
  - property reads.
- `template_validator.dfy`: the validator.
  - `ValidateTemplate`, its check methods and `ValidateTemplates` are imperative methods, like the source.
  - Each method is proved equal to a specification function: `Validate` or `ValidateAll`.
- `template_validator_properties.dfy`: what the validator promises, proved about `Validate` and `ValidateAll`.
- `template_loader.dfy`: the loader, as pure functions of the catalog.
- `history_manager.dfy`: the history as a `HistoryStore` class, whose `history` field stands for the localStorage entry. The queries are functions of the stored history.
- `corruption_context.dfy`: the tiers, the reducer steps for one poll, and a `CorruptionProvider` class whose method performs those steps.

Modelling choices:

- **Reading a property of `null` throws.** A record that is `null`, or that has a `null` service entry, makes `validateTemplate` throw a `TypeError`. That exception propagates through `validateTemplates` and through every loader function. The model returns `Failure(TypeError(...))` in those cases. Every other input gives an ordinary result.
- **JSON numbers are `real`.** A corruption level of 20.5 is therefore representable. On such levels the dashboards' emoji thresholds and `getCorruptionState` disagree.
- **`encounteredTypes` is a list of entries in property-creation order,** which is the order `Object.keys` and `Object.entries` return.
- **`Array.prototype.sort` is stable,** so `mostEncountered` is modelled as a stable insertion sort.
- **Time stamps are parameters.** `new Date()` becomes a `now` parameter.
- **A fetch outcome is a parameter.** A `fetch` becomes a `Poll` outcome passed in:
  - a network failure;
  - an HTTP status with a readable document;
  - an HTTP status with an unreadable body.

`CorruptionContext.tsx` has neither of these polling behaviours:

- skipping an update when the document's `timestamp` is unchanged;
- pausing polling while the user interacts.

The model follows the code, so it has neither.

## Model

| member | source | states |
|---|---|---|
| TemplateValidator.Validate | src/utils/templateValidator.ts:22-81 | Throws exactly when the record is null or one of its service entries is null. Otherwise the record is not null and `valid` holds exactly when the error list is empty. |
| TemplateValidator.ValidateTemplate | src/utils/templateValidator.ts:22-81 | The method, which runs the checks in the source's order, returns what `Validate` specifies. |
| TemplateValidator.CheckRequiredFields | src/utils/templateValidator.ts:25-40 | The four string checks push, in order, one error for each of `id`, `owaspCategory`, `type` and `name` that is not a non-empty string. |
| TemplateValidator.CheckCodePattern | src/utils/templateValidator.ts:42-51 | It pushes a single `codePattern` error when the field is not object-like. Otherwise it pushes one error each for a falsy `vulnerablePattern` and a falsy `fixPattern`. |
| TemplateValidator.CheckEducation | src/utils/templateValidator.ts:53-75 | Pushes one `educationalContent` error, or one `awsServices` error (not an array, or empty), or the per-service errors. |
| TemplateValidator.CheckServices | src/utils/templateValidator.ts:63-73 | The loop equals `ServiceErrors`: one error per falsy `name`, `description` or `useCase`, in entry order, or the TypeError of a null entry. |
| TemplateValidator.ServiceErrorsThrow | src/utils/templateValidator.ts:63-73 | The service loop throws exactly when a visited entry is null, and then with the null-read TypeError. |
| TemplateValidator.RenderInjective | src/utils/templateValidator.ts:26-72 | Distinct error paths render to distinct `field` strings, including `educationalContent.awsServices[i].f` for different indexes and fields. |
| TemplateValidator.ValidateTemplates | src/utils/templateValidator.ts:86-103 | The `forEach` that pushes onto `valid` or `invalid` returns what `ValidateAll` specifies. |
| TemplateValidator.ValidateAllPrefixFails | src/utils/templateValidator.ts:93-100 | Once a record throws, the whole call throws that exception and later records are not looked at. |
| TemplateValidatorProperties.ErrorsPerPath | src/utils/templateValidator.ts:23-75 | Every path carries exactly the number of errors the schema predicts for it (`ExpectedCount`), counted by path and by `field` string. For example: at most one error for `codePattern`, and none for its sub-fields when it is not object-like. |
| TemplateValidatorProperties.RequiredPathCount | src/utils/templateValidator.ts:26-40 | Only the string checks produce errors on a top-level string field. Each such field gets one error under its own name exactly when it is missing, falsy or not a string. |
| TemplateValidatorProperties.CodePatternPathCount | src/utils/templateValidator.ts:42-51 | The `codePattern` part contributes the predicted count for each of its three paths and nothing for any other path. |
| TemplateValidatorProperties.EducationPathCount | src/utils/templateValidator.ts:54-75 | The educational-content part contributes the predicted count for `educationalContent`, `awsServices` and every service path, and nothing for any other path. So a non-array or empty `awsServices` gives exactly one `awsServices` error and no per-service error. |
| TemplateValidatorProperties.ServiceErrorsPathCount | src/utils/templateValidator.ts:63-73 | The path of service `i` and field `f` occurs once exactly when `i` was visited and its `f` is falsy, and otherwise never. |
| TemplateValidatorProperties.ServiceErrorsLength | src/utils/templateValidator.ts:63-73 | The service loop pushes as many errors as there are falsy `name`, `description` and `useCase` fields among the visited entries. |
| TemplateValidatorProperties.FalsyServiceFieldTotalZero | src/utils/templateValidator.ts:63-73 | No service error is pushed exactly when every entry has a truthy `name`, `description` and `useCase`. |
| TemplateValidatorProperties.ErrorCountIsFailedChecks | src/utils/templateValidator.ts:23-75 | The checks are additive: the error count is the number of failed checks. |
| TemplateValidatorProperties.MissingIdAndNoServices | src/utils/templateValidator.ts:26-61 | A missing `id` together with an empty `awsServices` gives an invalid result with at least two errors, one with field `id` and one with field `educationalContent.awsServices`. |
| TemplateValidatorProperties.ValidIffMeetsSchema | src/utils/templateValidator.ts:22-81 | A record validates exactly when it meets the schema, stated field by field. |
| TemplateValidatorProperties.ValidateAllThrows | src/utils/templateValidator.ts:93-100 | `validateTemplates` throws exactly when one of the records throws. |
| TemplateValidatorProperties.ValidateAllValid | src/utils/templateValidator.ts:93-100 | The valid list is the input filtered by validity, in input order. |
| TemplateValidatorProperties.ValidateAllInvalid | src/utils/templateValidator.ts:93-100 | The invalid list holds exactly the invalid records, in input order. |
| TemplateValidatorProperties.ValidateAllInvalidErrors | src/utils/templateValidator.ts:94-98 | Each invalid entry carries a non-empty error list, namely the one `validateTemplate` returned for its record. |
| TemplateValidatorProperties.ValidateAllSizes | src/utils/templateValidator.ts:90-102 | The two list sizes add up to the input length. |
| TemplateLoader.TemplateId | src/utils/templateLoader.ts:42 | The reported id is the record's `id` when truthy, otherwise the string `unknown`. |
| TemplateLoader.LoadTemplates | src/utils/templateLoader.ts:38-53 | It throws exactly when the catalog throws. The templates are the valid records in catalog order. Each error entry corresponds, in order, to one invalid record and carries its id or `unknown` and its non-empty errors. |
| TemplateLoader.TemplatesByCategory | src/utils/templateLoader.ts:59-62 | The result is the valid records whose `owaspCategory` equals the category, in catalog order. |
| TemplateLoader.FindByFieldInCatalog | src/utils/templateLoader.ts:67-78 | Searching the loaded list finds the first valid record with the field value, or nothing exactly when there is none. |
| TemplateLoader.TemplateLookup | src/utils/templateLoader.ts:67-78 | This is `getTemplateById` on the `id` key and `getTemplateByType` on `type`. It returns undefined exactly when no valid record has the value, and otherwise the first valid record that does. It throws exactly when loading throws. |
| TemplateLoader.UniqueOwaspCategories | src/utils/templateLoader.ts:84-87 | The categories are duplicate-free, and a category occurs exactly when some valid record has it. |
| TemplateLoader.LookupsReturnValidTemplates | src/utils/templateLoader.ts:59-78 | Every loaded template, and every lookup result, validates with no errors. |
| HistoryManager.EmptyHistory | src/utils/historyManager.ts:50-57 | No sessions, no encounters and both totals zero. |
| HistoryManager.EmptyHistoryConsistent | src/utils/historyManager.ts:50-57 | The empty history satisfies the bookkeeping invariant. |
| HistoryManager.HistoryStore.constructor | src/utils/historyManager.ts:14-34 | The store starts from the stored history. |
| HistoryManager.HistoryStore.ResetHistory | src/utils/historyManager.ts:62-64 | After a reset, the history read next is the empty one. |
| HistoryManager.HistoryStore.StartSession | src/utils/historyManager.ts:70-96 | Appends the new record (no fixes, `totalCount` is the list length, not completed), adds one session, leaves `totalFixes` alone, adds one encounter per listed type, returns the record and keeps the invariant. |
| HistoryManager.HistoryStore.RecordFix | src/utils/historyManager.ts:102-115 | Adds one fix to the first session with the id and one to `totalFixes`, changes nothing for an unknown id, and keeps the invariant. |
| HistoryManager.HistoryStore.CompleteSession | src/utils/historyManager.ts:121-132 | Stamps the first session with the id as completed, changes nothing else, changes nothing for an unknown id, and keeps the invariant. |
| HistoryManager.FindSession | src/utils/historyManager.ts:104 | Finds the first session with the id, or nothing exactly when no session has it. |
| HistoryManager.BumpCount | src/utils/historyManager.ts:91 | One update adds 1 to that type's count and leaves every other count alone. |
| HistoryManager.AddEncountersCount | src/utils/historyManager.ts:90-92 | The `forEach` raises each type's count by its number of occurrences in the list. |
| HistoryManager.AddEncountersKeys | src/utils/historyManager.ts:90-92 | After the `forEach` the keys are the old keys followed by the new types in first-occurrence order, with no duplicates. |
| HistoryManager.AddEncountersPositive | src/utils/historyManager.ts:90-92 | Every stored count stays positive. |
| HistoryManager.SumFixedUpdate | src/utils/historyManager.ts:111-112 | Replacing one session changes the fix sum by the difference, so one `fixedCount++` matches one `totalFixes++`. |
| HistoryManager.SortByCount | src/utils/historyManager.ts:149-151 | The sorted entries have non-increasing counts, are a permutation of the input, and keep the input order among equal counts. |
| HistoryManager.InsertByCountStable | src/utils/historyManager.ts:151 | One insertion puts the entry after every entry of equal count. |
| HistoryManager.CompletionRate | src/utils/historyManager.ts:153-156 | The rate is 0 with no sessions, otherwise 100 times completed over total. It is never negative and is at most 100 on a consistent history. |
| HistoryManager.GetStatistics | src/utils/historyManager.ts:138-165 | It returns the totals as stored and the keys in property order. `mostEncountered` is sorted, a permutation and stable. It also returns the completion rate. |
| HistoryManager.UniqueCategoriesAreCounted | src/utils/historyManager.ts:147 | On a consistent history the categories are distinct and are exactly the types with a non-zero count. |
| HistoryManager.SliceStart | src/utils/historyManager.ts:175 | `slice` start semantics: a negative start counts from the end and is clamped to 0, and a large one is clamped to the length. |
| HistoryManager.RecentSessionsWindow | src/utils/historyManager.ts:175 | `slice(-limit)` is the last `limit` sessions for a positive limit, all sessions for 0, and all but the first `-limit` for a negative limit. |
| HistoryManager.Flatten | src/utils/historyManager.ts:178 | A type is in the flattened list exactly when some session lists it. |
| HistoryManager.RecentlyEncountered | src/utils/historyManager.ts:171-182 | The result is duplicate-free and holds exactly the types of the selected sessions. |
| HistoryManager.RecentlyEncounteredOrder | src/utils/historyManager.ts:181 | The types appear in the order of their first occurrence. |
| HistoryManager.TypesToAvoid | src/utils/historyManager.ts:188-191 | The result is duplicate-free and holds exactly the types of the last two sessions. |
| CorruptionContext.GetCorruptionState | src/contexts/CorruptionContext.tsx:52-56 | At most 20 is sanctified, over 20 up to 70 is possessed, and over 70 is damned, each as an if-and-only-if. |
| CorruptionContext.TierMonotone | src/contexts/CorruptionContext.tsx:52-56 | A higher level never gives a lower tier. |
| CorruptionContext.GetStatusEmoji | src/components/Dashboard.tsx:20-25 | At least 71 is a skull, at least 21 a ghost, above 0 sparkles, and otherwise an angel, each as an if-and-only-if. |
| CorruptionContext.EmojiAgreesOnWholeLevels | src/mcp/corruption-server.ts:56-68 | On whole-number levels the emoji tier equals `getCorruptionState`; 0 and 1..20 split the sanctified tier. |
| CorruptionContext.EmojiDisagreesBetweenWholeLevels | src/components/DashboardDynamic.tsx:58-63 | At 20.5 the tier is possessed but the emoji is sparkles; at 70.5 the tier is damned but the emoji is a ghost. |
| CorruptionContext.InitialState | src/contexts/CorruptionContext.tsx:63-70 | Level 100 (damned), no vulnerabilities, loading, no update yet, disconnected, backoff equal to the poll interval, no errors. |
| CorruptionContext.FetchStep | src/contexts/CorruptionContext.tsx:72-110 | After any poll loading is over. An OK response with a document sets the document's level and vulnerabilities, the update time and connected, and resets the backoff and the count. A network failure, a non-OK status or an unreadable body keeps the level, the vulnerabilities and the update time. It adds 1 to the count, and the status becomes `error` exactly when the count reaches 3 or it already was an error; otherwise the status is unchanged. The backoff becomes the minimum of twice the old backoff and 8000. |
| CorruptionContext.Expose | src/contexts/CorruptionContext.tsx:127-134 | The exposed `corruptionState` is the tier of the current level, and the other fields are the state's. |
| CorruptionContext.RunState | src/contexts/CorruptionContext.tsx:72-110 | After a run of polls: loading is over; the level and vulnerabilities come from the last readable document, or are unchanged when there was none; the count is the failures since the last success; the backoff is the poll interval after a success. |
| CorruptionContext.RunStatus | src/contexts/CorruptionContext.tsx:97-103 | Once a poll has succeeded, the status is `error` exactly when the last three or more polls failed, and `connected` otherwise. |
| CorruptionContext.FailureBackoff | src/contexts/CorruptionContext.tsx:105-106 | After `k` failures in a row the backoff is `min(b * 2^k, 8000)`, so it never exceeds 8000. |
| CorruptionContext.ThreeFailuresReportError | src/contexts/CorruptionContext.tsx:100-103 | From the initial state with the default interval, three failed polls give status `error`, count 3 and backoff 8000. |
| CorruptionContext.StaleHookNeverReportsError | src/contexts/CorruptionContext.tsx:72-110 | As written, with a constant poll interval, no run of polls ever reaches `error`, and the stored count stays at most 1. |
| CorruptionContext.StaleHookMissesThreeFailures | src/contexts/CorruptionContext.tsx:97-103 | The three failures that make the intended provider report an error leave the hook as written disconnected. |
| CorruptionContext.CorruptionProvider.constructor | src/contexts/CorruptionContext.tsx:63-70 | The provider's fields start at the initial state. |
| CorruptionContext.CorruptionProvider.FetchCorruptionState | src/contexts/CorruptionContext.tsx:72-110 | The setters leave the provider in the state `FetchStep` gives from its old state. |
| CorruptionContext.CorruptionProvider.Value | src/contexts/CorruptionContext.tsx:127-134 | The value handed to consumers is the exposed state, and its tier is that of the current level. |

## Left out

- The error `message` of a thrown `TypeError`. The model keeps a fixed text; the browser's wording varies.
- Browser storage. The model leaves out localStorage, `JSON.parse` and `JSON.stringify` and their failures, and `getHistory`'s structure check (`historyManager.ts:14-45`). The stored history is passed to the `HistoryStore` constructor, and `saveHistory` is the field assignment.
- Special property names. Integer-like keys such as `"12"`, which a JavaScript object lists before all other keys, are not modelled in `encounteredTypes`. Keys inherited from `Object.prototype`, such as `__proto__` or `toString`, are not modelled either.
- HistoryManager.CompletionRate: computed in exact real arithmetic, not IEEE-754 doubles, so the rounding of `(completed / total) * 100` is not modelled.
- The network fetch itself: the URL, the cache-busting query and the headers (`CorruptionContext.tsx:74-79`). A poll's outcome is an input.
- Documents whose fields have the wrong type. A body that parses to something other than a state document or `null` (say, `5`) would store `undefined` values. That case is not modelled.
- React scheduling: `setInterval`, `clearInterval` and the effect that re-runs when `backoffDelay` changes (`CorruptionContext.tsx:112-125`). That effect fetches again immediately each time the backoff changes. The model only has single polls and runs of polls.
- The CSS variables `injectCSSVariables` writes (`CorruptionContext.tsx:37-50`). This is floating-point styling of the DOM.
- `useCorruption`'s error when it is used outside a provider (`CorruptionContext.tsx:143-149`). This is React context plumbing.
- Rendering, audio, the MCP server's text output, and the intentionally vulnerable sample components.
- The template catalog imported at `templateLoader.ts:10-17` is not part of this model. The loader takes the catalog as a parameter, so facts about the shipped templates are not stated.
- A `pollInterval` that is not a whole number of milliseconds. The interval and the backoff are integers here.

## Findings

| source | as written | input that shows it | evidently intended | confidence | as-written member | corrected member |
|---|---|---|---|---|---|---|
| src/contexts/CorruptionContext.tsx:97-110 | The callback is memoised with `useCallback` on `[pollInterval]` only, but it reads `consecutiveErrors`. It therefore sees the count from the render that created it, which is 0 while the interval stays the same. Every failure stores a count of 1, so the status never becomes `error`. | Three network failures in a row from the initial state with the default 1000 ms interval: the status stays `disconnected`. | The comment's rule: report `error` after 3 consecutive failures. That needs the current count to be read, for example through a functional update or a ref. | not executed; follows from React's closure semantics | CorruptionContext.StaleHookMissesThreeFailures | CorruptionContext.ThreeFailuresReportError |
