# Interactive npm script runner: selection engine

This project models the core of a terminal tool that lists the scripts of a
project's `package.json`, filters them with a fuzzy search box, hides or shows
npm hook scripts, and runs the chosen one as `npm run <name>`. It also proves
properties of that model.

The modelled parts are:

* the fuzzy matcher, a case-insensitive subsequence test;
* the hook classifier;
* manifest validation: script-name checking, extraction of the `scripts` object,
  and the load step with its error paths;
* query sanitising in the search box;
* the list's key handler;
* the execution controller;
* the `App` state machine that ties them together.

Module by module:

| module | source | form |
|---|---|---|
| `Seqs` | shared | the subsequence relation and an order-preserving filter, with their lemmas |
| `Search` | `source/utils/search.ts` | `FuzzyMatch` is a method with the source's two-index `while` loop. It is proved equal to the predicate `Matches`, which is a non-greedy subsequence definition. |
| `Scripts` | `source/utils/script.ts` | the `Script` record and the classifier `IsHookScript` |
| `UseScript` | `source/hooks/useScript.ts` | a `Json` datatype for the parsed manifest, and the function `Extract`. `ExtractScripts` is the source's method, with its loop in `CollectScripts`, proved equal to `Extract`. The class `ScriptStore` holds the `scripts` state and `LoadPackageJson`. |
| `SearchInput` | `source/components/SearchInput.tsx` | `Sanitize` and the JavaScript `trim` white-space set |
| `ScriptList` | `source/components/ScriptList.tsx` | the function `HandleKey`, from a decoded key to a list action |
| `UseScriptExecution` | `source/hooks/useScriptExecution.ts` | the class `ScriptExecution` with its one-shot `isExecuted` flag, the spawn request, and the child exit and error handlers |
| `Host` | process globals | the class `Process`: `process.exitCode`, the UI's `exit()` request, and the lines written to standard output and standard error |
| `App` | `source/components/App.tsx`, `source/hooks/useAppInput.ts` | the class `App` with `searchQuery`, `selectedIndex` and `showHookScripts`, plus the visible-list function `FilteredScripts` |

Effects become explicit inputs or outputs:

* A child process becomes a `SpawnRequest` value returned to the caller.
* The child's exit and error events are `ChildEvent` values passed in.
* Reading and parsing `package.json` is a `Result<Json, string>` passed in.
* `process.platform` is a string parameter.

## Model

| member | source | states |
|---|---|---|
| Search.FuzzyMatch | source/utils/search.ts:11-26 | The scan returns true exactly when the lower-cased pattern is a subsequence of the lower-cased string. The greedy loop decides the non-greedy definition. |
| Seqs.GreedyStep | source/utils/search.ts:18-23 | When the current pattern and string characters are equal, consuming both loses no match. This justifies advancing `patternIdx` on every equal pair. |
| Seqs.SubsequenceLength | source/utils/search.ts:25 | A subsequence is never longer than its source sequence. |
| Search.EmptyPatternMatchesAll | source/utils/search.ts:18-25 | The empty pattern matches every string, including the empty one. |
| Search.NonEmptyPatternRejectsEmpty | source/utils/search.ts:18-25 | A non-empty pattern never matches the empty string. |
| Search.LongerPatternNeverMatches | source/utils/search.ts:18-25 | A pattern longer than the string never matches it. |
| Search.LowerOfUpper | source/utils/search.ts:12-13 | Lower-casing an upper-cased string gives the lower-cased original. |
| Search.LowerIdempotent | source/utils/search.ts:12-13 | Lower-casing twice is the same as lower-casing once. |
| Search.MatchIgnoresCase | source/utils/search.ts:12-13 | Arguments that agree up to ASCII case give the same answer, and upper- or lower-casing either argument changes nothing. |
| Search.InsertKeepsMatch | source/utils/search.ts:18-25 | Inserting any character anywhere into a matched string keeps the match. |
| Search.PatternPrefixMatches | source/utils/search.ts:18-25 | Every prefix of a matching pattern also matches. |
| Search.SubsequenceExamples | source/utils/search.ts:11-26 | `bd` matches `build` and `bundle`. |
| Search.MissingCharacterExample | source/utils/search.ts:11-26 | `bd` does not match `deploy`. |
| Search.OrderMattersExample | source/utils/search.ts:11-26 | `dlib` does not match `build`: the characters must occur in order. |
| Search.CaseExample | source/utils/search.ts:11-26 | `Build` matches `bUILD`. |
| Scripts.IsHookScript | source/utils/script.ts:27-35 | A name is a hook exactly when it is one of the six lifecycle names, or it is `pre` followed by a non-empty rest, or `post` followed by a non-empty rest. |
| Scripts.LifecycleNamesAreHooks | source/utils/script.ts:14-21 | Each of `install`, `prepare`, `publish`, `version`, `dependencies` and `shrinkwrap` is a hook. |
| Scripts.PrefixedNamesAreHooks | source/utils/script.ts:31-32 | `pre` or `post` followed by any non-empty rest is a hook. |
| Scripts.HookIsPrefixed | source/utils/script.ts:27-35 | Conversely, a hook outside the lifecycle set is `pre` or `post` followed by a non-empty rest. |
| Scripts.ShortNamesAreNotHooks | source/utils/script.ts:31-32 | The empty name, `p`, `pr`, `po`, `pre` and `post` are not hooks. A bare prefix is not enough. |
| Scripts.CapitalisedPrefixIsNotHook | source/utils/script.ts:31-32 | `PreBuild` and `PostTest` are not hooks, because the prefix test is case-sensitive. |
| Scripts.InfixIsNotHook | source/utils/script.ts:31-32 | `compress` and `represent` are not hooks: `pre` counts only at the start. |
| Scripts.OrdinaryNamesAreRegular | source/utils/script.ts:27-35 | `build`, `bundle` and `test` are regular scripts. |
| Scripts.HookPartition | source/utils/script.ts:27-35 | Splitting names into hooks and regular scripts loses and duplicates nothing. The lengths add up, the multisets add up, and no name lands in both parts. |
| Seqs.FilterMembers | source/components/App.tsx:35-42 | The filter keeps exactly the elements that satisfy the predicate, and is no longer than its input. |
| Seqs.FilterIsSubsequence | source/components/App.tsx:35-42 | The filter keeps loaded order: its result is a subsequence of the input. |
| Seqs.FilterPartition | source/components/App.tsx:35-42 | Filtering with a predicate and with its negation splits the input; lengths and multisets add up. |
| Seqs.FilterPartitionDisjoint | source/components/App.tsx:35-42 | No element kept by a predicate is kept by its negation. |
| Seqs.FilterExtensional | source/components/App.tsx:35-42 | Predicates that agree on the input give the same filtered list. |
| UseScript.MatchesNamePattern | source/hooks/useScript.ts:11 | `^[a-zA-Z0-9-_:.]+$` holds exactly for non-empty strings whose characters all lie in that class. |
| UseScript.IsValidScriptName | source/hooks/useScript.ts:7-12 | A name is valid exactly when it has 1 to 100 characters, all from `[a-zA-Z0-9-_:.]`. |
| UseScript.Truthy | source/hooks/useScript.ts:20 | A JSON value is falsy exactly when it is `null`, `false`, the number 0 or the empty string. |
| UseScript.TypeOf | source/hooks/useScript.ts:20-26 | `typeof` gives `object` exactly for `null`, arrays and objects. Its result is always one of `object`, `boolean`, `number` and `string`. |
| UseScript.Lookup | source/hooks/useScript.ts:20 | A found member is in the object. When nothing is found, no member has that key. |
| UseScript.Extract | source/hooks/useScript.ts:17-42 | Three outcomes. (1) "No scripts found" exactly when the value is not an object with a truthy `scripts` member. (2) "Invalid scripts format" exactly when that member is truthy but not a plain object, arrays included. (3) Otherwise, exactly when `scripts` is a plain object, the result is a success holding its valid entries in order. |
| UseScript.ExtractScripts | source/hooks/useScript.ts:17-42 | The method, with its two guards and its loop, computes exactly `Extract`. |
| UseScript.CollectScripts | source/hooks/useScript.ts:31-39 | The `for`/`push` loop over `Object.entries` computes exactly `ValidScripts`. |
| UseScript.EntryScripts | source/hooks/useScript.ts:33-38 | An entry contributes at most one script. It contributes one exactly when its key is a valid name and its value a string, and that script has the key as its name and the string as its command. |
| UseScript.ValidScripts | source/hooks/useScript.ts:31-39 | The collected list has at most one script per entry, and every name in it is valid. |
| UseScript.ValidScriptsSound | source/hooks/useScript.ts:32-38 | Every extracted script comes from an entry with a valid name and a string value, with that name and that string as its command. |
| UseScript.ValidScriptsComplete | source/hooks/useScript.ts:32-38 | Every entry with a valid name and a string value is extracted. |
| UseScript.ValidScriptsInOrder | source/hooks/useScript.ts:31-41 | The extracted scripts appear in entry order. It returns strictly increasing entry positions, one per script. |
| UseScript.ValidScriptsDistinct | source/hooks/useScript.ts:31-41 | When object keys are distinct, extracted names are distinct. |
| UseScript.LoadResult | source/hooks/useScript.ts:51-68 | Loading succeeds exactly when reading succeeds and extraction yields a non-empty list, which is then the result. Read and extraction errors pass through, and an empty list becomes "No npm scripts detected." |
| UseScript.ScriptStore.constructor | source/hooks/useScript.ts:48 | The script list starts empty. |
| UseScript.ScriptStore.IsScriptsEmpty | source/hooks/useScript.ts:77 | `isScriptsEmpty` holds exactly when the script list is empty. |
| UseScript.ScriptStore.LoadPackageJson | source/hooks/useScript.ts:51-68 | On success the scripts are stored and the host is untouched. On failure the scripts are kept, `Failed to load npm scripts: <message>` goes to standard output, the exit code becomes 1 and exit is requested. |
| UseScript.EmptyScriptsExample | source/hooks/useScript.ts:58 | A manifest with an empty `scripts` object fails with "No npm scripts detected." |
| SearchInput.WhitespaceIsTrimmedCharacters | source/components/SearchInput.tsx:17 | The code-point ranges used by the white-space test pick out exactly the 25 listed characters that `trim()` removes: the ECMAScript white-space and line-terminator code points. |
| SearchInput.TrimStart | source/components/SearchInput.tsx:17 | The result is a suffix of the input that does not start with white space, and everything cut off is white space. |
| SearchInput.TrimEnd | source/components/SearchInput.tsx:17 | The result is a prefix of the input that does not end with white space, and everything cut off is white space. |
| SearchInput.Trim | source/components/SearchInput.tsx:17 | The result is the contiguous part of the input that starts where `TrimStart` starts. It has no white space at either end, and everything cut off before and after it is white space. |
| SearchInput.Sanitize | source/components/SearchInput.tsx:14-18 | The sanitised query has at most 100 characters and no surrounding white space. |
| SearchInput.TrimOfTrimmed | source/components/SearchInput.tsx:17 | A string with nothing to trim is its own trim. |
| SearchInput.SanitizeEmpty | source/components/SearchInput.tsx:15 | The empty query sanitises to the empty string. |
| SearchInput.SanitizeTruncatesThenTrims | source/components/SearchInput.tsx:17 | Truncation to 100 characters comes before trimming. |
| SearchInput.SanitizeKeepsCleanQuery | source/components/SearchInput.tsx:14-18 | A query of at most 100 characters with no surrounding white space is kept unchanged. |
| SearchInput.SanitizeIdempotent | source/components/SearchInput.tsx:14-18 | Sanitising twice is the same as sanitising once. |
| SearchInput.TruncationBeforeTrimExample | source/components/SearchInput.tsx:17 | A space followed by 100 letters sanitises to 99 letters. |
| ScriptList.NextUp | source/components/ScriptList.tsx:35 | For an in-range index, Up gives the index one below, modulo the length. |
| ScriptList.NextDown | source/components/ScriptList.tsx:40 | For an in-range index, Down gives the index one above, modulo the length. |
| ScriptList.HandleKey | source/components/ScriptList.tsx:29-49 | An empty list ignores every key. On a non-empty list, Up selects `NextUp` and Down selects `NextDown` of the current index, so an in-range index stays in range. Return yields execution exactly when the index holds a script, and execution carries that script's name. |
| ScriptList.ArrowsStayInRange | source/components/ScriptList.tsx:33-42 | Both arrows keep an in-range index in range. Up from the top wraps to the last entry, and down from the last entry wraps to the top. |
| ScriptList.UpDownInverse | source/components/ScriptList.tsx:33-42 | Up then down, or down then up, returns to the starting index. |
| ScriptList.ReturnRunsSelectedName | source/components/ScriptList.tsx:44-46 | Return on an in-range index executes that script's name. |
| UseScriptExecution.NpmCommand | source/hooks/useScriptExecution.ts:6-9 | On `win32` the executable is `npm.cmd`; elsewhere it is `npm`. |
| UseScriptExecution.CodeText | source/hooks/useScriptExecution.ts:33 | `${code}` prints `null` for no code. A non-negative code prints as decimal digits, and a negative code as `-` followed by digits. |
| UseScriptExecution.NatToString | source/hooks/useScriptExecution.ts:33 | The decimal text of a number is a non-empty string of digits, with no leading zero for a positive number. |
| UseScriptExecution.NatToStringRoundTrip | source/hooks/useScriptExecution.ts:33 | Reading back the decimal digits of a number gives the number. |
| UseScriptExecution.NegativeCodeRoundTrip | source/hooks/useScriptExecution.ts:33 | A negative exit code printed in decimal reads back as itself. |
| UseScriptExecution.NonNegativeCodeRoundTrip | source/hooks/useScriptExecution.ts:33 | A non-negative exit code printed in decimal reads back as itself. |
| UseScriptExecution.CodeTextRoundTrip | source/hooks/useScriptExecution.ts:33 | The printed code, an integer or `null`, determines the code. |
| UseScriptExecution.ChildOutcome | source/hooks/useScriptExecution.ts:31-40 | Every child event requests exit. There is a diagnostic exactly when the event is an error or an exit code other than 0, `null` included. The exit diagnostic names the code exactly. The error diagnostic is `Failed to execute script: <message>`. |
| UseScriptExecution.ScriptExecution.constructor | source/hooks/useScriptExecution.ts:16 | A new controller has not executed a script. |
| UseScriptExecution.ScriptExecution.ExecuteScript | source/hooks/useScriptExecution.ts:19-29 | It logs `\nExecuting: npm run <name>\n` to standard output, requests a spawn of the platform's npm with arguments `run` and the name, and sets `isExecuted`. Nothing else on the host changes. |
| UseScriptExecution.ScriptExecution.OnChildEvent | source/hooks/useScriptExecution.ts:31-40 | It writes the diagnostic, if any, to standard error and requests exit. The exit code and standard output are unchanged. |
| UseScriptExecution.ExitCodeExamples | source/hooks/useScriptExecution.ts:31-36 | Exit code 2 prints `\nScript exited with code 2`, code 0 prints nothing, and `null` prints `... code null`. All three request exit. |
| Host.Process.ExitStatus | source/hooks/useScript.ts:65 | An unset `process.exitCode` means exit status 0; otherwise the status is the code that was set. `App.App.Mount` leaves it at 1 after a failed load. `App.App.HandleInput` and `App.App.OnChildEvent` never change it. |
| App.FilteredScripts | source/components/App.tsx:33-44 | The visible list holds exactly the loaded scripts that match the query (or any script, when the query is empty) and that are not hooks unless the toggle is on. It keeps loaded order. |
| App.EmptyQueryShortcut | source/components/App.tsx:36-37 | The `searchQuery === ''` test is only a shortcut. Running the matcher on every name gives the same list. |
| App.FilteredScriptsCons | source/components/App.tsx:35-42 | The visible list is built one loaded script at a time. |
| App.HiddenFilterExample | source/components/App.tsx:39 | With hooks hidden, `build` and `test` pass the filter and `pretest` does not. |
| App.HooksHiddenExample | source/components/App.tsx:33-44 | With hooks hidden, `build`, `pretest`, `test` show as `build`, `test`. |
| App.HooksShownExample | source/components/App.tsx:33-44 | With the toggle on, all three show. |
| App.QueryFilterExample | source/components/App.tsx:36-41 | With the query `bd` and hooks hidden, `build` and `bundle` pass the filter and `deploy` does not. |
| App.QueryExample | source/components/App.tsx:33-44 | The query `bd` shows `build` and `bundle` and drops `deploy`. |
| App.App.IsInteractive | source/components/App.tsx:49 | The render guard: the search box and list take input exactly when scripts are loaded and none has been executed. |
| App.App.constructor | source/components/App.tsx:18-24 | The initial state: empty query, cursor 0, hook toggle from the command-line flag, no scripts and nothing executed. The cursor invariant holds. |
| App.App.Mount | source/hooks/useScript.ts:51-73 | The mount-time load. On success it stores the scripts, resets the cursor and leaves the host's output, exit code and exit request unchanged. On failure it keeps the state, prints `Failed to load npm scripts: <message>`, sets exit code 1 and requests exit. Standard error is never written. The cursor invariant is preserved. |
| App.App.OnTab | source/components/App.tsx:26-31 | Tab flips the hook toggle and puts the cursor at 0. The query is unchanged. |
| App.App.OnQueryChange | source/components/SearchInput.tsx:29-32 | The sanitised raw value becomes the query. The cursor goes to 0 exactly when the query changed; otherwise it is kept (App.tsx:45-47). |
| App.App.OnListKey | source/components/App.tsx:67-73 | The list's action is applied. A selection change sets the cursor. An execution starts the selected script through the controller and returns its spawn request; nothing else changes. |
| App.App.HandleInput | source/hooks/useAppInput.ts:13-20 | Escape requests exit and Tab flips the toggle, at any time. While `App` renders (App.tsx:49), any other key acts through the list's handler. The new cursor, spawn, executed flag and output are those of `OnListKey` for that key, and the query and toggle are kept. While `App` renders, a text change also follows `OnQueryChange`'s rules for the query and cursor, keeps the toggle and leaves the host untouched. Tab leaves the host and the executed flag untouched, and Escape writes nothing to standard output. When `App` does not render, keys other than Escape and Tab, and text changes, leave both the `App` state and the host untouched. A spawn happens exactly on Return with a non-empty visible list while interactive, so at most one script is ever started. The cursor invariant is preserved, and the exit code and exit status never change. |
| App.App.OnChildEvent | source/hooks/useScriptExecution.ts:31-40 | The child's event writes its diagnostic and requests exit. It never sets an exit code, so the exit status is unchanged. |

## Left out

- Rendering is not modelled: the JSX layout, colours, the "(hook)" tag, the "No scripts matching" text and the hint line.
- Command-line parsing in `source/cli.tsx` is reduced to the `initialShowHooks` argument of the `App` constructor. TTY detection is not part of this model.
- The `App` constructor has no default for `initialShowHooks`, unlike App.tsx:18, which defaults it to `false`. The default is not modelled because `cli.tsx:39` always passes the flag, and the flag itself defaults to `false` (cli.tsx:30-34).
- Reading `package.json` from the working directory and `JSON.parse` are not modelled. The load step receives the parsed value, or the message of the error they raise.
- `Json` object members are taken to be already in `Object.entries` order, with one member per key. The reordering of integer-like keys, and the last-value-wins rule for duplicate keys in `JSON.parse`, are not modelled.
- `Json` numbers are reals. Their truthiness is `n != 0`, which also covers `-0`; there is no NaN in JSON.
- Spawning the child is a returned `SpawnRequest`. Standard-stream inheritance, the child itself and its run time are not modelled. The `exit` and `error` events arrive through `OnChildEvent`.
- Search.FuzzyMatch: `toLowerCase` is modelled for ASCII letters only. Full Unicode case mapping is not modelled, for example the Kelvin sign or U+0130, which changes length.
- Search.FuzzyMatch: strings are sequences of Unicode scalar values, not UTF-16 code units. A character outside the Basic Multilingual Plane counts as one position here and as two in the source.
- SearchInput.Sanitize: `slice(0, 100)` counts Unicode scalar values, not UTF-16 code units. A query with astral characters may be cut at a different point, and the source can split a surrogate pair.
- SearchInput.Sanitize: the `typeof query !== 'string'` guard is not modelled, because the model's input is always a string.
- React scheduling is not modelled. Each state update, together with the effect that resets the cursor when the visible list changes, is one atomic step. A sanitised query equal to the current one leaves the cursor where it was, as React skips that update.
- The text input's own editing (cursor movement, insertion) is not modelled. A text change arrives as the new raw value through `App.App.HandleInput`.
- UseScriptExecution.ScriptExecution.ExecuteScript does not itself refuse a second call, just as the source's controller does not. Only the `App` guard (App.tsx:49) keeps a second script from starting, and `App.App.HandleInput` proves that guard.
- A failing child does not change the host's exit status. The exit handler (useScriptExecution.ts:31-36) only prints `Script exited with code …` and calls `exit()`, so the status stays 0 unless loading had already set it to 1.
- Escape's effect is only the exit request. Unmounting the UI and the process ending afterwards are not modelled.
