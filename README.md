# markscript: the executable-block engine, modelled in Dafny

markscript runs the JavaScript embedded in a Markdown document. `evaluate`
parses the document into a tree and walks it in pre-order. For each node,
`getExecutableContents` decides whether the node is code to run:

- a fenced block whose info string is `""`, `"js"` or `"javascript"`;
- an HTML block whose trimmed text starts with `<script type="text/markscript"`.

Every such source runs in the sandbox against one shared `Environment`. Before
each run the working directory is switched to `config.workingDir` when it
differs from the current one, and it is switched back afterwards. The value of
the last run is returned. `defaults` completes the caller's configuration in
place. The environment binds the caller's globals and rewrites `require` paths
through `moduleAliases`.

Layout:

- `js_strings.dfy` (`JsStrings`): the JavaScript string operations the detector
  uses, on `seq<char>`. These are `indexOf`, `lastIndexOf`, `slice` (including
  its empty result when start is past end) and `trim`.
- `js_values.dfy` (`JsValues`): JavaScript values, property lookup, and the keys
  a `for…in` loop visits.
- `detector.dfy` (`Detector`): `startswith`, `getExecutableContents` and the
  lemmas that characterise it.
- `detector_examples.dfy` (`DetectorExamples`): the hidden-script cases of
  test/test-markscript.js, derived from those lemmas.
- `defaults.dfy` (`Defaults`): `defaults`. `Merged` is the specification.
  `JsObject.Defaults` is the in-place `for…in` loop, proved equal to it.
- `environment.dfy` (`Environments`): the `Environment` constructor, with the
  globals loop, and the alias rewrite done by `require`.
- `driver.dfy` (`Driver`): pre-order, and `Step`/`Run` as the specification of
  the walk. `Process` holds the process-wide working directory and the log of
  `process.chdir` calls. `Evaluate` is the imperative walk, proved equal to `Run`.
- `driver_properties.dfy` (`DriverProperties`): what the walk guarantees.

The sandbox `vm.runInNewContext` is a parameter `exec: Invocation -> Completion`.
Each `Invocation` records the source, the environment's members, the file name
and the current directory. A `Completion` is either a normal value together with
the members the code left, or a thrown value. The commonmark parser is left out,
so `Evaluate` takes the parsed `Node` tree. The specification of the walk
(`Setup`, `Step`, `Run`) takes the per-node detector as a field.
`Evaluate` wires in `GetExecutableContents`, and the walk lemmas hold for any
detector. `DEFAULT_CONFIG.workingDir` is
`process.cwd()` evaluated when the library is loaded, so it is the parameter
`loadCwd`.

Two details of the code shape the walk:

- The restore `process.chdir(cwd)` at lib/markscript.js:113 is not in a
  `finally`. After a block throws, the directory stays changed
  (`ThrowLeavesBlockDir`).
- That restore is unconditional. Every block that returns normally therefore
  logs a `chdir` back to the saved directory, even when no switch happened.

`filename` is an arbitrary value. cli.js:16 and the tests call `evaluate(input)`
without one, so there it is `undefined`. It is handed unchanged to
`new Environment` and to every sandbox call.

## Model

| member | source | states |
|---|---|---|
| JsStrings.IndexOf | lib/markscript.js:27 | `indexOf` is -1 exactly when the pattern does not occur; otherwise it is an occurrence with none before it |
| JsStrings.LastIndexOf | lib/markscript.js:41 | `lastIndexOf` is -1 exactly when the pattern does not occur; otherwise it is an occurrence with none after it |
| JsStrings.Slice | lib/markscript.js:43 | `slice(start, end)` is `s[start..end]` for in-range indices and empty when `0 <= end <= start` |
| JsStrings.Trim | lib/markscript.js:37 | `trim` returns a contiguous part of the string with only whitespace cut from the front and back, and the result neither starts nor ends with whitespace |
| JsStrings.TrimOf | lib/markscript.js:37 | `trim` removes exactly the surrounding whitespace and keeps the inner text unchanged |
| Detector.StartsWith | lib/markscript.js:26-28 | `indexOf(prefix) === 0` holds exactly when `prefix` is a prefix of the string |
| Detector.GetExecutableContents | lib/markscript.js:32-52 | nodes other than HtmlBlock and FencedCode yield null; a FencedCode node yields its text unchanged exactly when its info is "", "js" or "javascript", and null otherwise; a non-null HtmlBlock result implies the trimmed text starts with the script prefix |
| Detector.ClosingTagFound | lib/markscript.js:41-42 | once the prefix matched, `end > 0` holds exactly when `</` occurs in the trimmed text |
| Detector.HtmlBlockRule | lib/markscript.js:36-45 | an HtmlBlock yields non-null exactly when its trimmed text has the prefix and contains both `>` and `</` |
| Detector.ScriptTagExtraction | lib/markscript.js:38-44 | for a trimmed text with the prefix, the result is the text between the first `>` and the last `</`, and it is empty when that `</` comes before that `>` |
| Detector.HtmlBlockExtraction | lib/markscript.js:40-44 | the result is the text between the first `>` and the last `</`, and it is empty when that `</` comes before that `>` |
| Detector.WellFormedScriptTag | lib/markscript.js:33-45 | a script block yields exactly its body, whatever that body holds. The attributes after `type` may be anything without `>`. The text between the final `</` and the end of the block may be anything without `<` that does not end in whitespace. The block may have surrounding whitespace |
| Detector.WithoutPrefixNotExecutable | lib/markscript.js:36-38 | an HtmlBlock whose trimmed text lacks the exact prefix yields null |
| DetectorExamples.PlainScriptTagRuns | test/test-markscript.js:54-58 | the test's `<script type="text/markscript">` block yields `var deadbeef, x = 4;` |
| DetectorExamples.WrongTypeDoesNotRun | test/test-markscript.js:60-61 | the same block with type `text/fooscript` yields null |
| DetectorExamples.AttributeBeforeTypeDoesNotRun | test/test-markscript.js:63-64 | the same block with `foo="bar"` before `type` yields null |
| DetectorExamples.ExtraAttributeRuns | test/test-markscript.js:66-67 | an extra attribute after `type` still yields the body |
| DetectorExamples.TabsInEndTagRun | test/test-markscript.js:69-70 | the end tag `</script\t\t>` still yields the body |
| DetectorExamples.LeadingSpacesRun | lib/markscript.js:37 | leading spaces and a trailing newline around the block are trimmed away, and the block yields its body |
| Defaults.Merged | lib/markscript.js:54-61 | the keys are those of `obj` and of the defaults together; every original key keeps its value; every missing key gets the default |
| Defaults.MergedIdempotent | lib/markscript.js:54-61 | applying the same defaults a second time changes nothing |
| Defaults.JsObject.Defaults | lib/markscript.js:55-59 | the in-place `for…in` loop leaves the object's properties equal to `Merged(old properties, defaults)` |
| Environments.InitialMembers | lib/markscript.js:67-77 | every global `k` is a member with value `globals[k]`; the only other members are `module` and `require` |
| Environments.Environment.constructor | lib/markscript.js:66-78 | the constructor's globals loop leaves the members equal to `InitialMembers` of `config.globals`, and it captures `config.moduleAliases` |
| Environments.AliasedPath | lib/markscript.js:69-72 | `require` throws a TypeError from `in` exactly when `moduleAliases` is a primitive. When the path is a key of an alias object it becomes that key's value, and a host object aliases nothing |
| Environments.Environment.Require | lib/markscript.js:68-74 | the environment's `require` throws exactly when the captured `moduleAliases` is a primitive; under an alias object the resolver gets the alias for a key and the path itself otherwise |
| Environments.UnaliasedPassesThrough | lib/markscript.js:68-74 | a path that is not an alias key reaches the resolver unchanged |
| Environments.AliasAppliedOnce | lib/markscript.js:70-72 | an aliased path is rewritten once to its alias, and an alias of the alias is not followed |
| Driver.PreOrder | lib/markscript.js:105 | the walk visits the root first |
| Driver.Enter | lib/markscript.js:108-111 | the switch into the block directory fails exactly when `workingDir` differs from the current directory and is not a string; otherwise it moves to the block directory, logging a `chdir` only when a switch happens |
| Driver.Step | lib/markscript.js:106-114 | a non-executable node changes nothing; an executable node that returns normally leaves the working directory as it found it; the log of sandbox calls only grows |
| Driver.Run | lib/markscript.js:104-115 | the pre-order callback walk: a walk that finishes ends in the directory it started in, and the log of sandbox calls only grows |
| Driver.Visit | lib/markscript.js:106-114 | the per-node callback, run imperatively on the process and the environment, does exactly what `Step` says and reports a throw exactly when `Step` aborts |
| Driver.DefaultConfig | lib/markscript.js:17-21 | `DEFAULT_CONFIG` has exactly the keys `globals`, `moduleAliases` and `workingDir`, with two empty objects and the directory the process was in at load time |
| Driver.ConfigFor | lib/markscript.js:17-21 | after `defaults` completes the optional config with `DEFAULT_CONFIG`, `globals`, `moduleAliases` and `workingDir` are present |
| Driver.Process.Chdir | lib/markscript.js:110 | `process.chdir` moves to a string directory and logs the call; it throws for any other value |
| Driver.Evaluate | lib/markscript.js:98-117 | the imperative walk returns, throws, leaves the process and calls the sandbox exactly as `Run` over the pre-order says; a given config object is completed in place |
| DriverProperties.PreOrderAllAppend | lib/markscript.js:105 | walking a list of sibling trees is walking each of them in turn |
| DriverProperties.SiblingOrder | lib/markscript.js:105 | a child's whole subtree is visited after its parent, after the earlier siblings' subtrees, and before the later ones |
| DriverProperties.ParentBeforeChildren | lib/markscript.js:105-107 | a node's own source runs before any source nested inside it |
| DriverProperties.StepExecutes | lib/markscript.js:106-113 | for an executable node that returns normally, the sandbox gets the node's source, the current members and the block directory; the result and members become what it returned; the directory is restored |
| DriverProperties.RunAppend | lib/markscript.js:105 | walking `a + b` is walking `a`, then `b` from where `a` finished, unless `a` threw |
| DriverProperties.NoExecutablesNoEffect | lib/markscript.js:106-107 | non-executable nodes are skipped: nothing runs and nothing changes |
| DriverProperties.RunsInOrder | lib/markscript.js:105-112 | the sandbox is called on exactly the executable sources, in pre-order |
| DriverProperties.SharedEnvironment | lib/markscript.js:103-112 | every block runs against the members the previous block left, so a `var` from an earlier block is visible later |
| DriverProperties.LastResultWins | lib/markscript.js:104-116 | the walk returns the value of the last sandbox call, or the earlier result when nothing ran |
| DriverProperties.WorkingDirScoped | lib/markscript.js:108-113 | every sandbox call runs in the block directory, and a walk that finishes ends in the directory it started in |
| DriverProperties.ChdirsPerBlock | lib/markscript.js:108-113 | each executed block calls `chdir(workingDir)` only when `workingDir` differs from the current directory, then calls `chdir` back to the saved one |
| DriverProperties.WorkingDirAlreadyCurrent | lib/markscript.js:109-111 | when `workingDir` already is the current directory, every `chdir` call is back to that same directory |
| DriverProperties.AbortStopsWalk | lib/markscript.js:112 | a throw propagates, and no node after the failing one is executed |
| DriverProperties.ThrowLeavesBlockDir | lib/markscript.js:112-113 | a block that throws was called in the block directory, and that directory is not restored |
| DriverProperties.NothingExecutableReturnsUndefined | lib/markscript.js:104-116 | with no executable node, `evaluate` returns `undefined`, makes no `chdir` call and calls the sandbox zero times |

## Left out

- The commonmark parser (lib/markscript.js:15, 99): `Evaluate` takes the parsed tree.
- The internals of the `tree-walk` library (lib/markscript.js:100, 105): pre-order is defined directly by `PreOrder`.
- `vm.runInNewContext` and all JavaScript semantics of the executed code: the sandbox is the parameter `exec`. Its effect on the environment is the member map it returns. It cannot change the process's directory.
- `new Module(filename)` and `mod.require` module resolution (lib/markscript.js:67, 73): the model stops at the path handed to the resolver (`AliasedPath`). `module` and `require` are opaque host members.
- `console` and `assert` on the environment's prototype (lib/markscript.js:82-91) are foreign objects.
- `evaluateFile` and `fs.readFileSync` (lib/markscript.js:119-121) are file I/O. cli.js as a whole is argument parsing, file reading and help text.
- Driver.Process.Chdir: a directory is identified by the string passed to `chdir`. Node resolves that string against the current directory, so that `process.cwd()` returns an absolute, normalised path, and the model does not. A relative or non-canonical `workingDir` therefore appears unresolved in `Invocation.cwd` and in the directory left after a throw. A later comparison at lib/markscript.js:109 can then find the two equal where the real process finds them different.
- `process.chdir` into a directory that does not exist: the file system is not modelled. Only the TypeError for a non-string argument is modelled.
- `trim` removes a fixed set of common whitespace characters. The other characters of Unicode category Zs are not included.
- JavaScript objects are their own enumerable properties. Inherited properties are left out, both in `for…in` and in the `in` operator.
- `for (k in config.globals)` over a string would visit character indices. The model treats every non-object as having no keys.
- An `optConfig` that is truthy but not an object (lib/markscript.js:101) would make `defaults` throw. The model takes an object or nothing.
- The `require` closure reads `config.moduleAliases` on each call. The model captures it when the environment is built, and nothing in the model changes the configuration after that.
- Objects are values: identity and sharing are not modelled. `this[k] = config.globals[k]` (lib/markscript.js:76) binds the caller's own objects into the environment. A script that mutates one of them, for example `results.push(1)` on a global array, mutates the caller's configuration, and a later `evaluate` with the same config sees the change. In the model the sandbox's effect reaches only the member map it returns, and `Evaluate` leaves the caller's config equal to `ConfigFor` of its old properties.
- Driver.DefaultConfig: objects are values here too. `defaults` copies DEFAULT_CONFIG's own `globals` and `moduleAliases` objects by reference into the caller's config. A caller that later adds `cfg.globals.secret = 42` therefore changes the globals of every later `evaluate` that relies on the defaults. In the model those defaults are always empty objects.
- Environments.AliasedPath: a host object (a function, a Module) has no modelled properties, so `in` on it is always false and it never aliases a path.
- Strings are sequences of Unicode code points, whereas JavaScript counts UTF-16 code units. `indexOf` and `lastIndexOf` indices therefore differ on characters outside the Basic Multilingual Plane, and lone surrogates cannot be represented. The detector's result is the same either way, because its boundaries `<s`, `>` and `</` are ASCII.
- Numbers are modelled as exact reals, and thrown errors as opaque values. The engine never inspects either.
