# Spring Initializr panel for VS Code, modelled in Dafny

The extension shows start.spring.io inside a VS Code webview panel. The view
does not talk to start.spring.io directly. It goes through a small local
relay, which handles each request in one of two ways:

- A request whose URL starts with `/starter.zip` is a project download. The
  relay hides the panel, schedules the extraction workflow to run after the
  response is sent, and answers with an empty 204. The workflow then does
  the following:
  - read the project name out of the URL;
  - work out the folder the dialog opens in (the `projects-folder` setting,
    with the `~` and `{TMP}` tokens);
  - ask the user for a destination folder;
  - refuse to overwrite an existing project folder;
  - download and unpack the archive;
  - open the new project in a new window.
- Every other request is proxied to start.spring.io. The response comes back
  without the `X-Frame-Options` and `Content-Security-Policy` headers, so the
  page can be framed.

The panel is a singleton held in a static slot. It is created or revealed by
the start command and hidden by an intercepted download. When it is
disposed, the view is disposed first. Then the registered resources are
popped off their list and disposed, the last one registered first.

The modules follow the structure of `src/extension.ts`:

| file | module | what it models |
|---|---|---|
| `wrappers.dfy` | `Wrappers` | `Option` |
| `js_text.dfy` | `JsText` | JavaScript `trim`; `String.prototype.replace` with a literal, non-global pattern and a replacement string (the two regular expressions of line 27 are in `ProjectNameChain`), including the `$$`, `$&`, `` $` `` and `$'` patterns |
| `project_name.dfy` | `ProjectNameChain` | the two regular-expression replacements that read the project name (line 27) |
| `default_folder.dfy` | `DefaultFolder` | the resolution of the dialog's starting folder (lines 30-45) |
| `extraction.dfy` | `Extraction` | the workflow after the name is known (lines 28-70), as the list of host requests it makes |
| `proxy_headers.dfy` | `ProxyHeaders` | the response rewrite (lines 83-88), as a class whose header map is edited in place |
| `panel.dfy` | `Panel` | the panel class and its static slot (lines 100-178), against a recording editor host |
| `relay.dfy` | `Relay` | the first middleware (lines 23-76), tying the other modules together |

Modelling choices:

- The regular expressions are modelled in general. A match starts at the
  leftmost position where one exists, and for that start the greedy `.+`
  takes the longest run it can. `.` does not match the four JavaScript line
  terminators. The plain reading is proved as lemmas for URLs without line
  terminators: the name is what follows the last `&baseDir=`, cut at the
  next `&` that has a character after it.
- The replacement string is not literal. `defaultFolder.replace(/~/,
  os.homedir())` reads `$` patterns in the home directory, so a home
  directory ending in `$&` ends up with a literal `~` in it
  (`DefaultFolder.DollarPatternInHome`). The model keeps that behaviour.
- The editor host, the file system, `path.join`, `os.tmpdir()`,
  `os.homedir()`, the dialog's answer and the outcome of the download are
  inputs:
  - `Panel.Host` is a class that logs the requests it receives and numbers
    new webviews;
  - the workflow's result is the list of requests it makes (`Extraction.Event`);
  - disposing a webview fires its disposal listener at once, inside the
    same request, so `PanelState.Hide` runs the panel's own `Dispose`
    (the listener registered on line 163) before it clears the slot.

Two behaviours of the code that are easy to miss:

- A download URL without `&baseDir=` does not skip the workflow. The name is
  then the URL up to its first `&` that has a character other than a line
  terminator after it, which is never empty for a URL that starts with `/`
  (`ProjectNameChain.ProjectNameWithoutKey`). An HTTP request line carries no
  CR or LF, so in practice this is the first `&` that is not the last
  character.
- The header rewrite removes exactly four spellings, compared
  case-sensitively. Any other casing survives
  (`ProxyHeaders.OtherCasingSurvives`). Header names delivered in lower case
  always lose both headers (`ProxyHeaders.LowerCaseNamesLoseFramingHeaders`).

## Model

| member | source | states |
|---|---|---|
| JsText.Trim | src/extension.ts:38-39 | `String.prototype.trim`, as `TrimEnd` after `TrimStart`. It has no contract of its own; its meaning is stated by `TrimIsInnerSlice`, `TrimEmptyIff`, `TrimIdempotent`, `TrimAgainNonEmpty` and `TrimOfTrimmed` |
| JsText.TrimStart | src/extension.ts:38 | the result is a suffix of the input; what was cut is all white space; the result does not start with white space |
| JsText.TrimEnd | src/extension.ts:38 | the result is a prefix of the input; what was cut is all white space; the result does not end with white space |
| JsText.TrimIsInnerSlice | src/extension.ts:38 | `trim` returns an inner slice with white space on both sides cut away, and the result neither starts nor ends with white space |
| JsText.TrimEmptyIff | src/extension.ts:39 | a string trims to empty exactly when it is all white space (both directions) |
| JsText.TrimIdempotent | src/extension.ts:38-39 | trimming twice equals trimming once, so the second `trim()` on line 39 tests the already trimmed value |
| JsText.TrimAgainNonEmpty | src/extension.ts:39 | a value that did not trim to empty does not trim to empty a second time |
| JsText.TrimOfTrimmed | src/extension.ts:38 | a string with no white space at either end is its own trim |
| JsText.IndexOf | src/extension.ts:42-44 | returns the first occurrence at or after the start position, or none when there is no occurrence |
| JsText.IndexOfPrefix | src/extension.ts:41-44 | a pattern that the string starts with is found at index 0 |
| JsText.Substitution | src/extension.ts:42-44 | GetSubstitution for a match without capture groups. It has no contract of its own; its meaning is stated by `SubstitutionPlainPrefix`, `SubstitutionOfPlainText` and `DefaultFolder.DollarPatternInHome` |
| JsText.SubstitutionPlainPrefix | src/extension.ts:42-44 | replacement text without `$` is copied literally ahead of the rest of the template |
| JsText.SubstitutionOfPlainText | src/extension.ts:42-44 | a replacement without `$` is inserted literally |
| JsText.ReplaceFirst | src/extension.ts:42-44 | `replace` with a literal pattern, at its first occurrence as found by `IndexOf`. It has no contract of its own; its meaning is stated by `ReplaceLeading` |
| JsText.ReplaceLeading | src/extension.ts:42-44 | replacing a pattern that starts the string swaps that prefix for the substituted replacement and keeps the rest |
| ProjectNameChain.RunEnd | src/extension.ts:27 | returns where the run of characters `.` can match ends: at the end of the string or at a line terminator |
| ProjectNameChain.LastKeyBetween | src/extension.ts:27 | returns the last `&baseDir=` strictly between two positions, or none when there is none |
| ProjectNameChain.BaseDirMatchInsideRun | src/extension.ts:27 | every match of `/.+&baseDir=/` from a start position ends its `.+` inside that position's run |
| ProjectNameChain.FindBaseDir | src/extension.ts:27 | finds the match of `/.+&baseDir=/` that JavaScript picks: the leftmost start, then the longest `.+`; none only when no match exists |
| ProjectNameChain.FindAmp | src/extension.ts:27 | finds the match of `/&.+/` that JavaScript picks, by the same rule, or none when no match exists |
| ProjectNameChain.StripThroughBaseDir | src/extension.ts:27 | the first replacement, `replace(/.+&baseDir=/, '')`, at the match `FindBaseDir` picks. It has no contract of its own; its meaning is stated by `StripWithoutLineTerminators` |
| ProjectNameChain.CutAtAmpersand | src/extension.ts:27 | the second replacement, `replace(/&.+/, '')`, at the match `FindAmp` picks. It has no contract of its own; its meaning is stated by `CutWithoutLineTerminators` |
| ProjectNameChain.ProjectName | src/extension.ts:27 | the two replacements in sequence. It has no contract of its own; its meaning is stated by `ProjectNameAfterLastKey`, `ProjectNameWithoutKey`, `ProjectNameHasNoInnerAmpersand` and `ProjectNameExample` |
| ProjectNameChain.StripWithoutLineTerminators | src/extension.ts:27 | without line terminators, the first replacement deletes everything through the last `&baseDir=` after index 0, or changes nothing when there is none |
| ProjectNameChain.CutWithoutLineTerminators | src/extension.ts:27 | without line terminators, the second replacement truncates at the first `&` that is followed by a character, or changes nothing when there is none |
| ProjectNameChain.SliceWithoutLineTerminators | src/extension.ts:27 | a suffix of a string without line terminators has none either |
| ProjectNameChain.ProjectNameAfterLastKey | src/extension.ts:27 | the project name is the text after the last `&baseDir=`, cut at its first inner `&` |
| ProjectNameChain.ProjectNameWithoutKey | src/extension.ts:27-28 | a URL with no `&baseDir=` keeps its text up to the cut, and the name is non-empty when the URL starts with something other than `&`, so the workflow goes ahead |
| ProjectNameChain.ProjectNameHasNoInnerAmpersand | src/extension.ts:27 | without line terminators, the name holds no `&` except possibly as its last character |
| ProjectNameChain.ExampleUrlHasNoLineTerminators | src/extension.ts:27 | the example download URL has no line terminator |
| ProjectNameChain.ExampleUrlLastKey | src/extension.ts:27 | in the example URL, the last `&baseDir=` is at index 31 |
| ProjectNameChain.ProjectNameExample | src/extension.ts:27 | `/starter.zip?type=maven-project&baseDir=demo` gives the name `demo` |
| DefaultFolder.Resolve | src/extension.ts:30-45 | the starting folder of the dialog: the setting or the temporary directory, trimmed, then the token expansion. It has no contract of its own; its meaning is stated by `ResolveSetting`, `BlankSettingResolvesToTmp`, `UnsetSettingResolvesToTmp`, `HomePrefixExpanded`, `TmpPrefixExpanded`, `OtherSettingTrimmed` and `DollarPatternInHome` |
| DefaultFolder.ExpandTokens | src/extension.ts:39-45 | the blank check and the `~` and `{TMP}` expansions on the trimmed folder. It has no contract of its own; its meaning is stated by `ExpandBlank`, `ExpandHome`, `ExpandTmp` and `ExpandPlain` |
| DefaultFolder.ResolveSetting | src/extension.ts:30-38 | a non-empty setting replaces the temporary directory as the starting value, which is then trimmed |
| DefaultFolder.ExpandBlank | src/extension.ts:39-40 | a folder that trims to empty becomes the temporary directory |
| DefaultFolder.ExpandHome | src/extension.ts:41-42 | a folder starting with `~` has that `~` replaced by the substituted home directory |
| DefaultFolder.ExpandTmp | src/extension.ts:43-44 | a folder starting with `{TMP}` (and not `~`) has it replaced by the substituted temporary directory |
| DefaultFolder.ExpandPlain | src/extension.ts:39-45 | any other non-blank folder is left as it is |
| DefaultFolder.BlankSettingResolvesToTmp | src/extension.ts:34-40 | a non-empty setting of only white space resolves to the untrimmed temporary directory |
| DefaultFolder.UnsetSettingResolvesToTmp | src/extension.ts:30-45 | an unset or empty setting resolves to the trimmed temporary directory, or the untrimmed one when it is all white space, given that neither token starts it |
| DefaultFolder.HomePrefixExpanded | src/extension.ts:33-42 | a setting whose trimmed form starts with `~` resolves to the substituted home directory followed by the rest; with no `$` in the home directory, literally `homedir` + rest |
| DefaultFolder.TmpPrefixExpanded | src/extension.ts:33-44 | a setting whose trimmed form starts with `{TMP}` resolves to the substituted temporary directory followed by the rest |
| DefaultFolder.OtherSettingTrimmed | src/extension.ts:33-45 | any other non-blank setting resolves to itself, trimmed |
| DefaultFolder.HomeProjectsExample | src/extension.ts:41-42 | `~/projects` resolves to the home directory followed by `/projects` |
| DefaultFolder.DollarPatternInHome | src/extension.ts:42 | a home directory ending in `$&` gets the matched `~` in place of those two characters |
| Extraction.AfterPrompt | src/extension.ts:55-69 | a dialog that returned nothing or an empty list does nothing. An existing project folder is reported, with that exact message and nothing else. Otherwise the archive is downloaded into the chosen folder; the project is opened in a new window exactly when the download succeeded (each an if-and-only-if), and a failed download is the only event |
| Extraction.Extract | src/extension.ts:28-69 | an empty name makes no request at all (both directions). Otherwise the dialog comes first, with the resolved folder and the title, and its answer decides the rest; the dialog itself reports, downloads and opens nothing |
| Extraction.PromptChangesNoOutcome | src/extension.ts:47-54 | the dialog request in front changes none of the outcome predicates |
| Extraction.Workflow | src/extension.ts:27-69 | the whole job: the project name, the resolved folder and `Extract`. It has no contract of its own; its meaning is stated by `WorkflowOutcomes`, `DemoScenario` and `Relay.JobRunsWorkflow` |
| Extraction.WorkflowOutcomes | src/extension.ts:26-72 | for the whole job, as an if-and-only-if: an error is reported exactly when a name and a folder exist and the project folder already exists; a download happens exactly when it does not exist; the project is opened exactly when the download succeeded |
| Extraction.SuccessfulRun | src/extension.ts:47-66 | a run with a fresh project folder and a successful download is exactly dialog, download from start.spring.io plus the request URL, open in a new window |
| Extraction.DemoScenario | src/extension.ts:26-66 | the `demo` URL with `/tmp/out` chosen gives exactly those three requests |
| ProxyHeaders.WithoutFramingHeaders | src/extension.ts:83-88 | the rewritten headers are the received ones minus exactly the four spellings, with every other value unchanged |
| ProxyHeaders.ProxyResponse.StripFramingHeaders | src/extension.ts:84-87 | the four in-place deletions leave the header map equal to the received map without the four spellings |
| ProxyHeaders.StripIdempotent | src/extension.ts:83-88 | rewriting twice equals rewriting once |
| ProxyHeaders.StripWithoutFramingIsNoOp | src/extension.ts:83-88 | a response without any of the four headers is left unchanged, and no error is raised |
| ProxyHeaders.LowerCaseNamesLoseFramingHeaders | src/extension.ts:84-86 | with lower-case header names, exactly `x-frame-options` and `content-security-policy` are removed |
| ProxyHeaders.OtherCasingSurvives | src/extension.ts:84-87 | `X-FRAME-OPTIONS` is kept with its value: names are compared by exact spelling |
| ProxyHeaders.StripExample | src/extension.ts:83-88 | a concrete response keeps only its `content-type` header |
| Panel.DisposalOrder | src/extension.ts:172-177 | popping releases the k-th resource from the end k-th: the reverse of registration order, keeping the length |
| Panel.DisposalOrderTwice | src/extension.ts:172-177 | popping order applied twice restores registration order |
| Panel.CreationCount | src/extension.ts:122-136 | the number of webview creations in a log is at most its length, and zero exactly when no creation was logged |
| Panel.CreationCountAppend | src/extension.ts:122-136 | creation counts add up over concatenated logs |
| Panel.SpringInitializrPanel.constructor | src/extension.ts:154-164 | a new panel wraps the given webview and has registered exactly the listener for that webview's disposal |
| Panel.SpringInitializrPanel.Dispose | src/extension.ts:166-178 | called on the panel in the slot, it empties the slot, disposes the webview, then disposes every registered resource in reverse registration order, leaving the list empty; afterwards every webview ever created is disposed |
| Panel.PanelState.CreateOrShow | src/extension.ts:112-141 | with a panel in the slot, only reveals it in the active editor's column. Otherwise creates exactly one webview, of type `spring-initializr-iframe` titled `Spring Initializr`, in the active editor's column when it has a non-zero one and in the first group when there is no editor or no column, and puts a fresh panel for it in the slot. The singleton invariant holds before and after |
| Panel.PanelState.Hide | src/extension.ts:143-148 | with a panel in the slot, disposes its webview, which runs the panel's dispose through its listener (second webview disposal, then its resources in reverse order), and empties the slot; with no panel, nothing is requested. The singleton invariant holds before and after |
| Panel.SingleLivePanel | src/extension.ts:104-148 | in a consistent state, a webview that was created and not disposed is the one of the panel in the slot: at most one panel is open at a time |
| Panel.PanelState.Revive | src/extension.ts:150-152 | puts a fresh panel around the given webview into the slot |
| Panel.StartTwice | src/extension.ts:112-141 | two start commands create one webview and then reveal that same one |
| Panel.StartHideStart | src/extension.ts:112-164 | start, hide, start: create webview 0, dispose it (twice, once by the listener's dispose), release its listener, create webview 1; afterwards webview 1 is open and webview 0 is not |
| Relay.Respond | src/extension.ts:73-88 | intercepted requests get the empty 204. Forwarded ones keep the upstream status, body and values, with the header names minus the four spellings |
| Relay.HandleRequest | src/extension.ts:23-76 | returns the response of `Respond`, and schedules a job exactly for URLs starting with `/starter.zip` (both directions), on the request URL. For those the panel is hidden and exactly the hide requests are made; for an intercepted request the old panel's resource list ends empty; a forwarded request leaves the slot, the panel's resource list and the host untouched |
| Relay.JobEvents | src/extension.ts:26-28 | no job, or a job whose URL gives an empty name, makes no request; otherwise the first request is the dialog |
| Relay.JobRunsWorkflow | src/extension.ts:26-27 | the scheduled job is the extraction workflow run on the request URL |
| Relay.ExampleUrlIntercepted | src/extension.ts:24 | the `demo` download URL is intercepted and scheduled as it is |
| Relay.NestedStarterPathForwarded | src/extension.ts:24 | `/app/starter.zip` is forwarded: the test is on the start of the URL |
| Relay.LookalikeIntercepted | src/extension.ts:24 | `/starter.zipper` is intercepted: the test is a string prefix, not a path segment |
| Relay.DemoRequestEndToEnd | src/extension.ts:23-73 | the `demo` request gets the empty 204, and its job makes three requests, ending by opening `/tmp/out/demo` (as joined) in a new window |

## Left out

- The Express server is not modelled: `listen` on port 7654, the static port and the response object. Only the status and body of the 204 are modelled, not the headers Express adds to it.
- The proxy middleware's forwarding is not modelled: target, origin rewrite, redirects and streaming. The upstream response is an input to `Relay.HandleRequest`.
- The command registration in `activate` is not modelled; it only calls into `PanelState.CreateOrShow`. The rest of `activate` installs the two middlewares and calls `listen`, which is the relay, covered by the two lines above.
- The `setTimeout(…, 0)` scheduling and the `await`s are not modelled. The job is returned as a value, not run, so how its requests interleave with other requests is left out.
- The check-then-act race between `fs.existsSync` and the download is not modelled, because there is no concurrency in the model.
- The user closing the panel is not modelled as a host event. It fires the same listener, which is `SpringInitializrPanel.Dispose` called on the panel in the slot.
- Panel.SpringInitializrPanel.Dispose: it requires the panel to be the one in the slot. The listener is its only caller, and it fires only for the open webview, which the singleton invariant ties to the slot. A dispose of a stale panel cannot happen in the extension and is not modelled.
- The webview's HTML (`_update`, `_getHtmlForWebview`), its icon, its options and `localResourceRoots` are left out. They are fixed text with no decisions in them.
- The dialog's options other than its starting folder and title are left out (folders only, one at most, the button label). So is the conversion of the folder to a `Uri`.
- The download's failure is a boolean input, and the swallowed exception is the absence of the open request. Nothing about the archive or its extraction is modelled.
- `vscode.workspace.getConfiguration` is taken to always return a configuration. A `projects-folder` value that is not a string is out of scope.
- Strings are sequences of Unicode scalar values, not UTF-16 code units. A lone surrogate cannot be represented, and `trim`'s white-space set is the one JavaScript defines.
- Panel.SpringInitializrPanel.Dispose: the `if (disposable)` guard is not modelled, because the list holds only disposables and the guard always passes.
- Panel.PanelState.Revive: the slot invariant `Valid` is not stated for it, because the host restores the webview and the model does not know that webview's history.
