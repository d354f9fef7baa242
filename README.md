# Browser-automation samples: step executor, download detector, tool routing

This project models, in Dafny, the decision logic of three browser- and
agent-automation samples, and proves properties of it:

- **The CAPTCHA-aware step executor** (`live_view_with_nova_act` and
  `contains_human_validation_error`). Every step instruction goes to the
  remote browser agent with a budget of three attempts. If the agent raises
  its own error type and the error mentions `HumanValidationError`, the
  executor enters a wait-and-ask loop: it sleeps 10 seconds, then asks
  "Is there a captcha on the screen?", for at most eight rounds. A cleared
  challenge retries the step at no cost; eight uncleared rounds cost one
  attempt. Any other failure costs one attempt and a 5-second sleep. The
  model is a small-step machine (`StepExecutor.Next`, `StepExecutor.Run`)
  fed by a script of agent replies. The four imperative methods (`LiveViewWithNovaAct`, `ExecuteStep`,
  `AttemptStep`, `AwaitCaptcha`), which
  mirror the source's nested loops, are proved to compute what the machine
  computes.
- **The download detector and result builder** (`nova_act_download`). It
  polls:
  - the `downloads` subdirectory of every `playwright-*` directory;
  - those directories themselves;
  - the temporary directory.

  It keeps the regular files younger than 45 seconds, takes the newest,
  and copies it into the temporary directory. It falls back to a
  download event only when polling found nothing. It rejects empty files,
  then partial files (`.crdownload`, `.part`), and it builds the
  success, error or upload-error record. The same source file holds the
  entrypoint `invoke_agent`, modelled in `AgentEntrypoint`: a check that
  five payload fields are present, and a two-parser normalisation of the
  agent's reply into a dictionary.
- **The MCP tool-name routing** of the gateway Lambda. A gateway-qualified
  name `target___tool` is cut after the first `___`, and `get_order_tool`
  is routed apart from everything else.

Modules, one file each:
- `Wrappers`: `Option`.
- `Strings`: Python's `in` and `str.index` on strings.
- `Paths`: the `os.path` functions the tool uses, with POSIX rules.
- `HumanValidation`: the error classifier.
- `StepExecutor`.
- `DownloadDetector`.
- `AgentEntrypoint`.
- `ToolRouting`.

The remote agent, the browser, the clock, the filesystem, the copy, the
download event, the upload and the parsers are all parameters:
- the executor reads a finite script of replies;
- the download tool reads an `Environment` record holding directory
  listings taken at one clock reading, and every outcome of its
  collaborators;
- the entrypoint receives the agent and the two parsers as functions.

## Model

| member | source | states |
|---|---|---|
| HumanValidation.ContainsHumanValidationError | samples/01-browser-with-NovaAct/captcha_with_nova_act.py:21-40 | An error counts as a human-verification error exactly when the value at the end of its `message` chain is not None and its text contains `HumanValidationError`; the `str()` of an object with a `message` is never consulted. |
| HumanValidation.NoneIsNotValidation | samples/01-browser-with-NovaAct/captcha_with_nova_act.py:25-26 | None is never classified as a human-verification error. |
| HumanValidation.StringIffMarker | samples/01-browser-with-NovaAct/captcha_with_nova_act.py:29-30 | A plain string is classified as one if and only if it contains the marker. |
| HumanValidation.MessageDecides | samples/01-browser-with-NovaAct/captcha_with_nova_act.py:33-34 | Wrapping a value any number of times as the `message` of an object leaves the verdict unchanged, whatever the wrapper's own text says. |
| HumanValidation.PlainIffMarker | samples/01-browser-with-NovaAct/captcha_with_nova_act.py:36-40 | An object without `message` is classified by its `str()` alone, in both directions. |
| HumanValidation.MentioningMarker | samples/01-browser-with-NovaAct/captcha_with_nova_act.py:29-38 | Any string or plain object whose text mentions the marker is classified as a challenge. |
| HumanValidation.Innermost | samples/01-browser-with-NovaAct/captcha_with_nova_act.py:33-34 | Following `message` attributes ends at a value that has none. |
| StepExecutor.LiveViewWithNovaAct | samples/01-browser-with-NovaAct/captcha_with_nova_act.py:88-143 | The step loop returns the machine's final `result`, trace and per-step retry counts. No step is charged more than three attempts. `result` is the payload of the last step instruction that returned. A run not cut short by the script has left every step after sending it at least once. |
| StepExecutor.ExecuteStep | samples/01-browser-with-NovaAct/captcha_with_nova_act.py:89-140 | The retry loop of one step takes the machine from a fresh step to leaving it, or to the end of the script, consuming exactly the replies it reads. |
| StepExecutor.AttemptStep | samples/01-browser-with-NovaAct/captcha_with_nova_act.py:93-138 | One pass of the retry loop's body reads at least one reply and moves the machine as `Run` does, either out of the step (success or third failure), back to a fresh attempt at the same step, or to the end of the replies mid-attempt. |
| StepExecutor.AwaitCaptcha | samples/01-browser-with-NovaAct/captcha_with_nova_act.py:103-128 | The wait-and-ask loop takes the machine through its rounds. It returns how many uncleared rounds were counted and whether the script ran out. |
| StepExecutor.NextMoves | samples/01-browser-with-NovaAct/captcha_with_nova_act.py:92-138 | One reply appends exactly the events of that reply to the trace. The machine stays on its step or moves to the next one. Staying keeps `result` and the recorded retry counts, and charges at most one attempt, never the third. Moving on starts a fresh attempt: after a returned instruction it records the step's retry count and sets `result` to the payload; otherwise it is the third charge, recorded as such, with `result` unchanged. |
| StepExecutor.RunExtends | samples/01-browser-with-NovaAct/captcha_with_nova_act.py:92-138 | A run never goes back a step, keeps the trace so far as a prefix of its final trace, and adds at least one event per reply, so a run that stops before the last step has used up its script. |
| StepExecutor.RunObservations | samples/01-browser-with-NovaAct/captcha_with_nova_act.py:88-143 | Every run bounds each step's retry count by three, keeps `result` equal to the last returned step payload, and sends step instructions in step order, each with its own text. A finished run has attempted every step. |
| StepExecutor.RunSound | samples/01-browser-with-NovaAct/captcha_with_nova_act.py:88-143 | The executor invariant (`Sound`) holds in every state a run reaches from a sound state. |
| StepExecutor.NextSound | samples/01-browser-with-NovaAct/captcha_with_nova_act.py:92-138 | One reply of the agent preserves the executor invariant. |
| StepExecutor.FirstAttemptSucceeds | samples/01-browser-with-NovaAct/captcha_with_nova_act.py:95-97 | An instruction that returns at once sets `result`, leaves the step with zero attempts charged, and adds no sleep. |
| StepExecutor.OrdinaryFailureCharges | samples/01-browser-with-NovaAct/captcha_with_nova_act.py:130-138 | A failure that is not a human-verification error charges one attempt and sleeps 5 seconds. The third charge leaves the step with retry count 3. |
| StepExecutor.OtherExceptionNeverWaits | samples/01-browser-with-NovaAct/captcha_with_nova_act.py:135-138 | An exception other than the agent's own error type never opens the CAPTCHA loop. |
| StepExecutor.ValidationErrorWaits | samples/01-browser-with-NovaAct/captcha_with_nova_act.py:99-104 | A human-verification error opens the CAPTCHA loop at round 0 and charges nothing. |
| StepExecutor.ClearedChallengeIsFree | samples/01-browser-with-NovaAct/captcha_with_nova_act.py:113-116 | A reply that matches the schema and answers "no captcha" returns to the same step with retry count and `result` unchanged. |
| StepExecutor.CaptchaRoundSleeps | samples/01-browser-with-NovaAct/captcha_with_nova_act.py:106-124 | Every CAPTCHA round sleeps 10 seconds before asking. A question that raises adds a 5-second sleep after it. |
| StepExecutor.CaptchaTimeoutChargesOnce | samples/01-browser-with-NovaAct/captcha_with_nova_act.py:106-128 | Uncleared rounds that take the counter to eight end the loop, with exactly one attempt charged after the rounds' events. |
| StepExecutor.EightUnclearedRoundsCostOneAttempt | samples/01-browser-with-NovaAct/captcha_with_nova_act.py:104-128 | A fresh CAPTCHA loop answered eight times without clearing costs one attempt. It leaves the step when that was the third. |
| StepExecutor.ChallengeThenClear | samples/01-browser-with-NovaAct/captcha_with_nova_act.py:99-116 | A challenge followed by a clearing answer changes nothing but the trace: the instruction, one 10-second sleep and the question. |
| StepExecutor.AllStepsSucceedAtOnce | samples/01-browser-with-NovaAct/captcha_with_nova_act.py:88-97 | When every instruction returns at once, every step is left with zero retries and without any sleep, and `result` is the last step's payload. |
| StepExecutor.ChallengeLoopCanRunForever | samples/01-browser-with-NovaAct/captcha_with_nova_act.py:92-116 | A challenge raised and cleared any number of times keeps the executor on the same step with the same retry count, so the retry loop need not terminate. |
| Strings.FindFrom | samples/01-transform-lambda-into-mcp-tools/.ipynb_checkpoints/lambda_function_code-checkpoint.py:28 | The result is the lowest occurrence at or after the start index; None means there is no occurrence there. |
| Strings.ContainsIff | samples/01-browser-with-NovaAct/captcha_with_nova_act.py:29 | Substring membership holds exactly when the pattern occurs at some index. |
| ToolRouting.StripPrefix | samples/01-transform-lambda-into-mcp-tools/.ipynb_checkpoints/lambda_function_code-checkpoint.py:26-28 | A name without `___` is kept. Otherwise the result is what follows the first occurrence of `___`. |
| ToolRouting.LambdaHandler | samples/01-transform-lambda-into-mcp-tools/.ipynb_checkpoints/lambda_function_code-checkpoint.py:20-37 | Status is always 200. The body is the order-status text exactly when the stripped name is `get_order_tool`, and the update text exactly when it is not. |
| ToolRouting.StripGatewayName | samples/01-transform-lambda-into-mcp-tools/.ipynb_checkpoints/lambda_function_code-checkpoint.py:25-28 | For a target name that cannot form `___` with the delimiter, `target___tool` strips to `tool`, even when `tool` itself contains `___`. |
| ToolRouting.StripsFirstOccurrenceOnly | samples/01-transform-lambda-into-mcp-tools/.ipynb_checkpoints/lambda_function_code-checkpoint.py:28 | Only the first delimiter is cut: `a___b___c` becomes `b___c`. |
| ToolRouting.StripYieldsSuffix | samples/01-transform-lambda-into-mcp-tools/.ipynb_checkpoints/lambda_function_code-checkpoint.py:27-28 | The stripped name is a suffix of the original, shorter by at least three characters when a delimiter occurs. |
| ToolRouting.QualifiedOrderTool | samples/01-transform-lambda-into-mcp-tools/.ipynb_checkpoints/lambda_function_code-checkpoint.py:27-34 | The gateway-qualified order tool gets the order-status response. |
| Paths.LastIndexOf | agents/first_stage_deployment/first_stage_agent.py:111 | The result is the last index holding the character; None means the character does not occur. |
| Paths.Basename | agents/first_stage_deployment/first_stage_agent.py:111 | `os.path.basename` yields the longest suffix of the path without `/`: the result has no `/`, and it is the whole path when the path has no `/` and otherwise starts just after the last `/`. |
| Paths.Join | agents/first_stage_deployment/first_stage_agent.py:111 | An absolute second part replaces the directory. Otherwise the parts are concatenated, with one `/` inserted unless the directory is empty or already ends in `/`. |
| Paths.Extension | agents/first_stage_deployment/first_stage_agent.py:140 | `os.path.splitext(p)[1]` is a suffix of the last path component that starts with its last dot, has no further dot and no `/`, and is preceded by a non-dot character; it is non-empty whenever the last component has such a dot. |
| Paths.ComponentExtension | agents/first_stage_deployment/first_stage_agent.py:140 | On one path component: a suffix starting at a dot preceded by some non-dot character, with no later dot, and non-empty whenever such a dot exists. |
| Paths.LastIndexOfConcat | agents/first_stage_deployment/first_stage_agent.py:111 | The last occurrence in `x + y` is in `y` if `y` has one, and otherwise it is the last occurrence in `x`. |
| Paths.BasenameOfJoin | agents/first_stage_deployment/first_stage_agent.py:111 | Joining a directory with a slash-free name and taking the basename gives that name back. |
| Paths.ExtensionOfJoin | agents/first_stage_deployment/first_stage_agent.py:140 | `os.path.splitext` of a joined path depends on the file name alone. |
| Paths.ExtensionOfName | agents/first_stage_deployment/first_stage_agent.py:140-146 | A stem with a non-dot character followed by `.ext` has extension `.ext`. |
| DownloadDetector.CollectSearchRoots | agents/first_stage_deployment/first_stage_agent.py:77-91 | The two loops build exactly `SearchRoots`: the existing `downloads` subdirectories, then the existing session directories, then the temporary directory. |
| DownloadDetector.SearchRootsOrder | agents/first_stage_deployment/first_stage_agent.py:77-91 | The roots come in three blocks: existing `downloads` subdirectories of listed session directories, then existing listed session directories, with the temporary directory last. |
| DownloadDetector.DownloadSubdirsMembers | agents/first_stage_deployment/first_stage_agent.py:81-85 | A path is a collected downloads directory if and only if it exists and is `downloads` under a listed session directory. |
| DownloadDetector.ExistingDirsMembers | agents/first_stage_deployment/first_stage_agent.py:87-89 | A path is a collected session directory if and only if it is listed and exists. |
| DownloadDetector.ScanRecentFiles | agents/first_stage_deployment/first_stage_agent.py:93-103 | The nested scan collects exactly `RecentFiles`: per existing root, in listing order, the regular files younger than 45 seconds at one clock reading. |
| DownloadDetector.RecentInMembers | agents/first_stage_deployment/first_stage_agent.py:97-101 | An entry is kept from a listing if and only if it is in the listing, is a regular file and is strictly younger than 45 seconds. |
| DownloadDetector.CandidateIff | agents/first_stage_deployment/first_stage_agent.py:93-103 | A file is a candidate if and only if it is recent and listed in some existing search root. |
| DownloadDetector.NewestIndex | agents/first_stage_deployment/first_stage_agent.py:106-108 | The chosen index is what a stable newest-first sort puts first: no entry is newer, and every earlier entry is strictly older. |
| DownloadDetector.StableHeadUnique | agents/first_stage_deployment/first_stage_agent.py:106-108 | Only one index satisfies the stable-sort-head property, so the choice is determined. |
| DownloadDetector.ChosenIsNewestCandidate | agents/first_stage_deployment/first_stage_agent.py:93-108 | The kept file is recent and listed in a search root, and no candidate is newer. |
| DownloadDetector.NovaActDownload | agents/first_stage_deployment/first_stage_agent.py:43-180 | The tool returns `DownloadOutcome`: the early errors, polling, the event fallback, validation and the result record. This is the corrected tool, in which a candidate already at its copy destination is used in place (see Findings); outside that same-file case it agrees with the source as written (`AsWrittenAgreesOffTheEdge`). |
| DownloadDetector.DownloadOutcomeAsWritten | agents/first_stage_deployment/first_stage_agent.py:43-180 | The tool as written differs from the corrected one only when the newest candidate is already at its copy destination, and then it returns "NovaAct execution failed: SameFileError(...)" for that path. |
| DownloadDetector.AsWrittenAgreesOffTheEdge | agents/first_stage_deployment/first_stage_agent.py:43-180 | Whenever the newest candidate (if any) is not already at its copy destination, the tool as written and the corrected tool return the same result, so every property of the corrected tool holds for the source outside the same-file case. |
| DownloadDetector.ValidateAndUpload | agents/first_stage_deployment/first_stage_agent.py:138-176 | The validation-and-upload block returns exactly what `Finish` yields for the detected path, size and `download_triggered` flag and the upload's outcome. |
| DownloadDetector.Finish | agents/first_stage_deployment/first_stage_agent.py:138-176 | A failed copy gives "NovaAct execution failed: <repr>". A missing path or size gives "File not downloaded - all methods failed". A success needs a detected, uploaded file: it carries a slash-free name, a positive size, key `downloaded-files/<client>/<name>`, the upload's URL, and method "filesystem_check" exactly when `download_triggered` is set, "event" otherwise. An s3_error carries the upload error's repr. |
| DownloadDetector.PolledFileDecides | agents/first_stage_deployment/first_stage_agent.py:106-174 | When polling found a file, the copy of the newest candidate decides. Size 0 means "File is empty"; a partial extension means "Partial download detected". Success holds if and only if the file is non-empty, not partial and uploaded, and s3_error holds if and only if the upload failed. A success carries the file's basename, size, method "filesystem_check" and key `downloaded-files/<client>/<name>`. Stated for the corrected tool; it holds for the source whenever the newest candidate is not already at its copy destination. |
| DownloadDetector.FinishOnFile | agents/first_stage_deployment/first_stage_agent.py:138-174 | For an existing, named file the size is checked first, then the extension, then the upload. Success carries the file's basename, size, the method chosen by `download_triggered` and the key `downloaded-files/<client>/<name>`. |
| DownloadDetector.EventDecidesWhenPollingFindsNothing | agents/first_stage_deployment/first_stage_agent.py:118-176 | With no candidate, no event or an event without a saved file means "File not downloaded - all methods failed". An empty saved file means "File is empty". A success comes from the event and reports method "event", the saved file's name and its size. |
| DownloadDetector.TriggeredIffPolled | agents/first_stage_deployment/first_stage_agent.py:106-113 | With a non-empty temporary directory name, `download_triggered` is set if and only if polling found a candidate. |
| DownloadDetector.MethodTellsDetection | agents/first_stage_deployment/first_stage_agent.py:106-171 | A success reports "filesystem_check" if and only if polling found a file. Stated for the corrected tool; it holds for the source whenever the newest candidate is not already at its copy destination. |
| DownloadDetector.EventNameFallsBack | agents/first_stage_deployment/first_stage_agent.py:126-130 | A plain suggested name is used as is. A callable's empty or missing result is replaced by `downloaded_file`. |
| DownloadDetector.EmptyCheckedBeforePartial | agents/first_stage_deployment/first_stage_agent.py:138-148 | An empty file is reported empty whatever its extension. |
| DownloadDetector.PartialNeverUploaded | agents/first_stage_deployment/first_stage_agent.py:146-148 | A non-empty `.crdownload` or `.part` file is rejected as partial and never uploaded. |
| DownloadDetector.EarlyFailuresWin | agents/first_stage_deployment/first_stage_agent.py:44-180 | An import failure comes first, then a session failure. Each hides everything after it, with its fixed message prefix. |
| DownloadDetector.SuccessKeyLayout | agents/first_stage_deployment/first_stage_agent.py:154-171 | A success's key is `downloaded-files/<client>/<file_name>`. Its file name has no `/`, its size is positive, and its URL is the presigned one. Stated for the corrected tool; it holds for the source whenever the newest candidate is not already at its copy destination. |
| DownloadDetector.TempDirFilesAreCandidates | agents/first_stage_deployment/first_stage_agent.py:91-103 | A recent regular file listed directly in the temporary directory is a candidate. |
| DownloadDetector.SameFileCopyFailsAsWritten | agents/first_stage_deployment/first_stage_agent.py:111-112 | As written, a newest candidate already in the temporary directory is copied onto itself, and the call returns "NovaAct execution failed: SameFileError(...)". |
| DownloadDetector.DestinationInPlace | agents/first_stage_deployment/first_stage_agent.py:111 | A candidate listed directly in the temporary directory has itself as copy destination. |
| DownloadDetector.InPlaceDetected | agents/first_stage_deployment/first_stage_agent.py:111-118 | Used in place, such a candidate is polled at its own path, with its size and `download_triggered` set, and the event is never tried. |
| DownloadDetector.FinishUploads | agents/first_stage_deployment/first_stage_agent.py:138-171 | A non-empty file that is not partial and uploads is reported as a success under its base name, with its size and the detection path. |
| DownloadDetector.SameFileUsedInPlace | agents/first_stage_deployment/first_stage_agent.py:111-171 | Used in place, the same complete file is uploaded and reported with method "filesystem_check". |
| DownloadDetector.InPlaceFinish | agents/first_stage_deployment/first_stage_agent.py:138-171 | A complete, non-empty candidate used in place and uploaded yields a success under its own name, with its size and method "filesystem_check". |
| DownloadDetector.ReportFailsAsWritten | agents/first_stage_deployment/first_stage_agent.py:91-112 | The concrete case of a 2048-byte `/tmp/report.pdf` fails as written. |
| DownloadDetector.ReportUploadedInPlace | agents/first_stage_deployment/first_stage_agent.py:91-171 | The same case is uploaded as `downloaded-files/acme/report.pdf` when the file is used in place. |
| AgentEntrypoint.InvokeAgent | agents/first_stage_deployment/first_stage_agent.py:213-262 | The agent is skipped if and only if some required field is missing or empty, and the reply is then "Missing required fields". Otherwise the agent receives `Prompt(payload)` and the reply is the normalisation of its answer. |
| AgentEntrypoint.MissingFieldSkipsAgent | agents/first_stage_deployment/first_stage_agent.py:222-223 | A missing field makes the result independent of the agent. |
| AgentEntrypoint.Prompt | agents/first_stage_deployment/first_stage_agent.py:225-231 | The prompt starts with its heading and carries each of the five fields on its own labelled line. |
| AgentEntrypoint.ParseReply | agents/first_stage_deployment/first_stage_agent.py:246-256 | The JSON parse is used when it succeeds. The Python-literal parse is tried only when JSON fails. |
| AgentEntrypoint.Normalise | agents/first_stage_deployment/first_stage_agent.py:246-262 | A parsed dictionary is returned unchanged. A reply that neither parser accepts gives an error with at most its first 200 characters as `raw`. Any other parsed value gives "Unexpected type: <type name>". |
| AgentEntrypoint.Head | agents/first_stage_deployment/first_stage_agent.py:256 | Python's `raw[:200]` is a prefix of at most 200 characters, the whole text when it is short enough. |
| AgentEntrypoint.ReplyIsDictOrError | agents/first_stage_deployment/first_stage_agent.py:246-262 | The reply is always the parsed dictionary or an error record with a message. |
| AgentEntrypoint.LongReplyEchoCut | agents/first_stage_deployment/first_stage_agent.py:254-256 | An unparseable reply is echoed whole when it has at most 200 characters, and as its first 200 otherwise. |
| AgentEntrypoint.ResultRecord | agents/first_stage_deployment/first_stage_agent.py:144-176 | The tool's record has the tool's status. A success has exactly the six keys; other records have `status` and `reason`. |
| AgentEntrypoint.ResultRecordInjective | agents/first_stage_deployment/first_stage_agent.py:144-176 | Distinct tool results give distinct records. |
| AgentEntrypoint.ToolRecordReachesCaller | agents/first_stage_deployment/first_stage_agent.py:241-260 | When the agent relays the tool's record as JSON or as a Python literal, the caller receives it unchanged with the tool's status. |

## Findings

| source | as written | input that shows it | evidently intended | confidence | as-written member | corrected member |
|---|---|---|---|---|---|---|
| agents/first_stage_deployment/first_stage_agent.py:91,111-112 | The temporary directory is a search root, and the newest candidate is copied to `join(temporary directory, basename)`. For a file found directly in that directory, the destination is the file itself. `shutil.copy2` refuses a same-file copy, and the outer handler turns that into "NovaAct execution failed". | a 2048-byte `/tmp/report.pdf` modified 10 seconds before the scan, with `/tmp` the temporary directory and no other recent file | a candidate already in the temporary directory is used in place and uploaded | medium, not executed | DownloadDetector.ReportFailsAsWritten | DownloadDetector.ReportUploadedInPlace |

The as-written tool is `DownloadDetector.DownloadOutcomeAsWritten`; its
general form is `DownloadDetector.SameFileCopyFailsAsWritten`. The rest of
the model uses the corrected `DownloadDetector.DownloadOutcome`, and its
general form is `DownloadDetector.SameFileUsedInPlace`. The two definitions
differ only in `DownloadDetector.CopyFailure`, and
`DownloadDetector.AsWrittenAgreesOffTheEdge` shows they return the same
result whenever the newest candidate is not already at its copy destination.

## Left out

- The browser session, the live viewer server, console output, tracebacks and session shutdown (captcha_with_nova_act.py:42-86, 145-157): these are I/O around the step loop.
- The outer `except Exception` of the live-view sample (captcha_with_nova_act.py:148-151): every agent reply is handled by the inner handlers. Failures of the sleep or of printing are not modelled.
- The command-line parsing of steps (captcha_with_nova_act.py:160-183).
- StepExecutor.LiveViewWithNovaAct: the agent is a finite script of replies, so a run can stop early when the script runs out (`finished` is false). The source's own loop can run forever on a challenge that keeps clearing; `ChallengeLoopCanRunForever` states this.
- Sleeps are recorded as trace events and not performed.
- `parsed_response` is modelled as a boolean. The source tests it for truthiness only.
- The NovaAct session for the download, its prompt text and the agent's actions (first_stage_agent.py:54-74): the session's outcome is an input.
- DownloadDetector.ScanRecentFiles: the filesystem is a snapshot taken at one clock reading. Times are integers, not floating-point seconds. The source reads each file's modification time twice (first_stage_agent.py:101 and :103); here it is read once.
- DownloadDetector.NewestIndex: only the head of the newest-first sort is modelled, because that is all the source reads; the rest of the sort is not modelled.
- `shutil.copy2` is an outcome: success, or the `repr()` of its error. The same-file refusal is derived from equal path strings. Different strings that name the same file (symbolic links, `..`) are not modelled. Python's quoting of paths that contain quotes or backslashes inside `repr()` is not modelled.
- The download event (first_stage_agent.py:118-136) is one outcome: no event (timeout, error or empty event), or a suggested name plus the size of the file then at the save path. The 5-second timeout and the click instruction are not modelled.
- The upload and presigned URL (first_stage_agent.py:152-174) form one outcome: a URL or the error's `repr()`. The bucket name, region and expiry are not modelled.
- The SSM key lookup, the Strands agent, the model, the system prompt and the runtime app (first_stage_agent.py:17-28, 183-210, 264-265): these are the unmodelled setup around the tool.
- AgentEntrypoint.InvokeAgent: payload fields are modelled as strings, with a missing or empty field as falsy. Other JSON values in the payload are not modelled.
- AgentEntrypoint.InvokeAgent: the agent's reply is modelled as the text of its first content block; a reply without one would raise, which is not modelled.
- AgentEntrypoint.ParseReply: `json.loads` and `ast.literal_eval` are parameters. Parser exceptions other than a decode, value or syntax error are not modelled. Dictionary keys are strings.
- AgentEntrypoint.PyValue: the parsed values are None, booleans, integers, floats, strings, lists, tuples and dictionaries. `ast.literal_eval` can also produce sets, bytes and complex numbers; the "Unexpected type: set", "bytes" and "complex" replies are not expressible here.
- ToolRouting.LambdaHandler: the tool name is the input. Reading it from the client context, where a missing key would raise, and printing the event are not modelled.
- Paths: POSIX path rules only. The tool runs on Linux.
