# Privileged-session guard, guarded execution and live assessment, in Dafny

This project models the three Python scripts under `cyber-security-engineer/scripts/`
that keep root-equivalent commands behind a human approval and an idle timeout,
and that grade the machine against a list of security controls.

- **`root_session_guard.py`** keeps a JSON record of the session: privilege mode, last
  elevated and normal activity, last transition, last action. Its subcommands `preflight`,
  `elevated-used`, `normal-used`, `drop` and `status` load the record, apply one transition
  and save it, except that `status` never saves. An elevation that has been idle for the
  timeout is dropped by `preflight`, which then answers 2 ("approval required").
  `session_guard.dfy` models the record as the class `SessionState`, whose methods
  assign its fields. Each method is proved against a function on the value `Snapshot`.
  The state file is the class `StateFile`, and the command-line dispatch is `Cli`.
- **`guarded_privileged_exec.py`** asks the guard, asks the human when approval is
  required, records elevated use, runs the argv (behind `sudo --` when asked), and in a
  `finally` block drops the session and forgets sudo credentials.
  `privileged_exec.dfy` treats the guard's exit codes, the typed answer and the child's
  outcome as an `Oracle`. The orchestrator `Execute` records what it does to the outside
  world as a trace of `Event`s and is proved equal to the specification `Protocol`. The
  ordering properties (authorize first, prompt only when required, a denial never runs
  anything, drop after the run, `sudo -k` around the run) are lemmas over `Protocol`.
- **`live_assessment.py`** probes the OpenClaw configuration and re-derives each control
  with `set_check`. `build_assessment` merges the results into the assessment's existing
  checks and stores them back sorted by id. `live_assessment.dfy` models:
  - the configuration probes, as functions over a `Json` datatype;
  - the check dictionary, as the class `CheckTable`, whose `SetCheck` updates a record in
    place, and whose ghost history of calls ties the table to the specification
    `UpsertAll`;
  - `build_assessment`, as the method `BuildAssessment`. Its result is either the `Fault`
    the script raises, in the script's order (`FaultOf`), or an assessment satisfying
    `Assessed`: sorted, one record per id, every incoming id plus the fourteen control ids,
    each control holding what its last `set_check` wrote, every other check untouched, and
    the metadata stamped.
  - The status of the controls is then derived from `Assessed` by lemmas.
- **`text.dfy`** holds the Python string operations the scripts use, and **`json.dfy`**
  the parsed JSON value with `dict.get` and `d[k] = v`.

The script's own sentences (observed state, evidence, gap, mitigation) are the
`Wording` record and are passed as a parameter. `ScriptWording` holds the texts the
script writes, so every property holds whatever the wording is.

`build_assessment` makes fourteen `set_check` calls, one of them for
`secrets_permissions_hardened`. `main` of the orchestrator records `elevated-used` only
under `--use-sudo`.

## Model

| member | source | states |
|---|---|---|
| SessionGuard.FromIso | cyber-security-engineer/scripts/root_session_guard.py:23-28 | no timestamp for a missing or empty value; a trailing `Z` is replaced by `+00:00` with the text before it kept; any other text is parsed as it is |
| SessionGuard.ToIsoFromIsoRoundTrip | cyber-security-engineer/scripts/root_session_guard.py:19-28 | `to_iso` writes a UTC instant with `Z`, and `from_iso` gives back the `+00:00` text `isoformat` produced |
| SessionGuard.AsDict | cyber-security-engineer/scripts/root_session_guard.py:39-46 | every key is written, and loading the record back gives the same state at any time |
| SessionGuard.DefaultStateRequiresApproval | cyber-security-engineer/scripts/root_session_guard.py:53-61 | a fresh state is normal, never elevated, stamped `init-normal` with normal activity at its transition, and needs approval at every later time |
| SessionGuard.LoadedDefaultsAndVerbatimMode | cyber-security-engineer/scripts/root_session_guard.py:64-77 | a missing mode, action, transition, elevated activity or normal activity defaults to `normal`, `unknown`, now, none and none; every present key (the mode unvalidated) is kept verbatim, and any mode but `elevated` needs approval |
| SessionGuard.LoadState | cyber-security-engineer/scripts/root_session_guard.py:64-77 | a missing file yields the default state and is created with it; an existing file is read with defaults and left as it was |
| SessionGuard.SaveState | cyber-security-engineer/scripts/root_session_guard.py:80-84 | the file holds exactly `as_dict` of the state |
| SessionGuard.PreflightCode | cyber-security-engineer/scripts/root_session_guard.py:95-122 | the exit code is 0 or 2, and 0 exactly when the session is elevated and not idle for the timeout |
| SessionGuard.PreflightNext | cyber-security-engineer/scripts/root_session_guard.py:95-122 | only a timed-out elevation changes: it becomes normal with action `timeout-drop` and a fresh transition; the activity times never change |
| SessionGuard.SessionState.Preflight | cyber-security-engineer/scripts/root_session_guard.py:95-122 | the code and the new fields are `PreflightCode` and `PreflightNext` of the old record |
| SessionGuard.PreflightCodeMatchesMode | cyber-security-engineer/scripts/root_session_guard.py:95-122 | the code is 0 exactly when the session is still elevated afterwards |
| SessionGuard.PreflightIdempotent | cyber-security-engineer/scripts/root_session_guard.py:95-122 | a second `preflight` at the same time changes nothing and returns the same code |
| SessionGuard.ApprovalStaysRequired | cyber-security-engineer/scripts/root_session_guard.py:96-110 | once approval is required, it stays required at every later time |
| SessionGuard.IdleTimeoutDrops | cyber-security-engineer/scripts/root_session_guard.py:96-115 | an elevation idle for at least the timeout answers 2 and is dropped to normal with `timeout-drop` |
| SessionGuard.SessionState.MarkElevatedUsed | cyber-security-engineer/scripts/root_session_guard.py:125-130 | the record becomes `MarkElevated` of the old one: elevated, elevated activity and transition now, action `elevated-used` |
| SessionGuard.ElevatedThenAvailable | cyber-security-engineer/scripts/root_session_guard.py:125-130 | after `elevated-used`, a `preflight` within the timeout answers 0 and changes nothing; normal activity is untouched |
| SessionGuard.SessionState.MarkNormalUsed | cyber-security-engineer/scripts/root_session_guard.py:133-138 | the record becomes `MarkNormal` of the old one: normal, normal activity and transition now, action `normal-used` |
| SessionGuard.NormalUsedRequiresApproval | cyber-security-engineer/scripts/root_session_guard.py:133-138 | after `normal-used` the session is normal, the elevated activity is kept, and `preflight` answers 2 |
| SessionGuard.SessionState.Drop | cyber-security-engineer/scripts/root_session_guard.py:141-145 | the record becomes `Dropped` of the old one: normal, transition now, the reason as action |
| SessionGuard.DropRepeated | cyber-security-engineer/scripts/root_session_guard.py:141-145 | `drop` keeps both activity times, and dropping again changes only the transition time |
| SessionGuard.TransitionsKeepElevationStamped | cyber-security-engineer/scripts/root_session_guard.py:95-145 | every transition keeps an elevated session stamped with an elevated activity time |
| SessionGuard.SessionState.Status | cyber-security-engineer/scripts/root_session_guard.py:148-160 | the report is `as_dict` plus idle minutes, timeout, timed-out flag and approval-required flag, the last exactly when `preflight` would answer 2; nothing is changed |
| SessionGuard.Cli | cyber-security-engineer/scripts/root_session_guard.py:186-213 | each subcommand's exit code and saved record; `status` does not save, so the file keeps what loading left there |
| PrivilegedExec.StripDelimiter | cyber-security-engineer/scripts/guarded_privileged_exec.py:94-96 | a leading `--` is removed and the rest of the argv kept unchanged; a command not starting with `--` is passed on as it is |
| PrivilegedExec.AcceptsPaddedYes | cyber-security-engineer/scripts/guarded_privileged_exec.py:28-29 | `y` or `yes` in any letter case, with any surrounding whitespace, is an approval |
| PrivilegedExec.AcceptedIsPaddedYes | cyber-security-engineer/scripts/guarded_privileged_exec.py:28-29 | every approving answer is such a padded `y` or `yes` and nothing else |
| PrivilegedExec.BlankAnswerDenies | cyber-security-engineer/scripts/guarded_privileged_exec.py:28-29 | an empty or all-whitespace answer is a denial |
| PrivilegedExec.ExecArgv | cyber-security-engineer/scripts/guarded_privileged_exec.py:33 | under sudo the argv is `sudo --` followed by the user's argv unchanged; otherwise it is the user's argv |
| PrivilegedExec.RunCommand | cyber-security-engineer/scripts/guarded_privileged_exec.py:32-40 | `sudo -k` first exactly when asked under sudo, then one spawn of the exec argv; the child's outcome is returned |
| PrivilegedExec.GuardedRun | cyber-security-engineer/scripts/guarded_privileged_exec.py:119-130 | the `try`/`finally` events: elevated use under sudo, the run, then drop unless kept and `sudo -k` when asked |
| PrivilegedExec.GateOf | cyber-security-engineer/scripts/guarded_privileged_exec.py:90-117 | the decision before the `try`: proceed exactly when cleared, a guard fault carries a code other than 0 and 2, denial exactly on code 2 with a refused answer |
| PrivilegedExec.Execute | cyber-security-engineer/scripts/guarded_privileged_exec.py:88-130 | `main` step by step: outcome and event trace equal `Protocol` |
| PrivilegedExec.AuthorizeComesFirst | cyber-security-engineer/scripts/guarded_privileged_exec.py:90-105 | with no argv nothing happens and the exit is 2; otherwise the guard is consulted first, and an answer other than 0 or 2 ends `main` with that code |
| PrivilegedExec.PromptOnlyWhenApprovalRequired | cyber-security-engineer/scripts/guarded_privileged_exec.py:107-117 | the human is asked exactly when the guard answers 2, about this reason and argv, and before the approval is recorded |
| PrivilegedExec.DenialNeverRuns | cyber-security-engineer/scripts/guarded_privileged_exec.py:108-117 | a refusal records normal use last and exits 1; a failed approval exits with its code; neither runs anything or drops the session |
| PrivilegedExec.RunsIffCleared | cyber-security-engineer/scripts/guarded_privileged_exec.py:102-123 | the command runs exactly when the guard cleared it, once; `main` then ends as the child did, and exits 0 only if it ran |
| PrivilegedExec.ElevationRecordedBeforeRun | cyber-security-engineer/scripts/guarded_privileged_exec.py:119-123 | elevated use is recorded exactly when the command runs under sudo, and before it runs |
| PrivilegedExec.DropFollowsRun | cyber-security-engineer/scripts/guarded_privileged_exec.py:124-128 | the session is dropped after every run unless it is kept, and never when nothing ran |
| PrivilegedExec.SudoCacheForgottenAroundRun | cyber-security-engineer/scripts/guarded_privileged_exec.py:36-38 | with the cache flag under sudo, `sudo -k` comes right before the run and as the last step, and at no other time; otherwise never |
| LiveAssessment.PermissionsHardened | cyber-security-engineer/scripts/live_assessment.py:67-72 | hardened exactly when `stat` succeeded and none of the six group and other permission bits is set |
| LiveAssessment.FindChannelAllowlists | cyber-security-engineer/scripts/live_assessment.py:75-84 | true exactly when `channels` is an object and some channel is an object with a non-empty `allowFrom` list |
| LiveAssessment.AnyAllowFrom | cyber-security-engineer/scripts/live_assessment.py:79-84 | the loop over channels finds one exactly when some channel has a non-empty `allowFrom` |
| LiveAssessment.GroupMentionsRequired | cyber-security-engineer/scripts/live_assessment.py:87-101 | true exactly when some group of some channel has `requireMention` identical to `true`, or `messages.groupChat.mentionPatterns` is truthy |
| LiveAssessment.ChannelRequiresMention | cyber-security-engineer/scripts/live_assessment.py:91-97 | a channel counts exactly when one of its groups requires a mention |
| LiveAssessment.GatewayLoopbackConfigured | cyber-security-engineer/scripts/live_assessment.py:104-112 | fails exactly when the top-level `auth` is falsy and the gateway is not an object; a yes for an object needs gateway mode `local`, bind `loopback` and mode `token` on the auth used (the top-level `auth` when truthy, else `gateway.auth`); without an object, the three substring tests on the text decide |
| LiveAssessment.TopLevelAuthUsedWhenTruthy | cyber-security-engineer/scripts/live_assessment.py:106-111 | with a truthy top-level `auth`, the answer is mode `local`, bind `loopback` and that `auth` an object with mode `token` |
| LiveAssessment.TopLevelAuthTakesPrecedence | cyber-security-engineer/scripts/live_assessment.py:108-110 | with a truthy top-level `auth`, changing `gateway.auth` does not change the answer |
| LiveAssessment.GatewayAuthUsedWhenTopLevelFalsy | cyber-security-engineer/scripts/live_assessment.py:104-111 | with a falsy top-level `auth`, the answer is mode `local`, bind `loopback` and `gateway.auth` an object with mode `token` |
| LiveAssessment.SetCheckEffect | cyber-security-engineer/scripts/live_assessment.py:158-178 | after `set_check` the id is present with the eight values, every other member of the record is kept (a new record has just `check_id`), and every other id keeps its record |
| LiveAssessment.ApplyFieldsGet | cyber-security-engineer/scripts/live_assessment.py:171-178 | after the eight assignments each field key reads its value and every other key reads what it did |
| LiveAssessment.UpsertKeepsIds | cyber-security-engineer/scripts/live_assessment.py:170-178 | `set_check` keeps every record stored under its own `check_id` |
| LiveAssessment.CheckTable.SetCheck | cyber-security-engineer/scripts/live_assessment.py:158-178 | the table is updated in place to `Upsert` of the old one, and stays the fold of its start and the calls made |
| LiveAssessment.UpsertAllKeys | cyber-security-engineer/scripts/live_assessment.py:195-394 | a run of `set_check` calls adds exactly their ids to the table's |
| LiveAssessment.UpsertAllUntouched | cyber-security-engineer/scripts/live_assessment.py:195-394 | a record no call names is left as it was |
| LiveAssessment.UpsertAllDecides | cyber-security-engineer/scripts/live_assessment.py:195-394 | the last call with an id decides the record's eight values, and every other member is what it held before the calls |
| LiveAssessment.FieldsForFinds | cyber-security-engineer/scripts/live_assessment.py:195-394 | some call's values are found for an id exactly when some call names it |
| LiveAssessment.UpsertAllKeepsIds | cyber-security-engineer/scripts/live_assessment.py:195-394 | the calls keep every record stored under its own `check_id` |
| LiveAssessment.ApplyRules | cyber-security-engineer/scripts/live_assessment.py:195-394 | the fourteen `set_check` calls of `build_assessment`, in order, are exactly `Rules` |
| LiveAssessment.RulesIds | cyber-security-engineer/scripts/live_assessment.py:196-394 | the calls set exactly the fourteen control ids |
| LiveAssessment.CountType | cyber-security-engineer/scripts/live_assessment.py:192-193 | the number of findings of a type is zero exactly when none has it, and all of them exactly when every one has it |
| LiveAssessment.Findings | cyber-security-engineer/scripts/live_assessment.py:191-193 | a non-object report fails; otherwise it fails exactly when `findings` (default `[]`) is not iterable or yields a non-object, and succeeds with exactly the items iterated, which are non-empty only for an array |
| LiveAssessment.IndexChecks | cyber-security-engineer/scripts/live_assessment.py:182-183 | fails exactly when some check lacks a text `check_id`; otherwise the ids are those of the checks, each stored under its id, and the last check with an id wins |
| LiveAssessment.SortedIds | cyber-security-engineer/scripts/live_assessment.py:398-400 | the ids in strictly increasing code-point order, each once |
| LiveAssessment.SortedChecksOrdered | cyber-security-engineer/scripts/live_assessment.py:398-400 | the sorted list holds each record of the table once, under strictly increasing ids |
| LiveAssessment.SortedIdsOnce | cyber-security-engineer/scripts/live_assessment.py:398-400 | in a list sorted by id no id occurs twice |
| LiveAssessment.TableListed | cyber-security-engineer/scripts/live_assessment.py:182-400 | indexing, the calls and sorting give a list with every incoming and every called id once, each called id holding its last call's values |
| LiveAssessment.Assembled | cyber-security-engineer/scripts/live_assessment.py:398-401 | storing the list under `checks` and stamping `metadata.generated_at_utc` keeps every other member of both objects |
| LiveAssessment.BuildAssessment | cyber-security-engineer/scripts/live_assessment.py:181-402 | fails exactly with the fault `FaultOf` names, in the script's order; otherwise the result satisfies `Assessed` |
| LiveAssessment.ElevationTimeoutStatus | cyber-security-engineer/scripts/live_assessment.py:225-229 | `elevation_timeout_30m` is always compliant |
| LiveAssessment.OpenPortsStatus | cyber-security-engineer/scripts/live_assessment.py:193-257 | `open_ports_approved` is compliant exactly when no finding is an `unapproved-port`, and a violation otherwise |
| LiveAssessment.AlternatePathsStatus | cyber-security-engineer/scripts/live_assessment.py:353-358 | `alternate_privilege_paths_restricted` is compliant exactly when no su/doas is present or the hook is installed, and partial otherwise |
| LiveAssessment.UpdateHygieneStatus | cyber-security-engineer/scripts/live_assessment.py:189-386 | `update_hygiene` is partial exactly when the stripped version text is not empty, and a violation otherwise |
| LiveAssessment.LeastPrivilegeStatus | cyber-security-engineer/scripts/live_assessment.py:209-215 | `least_privilege_enforced` is compliant exactly when loopback is configured and the lower-cased doctor text lacks `not writable`, partial otherwise, never a violation |
| LiveAssessment.StatusOfControl | cyber-security-engineer/scripts/live_assessment.py:170-172 | a control's status in the list is the one its last `set_check` wrote |
| Text.StripRemovesSpace | cyber-security-engineer/scripts/live_assessment.py:189 | `strip` leaves no whitespace at either end and removes only whitespace |

## Left out

- Input and output: reading and writing the state file, `load_json`, `write_json`, the
  printed JSON reports and `input()`. The state file is one stored value, JSON values are
  already parsed, and the typed answer is a parameter. An `EOFError` or
  `KeyboardInterrupt` from `input()`, and an exception from `subprocess.run` while it
  spawns the guard, end the script with a traceback; the model has no such outcome, since
  `Oracle` always supplies the guard's exit codes and the answer (a failure to spawn the
  target is modelled, as `SpawnFailed`).
- Subprocesses: spawning the guard, the target and `sudo -k`, `run_cmd`,
  `collect_runtime_signals`, `resolve_openclaw_bin` and `load_openclaw_config`. Their
  exit codes, outputs and parsed configuration are inputs (`Oracle`, `Signals`).
- File-system probes (`runtime_hook_installed`, `alt_privilege_paths_present`,
  `audit_log_present`, `backup_configured` and the `stat` of `permissions_hardened`).
  They are the fields of `Probes`. `build_assessment` calls the hook probe twice; the
  model reads it once, so both calls agree.
- The clock: times are integer minutes passed as `now`, and `minutes_since`'s
  floating-point minutes and rounding are not modelled. `utc_now()` is the `generatedAt`
  text. Date-time parsing and formatting behind `to_iso`/`from_iso` is modelled on
  the text only.
- Argument parsing (`parse_args`); the guard's unknown-command `return 1` cannot be
  reached through its parser, and `Command` holds the five subcommands.
- The orchestrator calls guard subcommands `authorize` and `approve` with `--argv-json`,
  which the guard's parser does not define. The model keeps these calls as events and
  takes their exit codes from the `Oracle`, without connecting them to `SessionGuard`.
- SessionGuard.LoadedDefaultsAndVerbatimMode: a stored `null` mode, transition or action is not
  modelled; the stored record is typed. Any key can be missing, but only the activity
  times can be `null`.
- LiveAssessment.IndexChecks: a `check_id` that is not text (a number, say) is rejected as
  `MalformedCheck`, though Python would index by it; the sorted output keys on text.
- JSON objects are member lists read through the first member with a key, since parsed
  objects have distinct keys. Numbers are integers; floats are not modelled.
- `gateway_status_text` is read by `build_assessment` but never used, so `Signals` does
  not carry it.
- Lower-casing covers the ASCII letters only; any other character is left as it is, so
  Python's Unicode case mapping (for example `İ`, which lowers to two characters) is not
  modelled. Whitespace for `strip` is Python's full `str.isspace` set.
- LiveAssessment.CheckTable.SetCheck: the records in `checks_by_id` are the very dicts of the
  incoming list in Python, so `set_check` also changes them there; the model copies
  records, which makes no difference to the returned assessment.
