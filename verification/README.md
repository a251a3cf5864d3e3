# Snapshot scripts: a Dafny model

This project models the core of a set of Python scripts that create, validate and tidy up Azure
disk snapshots for a fleet of virtual machines. The scripts drive the `az` command line, or in one
case the Azure SDK. The model covers:

- **The two snapshot creators.**
  - `create_snapy.py` is built on the helpers of `common.py`.
  - `create_snap-v20240811.py` is an older variant that sends commands to an HTTP endpoint.
  - Both read a list of `<resource id> <vm name>` lines and group it by subscription.
  - For each group they switch subscription, look up each VM's resource group and OS disk, and
    create one snapshot per VM, named `RH_<chg>_<vm>_<timestamp>`.
  - They append each created snapshot's id to the rid list (`snap_rid_list.txt`) and record
    every VM in `successful_snapshots` or `failed_snapshots`.
- **The four validators.**
  - `validate_snap_v2.2.0.py`, `validate_snapshot.py` and `validate_snapshot_promax.py` run
    `az snapshot show` once per id of the rid list.
  - `validate_snapy.py` looks each name up in the SDK's snapshot listing.
  - Each counts existing and missing snapshots.
  - `validate_snap_v2.2.0.py` can also move the ids of the missing ones to a separate file.
- **`clean_hostnames.py`**, which cuts the VM-name column of the inventory CSV to its last eight
  characters.

## How it is modelled

- **The outside world is a parameter.**
  - Each module that talks to Azure takes an `Env` record of total functions:
    - how each `az` command ends (`Common.ProcessResult`, or `Legacy.HttpReply` for the older creator);
    - what `json.loads` makes of each reply;
    - for the older creator, the clock.
  - Every property holds for every such environment.
- **Logs are values.** A run of a creator is a `Ledger.Trace`, a sequence of events:
  - commands issued;
  - rids appended;
  - outcomes recorded;
  - optionally, the exception that ended the run.

  The lists the scripts keep are views of it: `Ledger.Successes`, `Ledger.Failures`,
  `Ledger.Rids`, `Ledger.Commands`.
- **Schedule.** The creators start one `asyncio` task per VM and wait for a group's tasks with
  `gather`. The model fixes one schedule the event loop allows: each task runs to completion when
  it is dispatched. A task's exception is held until the group's `gather`, which re-raises the
  first one. The concurrency limit (`semaphore`) does not change what is recorded, so it is left out.
- **Clocks.**
  - `create_snapy.py` stamps every snapshot with one reading taken at start (`TIMESTAMP` in
    `common.py`).
  - The older creator reads the clock in each task. Its `env.clock(k)` is the reading taken by the
    task of the k-th VM of the run, counting in group order.
- **Shared code.**
  - Modules follow the scripts: `Common`, `Grouping`, `Header`, `SnapshotNames`, `Orchestrator`,
    `Legacy`, `LegacyLogin`, `ValidateV2`, `ValidateCli`, `ValidateSdk`, `Hostnames`.
  - `Grouping` covers the identical `group_vms_by_subscription` of both creators.
  - `Header` covers the identical module-level header parse of `validate_snap_v2.2.0.py` and
    `validate_snapy.py`.
  - `SnapshotNames.ExtractName` covers the validators' `extract_snapshot_name`, the same four times.
  - `ValidateCli` covers `validate_snapshot.py`, whose loop `validate_snapshot_promax.py` repeats
    line for line.
  - `Text`, `Seqs` and `Wrappers` hold Python's string operations, sequence helpers and
    `Option`/`Result`.
- **Error paths as the code has them.**
  - A command that cannot be started is not fatal. `run_az_command` in `common.py:36-38` turns any
    exception, including output that is not valid UTF-8, into exit code 1 with the message as error
    text, and the run goes on.
  - A failed create in `create_snapy.py` is recorded with the fixed reason "Failed to create
    snapshot" (`create_snapy.py:46`). Only the older creator puts the error text in the reason.
  - A run does not always reach its summary. A reply that `json.loads` cannot decode, or a lookup
    reply without `resourceGroup`/`diskId`, raises and ends the run (`create_snapy.py:49-51`,
    `create_snapy.py:158-160`, `gather` at `create_snapy.py:174`). The model records such an end as
    the trace's crash.
  - A malformed line raises before any command. That covers an id with fewer than three segments,
    and also a line with fewer than two tokens, on which `rsplit(None, 1)` at `create_snapy.py:72`
    cannot be unpacked.
  - The older creator takes a new timestamp in every task (`create_snap-v20240811.py:138-139`), so
    its snapshots do not share one stamp.
  - The older creator can record a VM twice (Findings, row 3).

## Model

| member | source | states |
|---|---|---|
| Common.RunAzCommand | common.py:22-38 | The triple has an output exactly when the exit code is 0, which happens exactly when the process exits with code 0 and its output reads as text. A failing exit keeps its own code and the stripped error text. An exception, whether the process cannot start or its output is not UTF-8, becomes code 1 carrying its message. |
| Common.CheckAzLogin | common.py:51-53 | As written, the login check passes for every outcome of `az account show`. |
| Common.CheckAzLoginIgnoresFailure | common.py:51-53 | A concrete failing `az account show` (exit 1, "Please run 'az login'") gives a non-zero code and still passes the check. |
| Common.LoggedIn | common.py:51-53 | The evidently intended check: logged in exactly when `az account show` exits with code 0. |
| Common.CommandLine | create_snapy.py:39-41 | The shell text of each command the creators issue: `az snapshot create --name <name> --resource-group <rg> --source <disk>` here, and likewise `az account set --subscription <sub>` (line 127) and `az vm show --ids <rid> --query …` (line 146). It carries no contract; the commands are compared as `Command` values. |
| Common.ExtractSnapshotName | common.py:44-45 | The name is the part of the id after its last `/`. It holds no `/`, is a suffix of the id, and is preceded by a `/` unless it is the whole id. |
| SnapshotNames.ExtractName | validate_snap_v2.2.0.py:71-75 | The validators' name is common.py's last segment cut before its last `_`: a prefix of that segment, all of it when it has no `_`, otherwise ending just before an `_` with no `_` after it. |
| SnapshotNames.ExtractCreatedName | validate_snapy.py:57-61 | For the id of a snapshot named `RH_<chg>_<vm>_<ts>` (the `ts` without `_` or `/`), the extracted name is `RH_<chg>_<vm>`: the timestamp is cut off. |
| SnapshotNames.ExtractStampedName | validate_snapshot.py:39-43 | The same for a name stamped with a formatted clock reading. |
| SnapshotNames.CreatedNameNotExtracted | validate_snapshot_promax.py:48-52 | A created snapshot's extracted name is never its own full name. |
| Timestamp.Format | common.py:13 | A `%Y%m%d%H%M%S` stamp is fourteen digits, so it contains no `_` and no `/`. |
| Timestamp.ParseFormat | common.py:13 | The stamp loses nothing: reading its six digit groups back gives the clock reading. |
| Timestamp.FormatInjective | create_snap-v20240811.py:138-139 | Distinct clock readings give distinct stamps. |
| Timestamp.Parse | common.py:13 | The reading back of a `%Y%m%d%H%M%S` stamp, the partner of `Format`. It carries no contract of its own; `Timestamp.ParseFormat` proves it inverts `Format`. |
| Grouping.ParseLineKeyed | create_snapy.py:72-73 | A line that parses has a non-empty, whitespace-free VM name. Its key is segment 2 of its resource id, which has at least three segments. |
| Grouping.ParseLine | create_snapy.py:72-73 | One line of `group_vms_by_subscription`: `rsplit(None, 1)` into id and name, then segment 2 of the id, or the error that raises. Its contract is stated by the lemmas `ParseLineKeyed`, `ParseLineTooFewSegments`, `ParseLineTooFewTokens`, `ParseLineShape` and `ParseFormattedLine`. |
| Grouping.ParseLineTooFewSegments | create_snapy.py:73 | Indexing segment 2 raises exactly when the line has two tokens and its id has fewer than three `/`-segments. |
| Grouping.ParseLineTooFewTokens | create_snapy.py:72 | Unpacking raises exactly when the stripped line contains no whitespace, i.e. holds at most one token. |
| Grouping.ParseLineShape | create_snapy.py:72 | A parsed line is its id, then a whitespace run, then the name, then trailing whitespace. The id is a prefix of the line that ends in a non-space character. |
| Grouping.ParseFormattedLine | create_snapy.py:72-73 | Parsing inverts writing a line: id, whitespace, name and trailing whitespace parse back to the same id and name, keyed by segment 2 of the id. |
| Grouping.ParseLines | create_snapy.py:71-73 | Success parses every line in order. A failure names the first line that raises, and why; every earlier line parses. |
| Grouping.Subscriptions | create_snapy.py:70-75 | The reference list of keys: each subscription of the lines appears exactly once, and nothing else appears. |
| Grouping.KeyIndex | create_snapy.py:74 | The lookup of a subscription in the insertion-ordered dict: a found index holds a group of that subscription, and no index means no group has it. |
| Grouping.Insert | create_snapy.py:74 | `grouped_vms[subscription_id].append(…)`: append to the existing group, or open a new one at the end. `Grouping.InsertAddsOne` states that it adds exactly its record. |
| Grouping.GroupParsed | create_snapy.py:71-75 | The grouping loop over parsed lines, one `Insert` per line. `Grouping.GroupParsedIsReference` and `Grouping.GroupParsedPermutes` state what it builds. |
| Grouping.GroupVms | create_snapy.py:69-75 | `group_vms_by_subscription`: the first malformed line raises, otherwise the grouped records. `Grouping.GroupVmsSpec` states the grouping. |
| Grouping.GroupParsedIsReference | create_snapy.py:69-75 | The grouping loop builds one group per distinct subscription, in first-seen order, and each group holds exactly that subscription's records in input order. |
| Grouping.InsertAddsOne | create_snapy.py:74 | One `append` to the default dict adds exactly its record to the groups' contents. |
| Grouping.GroupParsedPermutes | create_snapy.py:69-75 | Grouping neither drops nor duplicates a record: the groups hold a rearrangement of the input records. |
| Grouping.GroupVmsSpec | create_snap-v20240811.py:170-176 | For a whole list that parses, the group keys are the first-seen subscriptions, each group holds exactly its records in order, and all groups together are a rearrangement of the lines. |
| Grouping.GroupKeysMatchIds | create_snapy.py:73-74 | Every record sits in the group of the subscription named by segment 2 of its own resource id. |
| Header.HeaderOf | validate_snapy.py:28-41 | On the line the parse stops at, the header is segments 2 and 4 exactly when both are non-empty; otherwise the script exits with its error message. |
| Header.IsIdLine | validate_snapy.py:26-29 | The line the parse stops at: non-empty once stripped, with at least five `/`-segments. A predicate; the lemmas below state what follows from it. |
| Header.FirstIdLine | validate_snapy.py:25-32 | The index found is that of a line the parse stops at, and no earlier line is one. No index means no line of the list is one. |
| Header.ReadHeader | validate_snap_v2.2.0.py:38-55 | A header has a non-empty subscription and resource group, both read from a line of the list with at least five segments. Otherwise the result is the exit message. |
| Header.NoIdLineExits | validate_snap_v2.2.0.py:39-55 | A list with no non-empty line of at least five segments makes the script exit. |
| Header.FirstIdLineDecides | validate_snapy.py:24-32 | Only the first id line counts. Shorter lines before it are skipped, and nothing after it is read. |
| Header.EmptyFieldExits | validate_snap_v2.2.0.py:48-55 | An empty subscription or resource group in the first id line exits, whatever lines follow. |
| Header.ResourceIdParts | validate_snapy.py:28-31 | A resource id `/subscriptions/<s>/resourceGroups/<g>/…` has segment 2 equal to `<s>` and segment 4 equal to `<g>`. |
| Header.ReadHeaderOfId | validate_snapy.py:24-38 | A list whose first id line is a snapshot's resource id yields that id's subscription and resource group. |
| Hostnames.CleanRow | clean_hostnames.py:11-16 | A row of two or more fields keeps every field except the second. The second becomes its last eight characters, or stays whole when it is shorter. |
| Hostnames.CleanRows | clean_hostnames.py:6-21 | The file written back has one cleaned row per row read, in order. |
| Hostnames.ShortRowUnchanged | clean_hostnames.py:12-16 | A row with no second field, or whose VM name has eight characters or fewer, is unchanged. |
| Hostnames.CleanRowIdempotent | clean_hostnames.py:11-16 | Cleaning a cleaned row changes nothing. |
| Hostnames.CleanRowsIdempotent | clean_hostnames.py:6-21 | Running the script again on its own output leaves the file as it is. |
| Hostnames.SharedSuffixCollides | clean_hostnames.py:14 | Two VM names that share their last eight characters become the same name. |
| Ledger.SuccessesAndFailures | create_snapy.py:182-188 | The successful and failed lists split the recorded outcomes: together they are a rearrangement of them. |
| Ledger.SnapshotName | create_snapy.py:38 | The name `RH_<chg>_<vm>_<timestamp>` both creators give a snapshot. `SnapshotNames.ExtractCreatedName` states what the validators recover from it. |
| Ledger.FailAll | create_snapy.py:132-133 | One failure entry per VM of a group, all with one reason, as both creators' failure loops append them. `Ledger.FailAllViews` states its views. |
| Ledger.FailAllViews | create_snapy.py:132-133 | Failing a group records one failure per VM, in order, all with the given reason, and appends no rid and issues no command. |
| Orchestrator.ProcessVmOutcome | create_snapy.py:32-63 | A task issues only its create command. A failing or unrunnable command records "Failed to create snapshot". A clean reply with an id appends that id and records `RH_<chg>_<vm>_<ts>`. A reply without an id records "Failed to extract snapshot ID". A reply that does not decode raises and records nothing. |
| Orchestrator.ProcessVm | create_snapy.py:32-63 | `process_vm`: issue the create command named with the run's timestamp, then act on its result. `Orchestrator.ProcessVmOutcome`, `ProcessVmRecordsOnce` and `ProcessVmDisciplined` state its outcomes. |
| Orchestrator.AfterCreate | create_snapy.py:43-63 | What `process_vm` does with the create command's result; its outcomes are stated with `ProcessVm`'s lemmas. |
| Orchestrator.ProcessVmRecordsOnce | create_snapy.py:43-63 | A task that raises records nothing. A task that does not records exactly one outcome, for its own VM. |
| Orchestrator.ProcessVmDisciplined | create_snapy.py:53-58 | A task keeps the rid-list discipline: each rid is appended just before its success entry, with as many rids as successes, and the snapshot carries the run's timestamp. |
| Orchestrator.LookupOutcome | create_snapy.py:143-172 | A failed lookup records "Failed to get VM details" for its VM and issues nothing more for it. A turn that neither raises nor leaves a task exception records exactly one outcome, for its VM. |
| Orchestrator.LookupAndDispatch | create_snapy.py:143-172 | One turn of the inner loop: the `az vm show` lookup, then the reply's handling. `Orchestrator.LookupOutcome` and `LookupDisciplined` state its outcomes. |
| Orchestrator.AfterLookup | create_snapy.py:148-172 | A failed lookup records its failure; an undecodable reply or a missing key raises; otherwise the VM's task is dispatched and runs at once. Stated by `Orchestrator.LookupOutcome`. |
| Orchestrator.LookupDisciplined | create_snapy.py:143-172 | A lookup turn keeps the rid-list discipline and issues no subscription switch. |
| Orchestrator.RunVmsRecordsEach | create_snapy.py:143-172 | An inner loop without exceptions records one outcome per VM, in the group's order. |
| Orchestrator.RunVms | create_snapy.py:142-172 | The inner loop over a group's VMs, stopping at the first exception it raises and holding the first task exception for `gather`. `RunVmsRecordsEach` and `RunVmsDisciplined` state it. |
| Orchestrator.RunVmsDisciplined | create_snapy.py:143-172 | The inner loop keeps the rid-list discipline and switches no subscription. |
| Orchestrator.RunGroupSwitchFails | create_snapy.py:126-138 | A failed switch records every VM of the group as "Failed to set subscription", issues no lookup or create, and does not stop the run. |
| Orchestrator.RunGroup | create_snapy.py:124-176 | One iteration of the group loop: the switch, then either the group's failures or the inner loop and `gather`. `RunGroupSwitchFails`, `RunGroupRecordsEach` and `RunGroupDisciplined` state it. |
| Orchestrator.RunGroupRecordsEach | create_snapy.py:124-176 | A group that does not raise records one outcome per VM, in the group's order. |
| Orchestrator.RunGroupDisciplined | create_snapy.py:124-176 | A group issues exactly one subscription switch, to its own subscription, and keeps the rid-list discipline. |
| Orchestrator.RunGroupsRecordsEach | create_snapy.py:124-176 | A group loop that ends normally records one outcome per VM of all groups, group after group. |
| Orchestrator.RunGroups | create_snapy.py:124-176 | The group loop in first-seen subscription order, stopping at the first exception. `RunGroupsRecordsEach` and `RunGroupsDisciplined` state it. |
| Orchestrator.RunGroupsDisciplined | create_snapy.py:124-176 | The group loop keeps the rid-list discipline. When it ends normally, its switches are the groups' subscriptions in order. |
| Orchestrator.RunRecordsEachVmOnce | create_snapy.py:96-188 | A run that ends normally records exactly one outcome per input line, in group order. The recorded names are a rearrangement of the input names, and the two lists together are as long as the input. |
| Orchestrator.Run | create_snapy.py:96-176 | `main` after the prompts: nothing for an empty list, a raise for a malformed line, otherwise the group loop with the one start timestamp. The lemmas `RunRecordsEachVmOnce` to `DecodableRunsToEnd` state it. |
| Orchestrator.RunDisciplined | create_snapy.py:27-58 | Whatever happens, each rid is appended just before its success entry, there are as many rids as success entries, and every success names its snapshot with the one timestamp taken at start. |
| Orchestrator.RunSwitchesOncePerSubscription | create_snapy.py:124-140 | A run that ends normally switches subscription once per distinct subscription, in first-seen order. |
| Orchestrator.RunRejectsMalformedLine | create_snapy.py:105 | A line that does not parse makes the run raise before any command, naming the first malformed line. |
| Orchestrator.DecodableRunsToEnd | create_snapy.py:96-188 | When every reply decodes and every lookup reply has both keys, a non-empty, well-formed list runs to the end, and every input VM lands in exactly one of the two lists. |
| Legacy.PostCommand | create_snap-v20240811.py:115-126 | A 200 reply hands its `stdout`, `stderr` and `exitCode` back unchanged. A client error on every try stays unanswered. Any other status raises `AzureCommandError` with "Command failed: <command>. Status: <status>". |
| Legacy.ProcessVmOutcome | create_snap-v20240811.py:132-168 | A task issues only its create command, named with its own clock reading. A non-200 status or a non-zero exit records the error's message. A clean reply with an id appends it and records the name. A reply without an id records "Failed to extract snapshot ID". A client error or an undecodable reply escapes and records nothing. |
| Legacy.ProcessVm | create_snap-v20240811.py:132-168 | `process_vm` with its own clock reading: issue the create command, then act on the reply. `Legacy.ProcessVmOutcome` and `ProcessVmRecordsOnce` state its outcomes. |
| Legacy.AfterCreate | create_snap-v20240811.py:141-165 | What `process_vm` does with the create reply, catching `AzureCommandError` only; stated with `ProcessVm`'s lemmas. |
| Legacy.ProcessVmRecordsOnce | create_snap-v20240811.py:147-165 | A task that raises records nothing. A task that does not records exactly one outcome, for its own VM. |
| Legacy.AfterLookupOutcome | create_snap-v20240811.py:232-245 | A non-200 status or a non-zero lookup exit sends the loop to the group's `except`. A client error, an undecodable reply or a missing key raises out of `main`. A turn that goes on without a task exception records its VM once. |
| Legacy.Turn | create_snap-v20240811.py:232-245 | One turn of the lookup loop: the `az vm show` lookup, then the reply's handling. |
| Legacy.AfterLookup | create_snap-v20240811.py:238-245 | What the loop does with a lookup reply; `Legacy.AfterLookupOutcome` states it. |
| Legacy.RunVmsRecorded | create_snap-v20240811.py:232-245 | The names the lookup loop records are a subsequence of its VMs' names, so no VM is recorded more often than it occurs in the group. Without a task exception, a loop that runs to the end records each VM once, in order. |
| Legacy.RunVms | create_snap-v20240811.py:231-245 | The lookup loop over a group's VMs, left at the first `AzureCommandError` or other exception, with the VMs left without a turn. `RunVmsRecorded`, `RunVmsAborted` and `RunVmsStamps` state it. |
| Legacy.RunVmsAborted | create_snap-v20240811.py:232-245 | A loop that aborts leaves the failing VM and every later one without a turn. Without a task exception, it has recorded each earlier VM once, in order. |
| Legacy.RunGroupSwitchFails | create_snap-v20240811.py:225-227 | A failed switch records every VM of the group as failed with the error's message, issues no lookup or create, and does not stop the run. |
| Legacy.RunGroup | create_snap-v20240811.py:222-255 | One iteration of the group loop: the switch command, then its reply's handling. |
| Legacy.AfterSwitch | create_snap-v20240811.py:225-255 | A refused or failing switch fails the whole group; a clean one runs the lookup loop and `gather`; an abort goes to the group's `except`, as written failing every VM of the group and, corrected, only the VMs left without a turn. `RunGroupSwitchFails`, `RunGroupKept`, `RunGroupAtLeastOnce` and `RunGroupRecordsEach` state it. |
| Legacy.RunGroupKept | create_snap-v20240811.py:222-255 | Whatever happens in a group, the rid-list discipline holds and the only switch is to the group's subscription. |
| Legacy.RunGroupAtLeastOnce | create_snap-v20240811.py:250-255 | With the `except` as written, a group that does not end the run records each of its VMs at least once, in order, and at most twice. |
| Legacy.RunGroupRecordsEach | create_snap-v20240811.py:222-255 | With the corrected `except`, a group that does not end the run records each of its VMs exactly once, in order. |
| Legacy.Stamped | create_snap-v20240811.py:138-139 | The i-th VM's snapshot name carries the stamp of the (k + i)-th clock reading, one reading per task. |
| Legacy.RunVmsStamps | create_snap-v20240811.py:138-147 | A lookup loop that runs to the end asks for one snapshot per VM, each stamped with its own task's reading. |
| Legacy.RunKept | create_snap-v20240811.py:222-255 | Whatever happens, there is one rid per success entry, each appended just before it. A run that ends normally switches once per distinct subscription, in first-seen order. |
| Legacy.RunGroups | create_snap-v20240811.py:222-255 | The group loop in first-seen subscription order, stopping at the first exception; the clock index advances by each group's size. |
| Legacy.Run | create_snap-v20240811.py:189-255 | `async_main` after the input is read: nothing for an empty list, a raise for a malformed line, otherwise the group loop. `RunKept`, `RunAtLeastOnce` and `RunRecordsEachVmOnce` state it. |
| Legacy.RunAtLeastOnce | create_snap-v20240811.py:222-279 | As written, a run that ends normally records every input VM at least once and at most twice. The two lists together hold between one and two entries per input line. |
| Legacy.RunRecordsEachVmOnce | create_snap-v20240811.py:222-279 | With the corrected `except`, a run that ends normally records each input VM exactly once, and the two lists together are as long as the input. |
| Legacy.GroupAbortAfterFirstTask | create_snap-v20240811.py:232-255 | Suppose the switch succeeds, the first VM's task completes and the second lookup fails. The group then records the first VM twice and every VM as failed, and issues nothing after the failing lookup. |
| Legacy.ExampleShowsDoubleRecording | create_snap-v20240811.py:232-255 | A concrete three-VM environment in which only the second lookup fails meets the conditions of `GroupAbortAfterFirstTask`. |
| LegacyLogin.VerifyAzureLogin | create_snap-v20240811.py:78-91 | Already logged in exactly when `az account show` exits 0. Logged in now exactly when it fails and `az login` exits 0. "CLI not found" exactly when either process cannot start. "Failed to log in" exactly when both exit non-zero. |
| LegacyLogin.LoginErrorMessage | create_snap-v20240811.py:86-91 | The two texts of `AzureLoginError`: the failed `az login` and the missing CLI. |
| LegacyLogin.StricterThanCommonCheck | create_snap-v20240811.py:183-187 | The common check always passes. This one stops the run exactly when `az account show` does not succeed and `az login` cannot help. |
| SnapshotShow.DetailsOf | validate_snapshot.py:93-99 | The details exist exactly when all four keys are present, and they carry those keys' values. |
| SnapshotShow.ShowOutput | validate_snapshot.py:31-37 | The validators' command output is exactly the output common.py's `run_az_command` gives: the stripped stdout of a clean exit, otherwise none. |
| ValidateV2.CheckSnapshot | validate_snap_v2.2.0.py:171-197 | A snapshot is recorded as existing exactly when the reply is non-empty and decodes to an object with all five keys; the record then carries Azure's name and details. Anything else is recorded as missing under the name extracted from the id. |
| ValidateV2.Validate | validate_snap_v2.2.0.py:103-108 | `gather` gives one record per id, in the list's order, each the check of its own id. |
| ValidateV2.Check | validate_snap_v2.2.0.py:171-197 | `validate_snapshot` against the outside world: `CheckSnapshot` on how `az snapshot show` ends for the id. |
| ValidateV2.SummaryPartition | validate_snap_v2.2.0.py:114-124 | The valid and invalid lists split the results: each record lands in exactly one, and the counts add up to the number of ids. |
| ValidateV2.MoveInvalidPartition | validate_snap_v2.2.0.py:199-211 | The two files written split the list in order, hold every id as often as the list does, and an id is moved exactly when its extracted name is among the invalid names. |
| ValidateV2.MoveInvalid | validate_snap_v2.2.0.py:199-211 | `move_invalid_snapshots` as written: move the ids whose extracted name is an invalid record's name, keep the rest. `MoveInvalidPartition` and `ValidSnapshotMoved` state it. |
| ValidateV2.ValidSnapshotMoved | validate_snap_v2.2.0.py:199-209 | As written, an id whose snapshot exists is moved out when another id, whose snapshot does not exist, extracts to the same name. |
| ValidateV2.LiveSnapshotMovedWithStaleOne | validate_snap_v2.2.0.py:199-209 | Concretely, take two snapshots of one VM under one change number, the older one deleted. The live snapshot's id lands in the invalid file. |
| ValidateV2.PickPartition | validate_snap_v2.2.0.py:201-209 | Picking ids by their own records' flag splits the list: every id goes to exactly one side, and each side keeps the list order. |
| ValidateV2.MoveByOwnRecord | validate_snap_v2.2.0.py:199-211 | The corrected move splits the list in order and moves an id exactly when its own snapshot does not exist. |
| ValidateV2.MoveInvalidPaired | validate_snap_v2.2.0.py:199-211 | The corrected move: each id goes by its own result, paired by position. `MoveByOwnRecord` states it. |
| ValidateCli.ShownText | validate_snapshot.py:102-103 | A displayed name ends with the extracted name. It differs from it exactly when labelled, and a labelled name starts with "Not found: ". |
| ValidateCli.CheckId | validate_snapshot.py:81-105 | A record built for an id carries that id and is marked existing exactly when it has details. |
| ValidateCli.CheckIdOutcome | validate_snapshot_promax.py:76-99 | A failing command or empty output: missing, labelled "Not found: ". Output that is not JSON: missing under the plain name. An object with the four keys: existing. A process that cannot start, a non-object, or a missing key raises out of the loop. |
| ValidateCli.ValidateSnapshots | validate_snapshot.py:81-106 | The records are those of the list's ids, one each, in order. A run that ends early stops at the first id that raises. |
| ValidateCli.Turn | validate_snapshot.py:81-105 | One turn of the loop against the outside world: `CheckId` on how `az snapshot show` ends for the id. |
| ValidateCli.MissingNameShape | validate_snapshot.py:82-103 | A missing snapshot is shown under its extracted name, labelled exactly when the command failed or printed nothing. |
| ValidateCli.SummaryCounts | validate_snapshot.py:133-135 | In a finished run every id is counted once, as existing or missing, according to its own turn. |
| ValidateSdk.NameList | validate_snapy.py:81-85 | The names looked up are the extracted names of the stripped lines, one per line, in order. |
| ValidateSdk.CheckName | validate_snapy.py:157-179 | A record names its query, and an existing snapshot carries no error. |
| ValidateSdk.CheckNameOutcome | validate_snapy.py:160-179 | A found record holds a listed snapshot of the queried name, with segment 4 of its id as resource group. An id too short for that raises. With no snapshot of that name, the lookup raises when the pager does and otherwise reports the snapshot missing. |
| ValidateSdk.FirstMatchDecides | validate_snapy.py:160-170 | Only the first listed snapshot of the queried name counts; later items and a later pager error are never read. |
| ValidateSdk.LookupAll | validate_snapy.py:100-104 | `gather` gives one record per name, in order, each the lookup of its own name against the same listing. |
| ValidateSdk.SummaryCounts | validate_snapy.py:115-117 | The valid and invalid counts add up to the number of lines, and a lookup that raised counts as invalid. |
| ValidateSdk.CreatedSnapshotNotFound | validate_snapy.py:157-174 | A created snapshot's own id in the list is never found, even when every listed snapshot is that very snapshot, because the query has its timestamp cut off. |
| ValidateSdk.ValidateFullNamesAt | validate_snapy.py:81-104 | The corrected validation gives one record per line, each the full-name lookup of its own line. |
| ValidateSdk.CheckLine | validate_snapy.py:157-179 | The corrected lookup of a list line, by the full last segment of its id. `FullNameFindsSnapshot` states what it finds. |
| ValidateSdk.ValidateFullNames | validate_snapy.py:81-104 | The corrected validation, one lookup per line. `ValidateFullNamesAt` states it. |
| ValidateSdk.SnapshotIdName | validate_snapy.py:83-84 | A snapshot's resource id is already stripped, and its last segment is the snapshot's name. |
| ValidateSdk.SnapshotIdGroup | validate_snapy.py:166 | Segment 4 of a snapshot's resource id is its resource group. |
| ValidateSdk.GroupOfId | validate_snapy.py:166 | `snapshot.id.split('/')[4]`, or nothing where indexing raises. `SnapshotIdGroup` states it for a snapshot's resource id. |
| ValidateSdk.FullNameFindsSnapshot | validate_snapy.py:157-170 | With full-name queries, a line whose last segment is a listed snapshot's name finds the first such snapshot, in the resource group its id names. |
| Text.StripPadded | validate_snapy.py:84 | `strip()` removes exactly the whitespace margins around a core that neither starts nor ends with whitespace. |
| Text.Strip | validate_snapy.py:84 | `strip()` never lengthens its text, and what it returns neither starts nor ends with whitespace. |
| Text.StripIdempotent | validate_snap_v2.2.0.py:40 | Stripping twice is stripping once. |
| Text.JoinSplit | common.py:45 | Joining the pieces of `split(sep)` with `sep` gives the text back. |
| Text.Split | common.py:45 | `split(sep)` always gives at least one piece, and no piece contains the separator. |
| Text.Join | validate_snap_v2.2.0.py:206 | `sep.join(parts)`, the partner of `Split`; `JoinSplit` and `SplitJoin` relate the two. |
| Text.SplitJoin | validate_snapy.py:28 | `split(sep)` inverts `join` on pieces without the separator. |
| Text.LastSegment | common.py:45 | `split(sep)[-1]` is the text after the last separator: it contains none, it is a suffix, and a separator precedes it unless it is the whole text. |
| Text.RSplitOnce | validate_snapy.py:60 | `rsplit(c, 1)` gives one piece, the whole text, exactly when `c` does not occur. Otherwise it gives the text before and after the last `c`, around that `c`. |
| Text.RSplitWhitespaceOnceShape | create_snapy.py:72 | The two pieces of `rsplit(None, 1)` are a prefix of the text and its last token, separated only by whitespace. |
| Text.RSplitWhitespaceOnce | create_snapy.py:72 | `rsplit(None, 1)` gives at most two pieces, none empty, the last free of whitespace. |
| Text.TakeLast | clean_hostnames.py:14 | `s[-n:]` is the last `n` characters, or all of `s` when it is shorter. |

## Left out

- Console output, progress bars, colours, prompts (`Confirm.ask`, `inquirer`) and the log, error-log
  and summary files are left out. They are I/O. The summary's counts are modelled as lemmas about
  the two lists.
- The concurrency limit (`semaphore`, `asyncio.Semaphore(10)`) and other interleavings of tasks
  are left out. One legal schedule is modelled, in which each task runs to completion at dispatch;
  recorded order is completion order under that schedule.
- `extract_vm_info` is left out. It reads the host file and is file I/O; the model starts from the
  list of lines it returns.
- `get_subscription_names` in `common.py` is left out. It is a cloud query for display only, and
  nothing modelled uses it.
- `get_vm_info` of the older creator is left out. It is a cached CSV lookup that nothing calls.
- The `AADSTS50173` branch of `validate_snap_v2.2.0.py`'s `run_az_command` is left out. It only
  decides whether an error is logged; both branches return `None`.
- `read_snapshots` in `validate_snapy.py` is not modelled. Nothing calls it.
- `backoff`'s retries in the older creator are left out. Only the last reply matters, so a command's
  reply is what the last try got.
- A 200 reply of the older creator's endpoint is modelled as always carrying `stdout`, `stderr` and
  `exitCode`. A body without them, which would raise `KeyError`, is left out.
- The SDK's listing is one value per run: every lookup sees the same `Listing`. Changes to the
  listing between lookups are not modelled.
- LegacyLogin.VerifyAzureLogin: it treats every exception of a process as the missing CLI. Only
  `FileNotFoundError` is caught; other start failures, and output that is not text, would escape
  unmodelled.
- ValidateSdk.ErrorMessage: states only that the message is longer than the name. The exact text is
  the f-string of `validate_snapy.py:177`.
- ValidateSdk.Validate: carries no contract of its own. It is `LookupAll` over `NameList`, whose
  contracts state what it computes.
- Python's `str()` of the SDK's `time_created` and the JSON values' own types are kept as opaque
  strings and numbers.
- Run-time measurement with `time.time()` is left out. It is a clock that feeds only the display.
- `main.py`, `extract_snapshot_rids.py`, `patch_azure_cli.py` and `validate_snapshot.test.py` are
  not part of this model. They are a menu launcher, a regex and file-selection tool, an installer
  patch, and a test of a display spinner.

## Findings

| source | as written | input that shows it | evidently intended | confidence | as-written member | corrected member |
|---|---|---|---|---|---|---|
| common.py:51-53 | `check_az_login` compares the `(stdout, stderr, code)` triple with `None`; the triple is never `None`, so the check always passes | `az account show` exits 1 with "Please run 'az login'" | logged in exactly when `az account show` exits 0 | high (not executed) | Common.CheckAzLogin | Common.LoggedIn |
| validate_snap_v2.2.0.py:199-209 | ids are moved when their extracted name, with the timestamp cut off, equals an invalid record's name | the list holds a live snapshot and a deleted older snapshot of the same VM under the same change number: both ids extract to `RH_<chg>_<vm>`, so the live id is moved too | move an id exactly when its own record is invalid | high (not executed) | ValidateV2.LiveSnapshotMovedWithStaleOne | ValidateV2.MoveByOwnRecord |
| create_snap-v20240811.py:250-255 | the group's `except` fails every VM of the group, including those whose tasks already ran and recorded an outcome | a group of three VMs whose second lookup exits non-zero: the first VM is recorded as a success and then as a failure | fail only the VMs left without a turn and still gather those already dispatched, so each VM is recorded once | medium (not executed; depends on the first VM's task running before the abort, which the event loop allows) | Legacy.GroupAbortAfterFirstTask | Legacy.RunRecordsEachVmOnce |
| validate_snapy.py:157-170 | the query is the extracted name without the timestamp, but the listing reports each snapshot under its full name | the rid list holds the id of `RH_CHG1_vm1_20240811120000`; the query `RH_CHG1_vm1` matches no listed snapshot | look each snapshot up by its full name, the last segment of its id | high (not executed) | ValidateSdk.CreatedSnapshotNotFound | ValidateSdk.FullNameFindsSnapshot |
