# A verified model of the aiengines CI tooling core

This project models, in Dafny, the logic at the core of the aiengines CI
repository. It covers four Python programs and the parts of their behaviour that
are decisions rather than I/O:

- **the Jenkins agent auto-connect daemon** (`ami_generation/autoconnect.py`):
  - reads the instance's `ci:` tags into a configuration and validates it;
  - builds the agent-jar URL and the JNLP connection URL and start command;
  - counts GPUs from `nvidia-smi -L` and derives the node label;
  - shuffles the candidate slots, renames the instance before every agent launch,
    and loops over the slots. A launch whose agent stays connected never gives
    control back (`check_call` waits for the agent), so the model has a third
    outcome, `Blocked`, beside a return and an exception;
  - runs all of this under a 2000-try retry with exponential backoff, decides
    whether `main` daemonizes, and installs the signal table.
- **the `awsutils` library** (`awsutils/awsutils.py`):
  - the `.root` directory search and the port-wait loop with its sleep schedule;
  - CloudFormation stack lookup and the create / delete-then-create / update
    decision, including the emptying of artifact buckets;
  - the Ubuntu AMI table lookup with HTML-tag stripping;
  - the Ansible inventory document, the instance filters, and the keyword
    dictionaries handed to `create_instances` and `create_image`.
- **the Windows dependency installer**
  (`ami_generation/windows/windows_deps_headless_installer.py`):
  - the retried `download` and the file it writes;
  - `run_command`'s `\r\n` normalisation and error conversion;
  - the Visual Studio exit-code check and its bounded wait;
  - the PATH extension and the GPU instance-family test.
- **the Paquito AMI tool** (`ami_generation/paquito.py`):
  - pairing and flattening of the user-data list;
  - merging command-line options into the launch template and resolving an
    `ubuntu` release to an AMI;
  - the image-creation arguments and which instances provisioning stops when it ends.

The outside world is an input throughout. This covers:

- EC2 metadata and tags, boto3 answers, `shutil.which`, `nvidia-smi` output and
  the master's node list;
- the random draws of `random.shuffle`, exit statuses, connect outcomes, clock
  readings and process-list probes.

What the programs do to the world is an output. It is either a trace (downloads,
directories, renames, launches, sleeps) or the list of boto3 requests with their
arguments. Python exceptions are error values in a `Result`/`Outcome` datatype.

The three copies of the `retry` decorator are the same text and are modelled once,
in module `Retry`. The other modules are:

- `Base`: `Option`, `Result`, `Unit`.
- `Text`: the string helpers Python provides (`in`, `split`, `join`, `replace`,
  `rstrip`, `startswith`).
- `Paths`: `os.path.join` for POSIX and for Windows, and the last component of an
  NT path.
- `Values`: Python values as YAML and boto3 carry them.

In the source, `validate_config` asserts that `node_name` is present. Because of
that assert, `autoconnect`'s auto-label branch is never taken, and the connect loop
always launches the configured `node_name` whatever the list entry is. The model
keeps both behaviours and proves them (`Autoconnect.ValidatedConfigBypassesDirectory`,
`Autoconnect.AttemptOutcomes`).

## Model

| member | source | states |
|---|---|---|
| Retry.FRetry | ami_generation/autoconnect.py:73-83 | the `f_retry` loop computes exactly the recursive specification `Retry.Spec`: outcome, number of calls and sleep list |
| Retry.LoopFacts | ami_generation/autoconnect.py:74-83 | from any state: at most `max(mtries,1)` calls; the result is the last call's; every earlier call raised a caught exception; the i-th sleep is `mdelay * backoff**i` |
| Retry.CallBound | ami_generation/autoconnect.py:74-83 | the wrapper calls 1 to `max(tries,1)` times; its outcome is its last call's; stopping early means that call did not raise a caught exception |
| Retry.SleepSchedule | ami_generation/autoconnect.py:80-82 | one sleep per caught failure before the last call; the i-th sleep is `delay_s * backoff**i` |
| Retry.FirstSuccess | ami_generation/autoconnect.py:76-77 | a returned value is that of the first call that returned; every earlier call raised |
| Retry.SingleTry | ami_generation/autoconnect.py:75-83 | with `tries <= 1`: exactly one call and no sleep |
| Retry.Exhausted | ami_generation/autoconnect.py:75-83 | when every call raises a caught exception, all `max(tries,1)` calls are made and the last exception propagates |
| Retry.CatchingAllAroundNoReturn | ami_generation/autoconnect.py:73-83 | a wrapper catching every exception around a function that never returns never returns either: 1 to `max(tries,1)` calls, every call but the last raised, the i-th sleep is `delay_s * backoff**i`, and it stops early only in a call that never came back |
| Retry.MaxCalls | ami_generation/autoconnect.py:75 | the call budget is at least one |
| Text.Contains | ami_generation/autoconnect.py:195 | `p in s` holds exactly when `p` occurs at some index of `s` |
| Text.Split | ami_generation/autoconnect.py:193 | `str.split(c)` yields at least one part and no part contains `c` |
| Text.JoinSplit | ami_generation/autoconnect.py:193 | joining the parts of a split with the separator gives the text back |
| Text.SplitHead | ami_generation/windows/windows_deps_headless_installer.py:388 | the first `.`-part is `f` exactly when the text is `f` or starts with `f.` |
| Text.SplitConcat | ami_generation/windows/windows_deps_headless_installer.py:378-379 | splitting `a + c + b` gives the parts of `a` followed by those of `b` |
| Text.ReplaceChar | ami_generation/autoconnect.py:295 | `replace` of one character changes exactly the positions that held it |
| Text.RStrip | ami_generation/windows/windows_deps_headless_installer.py:376 | `rstrip()` returns a prefix whose last character is not white space; everything removed is white space |
| Paths.PathJoin | ami_generation/autoconnect.py:300 | `os.path.join(a, b)` is `a`, at most one separator (`/`, or `\` on Windows), then `b`; the separator is left out exactly when `a` is empty, already ends in one, or (on Windows) is a bare drive |
| Paths.NtTail | ami_generation/windows/windows_deps_headless_installer.py:138 | the tail of `ntpath.split` is a suffix with no separator, preceded by a separator or by nothing |
| Values.StrList | awsutils/awsutils.py:192 | a list of strings becomes a Python list of the same strings in order |
| Values.Update | awsutils/awsutils.py:195 | `dict.update`: union of the keys; the update's values win; the other values stay |
| Autoconnect.ConnectionUrlRoundTrip | ami_generation/autoconnect.py:47 | the connection URL names exactly the node it was built from, and only such URLs name a node |
| Autoconnect.SlaveConnectionUrl | ami_generation/autoconnect.py:47 | the JNLP URL of a node; what it names is stated by `ConnectionUrlRoundTrip` |
| Autoconnect.StartCommandRoundTrip | ami_generation/autoconnect.py:48 | the start command carries exactly the connection URL it was built from, and only such commands do |
| Autoconnect.SlaveStartCommand | ami_generation/autoconnect.py:48 | the agent's start command; what it carries is stated by `StartCommandRoundTrip` |
| Autoconnect.ConnectToMaster | ami_generation/autoconnect.py:91-101 | the instance is renamed to the node before the launch, and the launch command's URL names that node |
| Autoconnect.ReplaceCharSlices | ami_generation/autoconnect.py:295 | replacing characters commutes with taking a prefix or suffix |
| Autoconnect.ReplaceCharAbsent | ami_generation/autoconnect.py:295 | text without the character is left unchanged |
| Autoconnect.ReplaceCharConcat | ami_generation/autoconnect.py:295 | replacing characters distributes over concatenation |
| Autoconnect.JarUrl | ami_generation/autoconnect.py:295 | the jar URL has no backslash; it is the master URL with `\` turned into `/`, then one `/` unless the master URL already ends in a separator (or is empty or a bare drive), then `jnlpJars/slave.jar` |
| Autoconnect.NvidiaSmiPath | ami_generation/autoconnect.py:201-208 | `nvidia-smi` on the PATH wins; the fixed path is second; None exactly when neither is found |
| Autoconnect.GpuLines | ami_generation/autoconnect.py:192-196 | the GPU count never exceeds the number of lines |
| Autoconnect.GetNumGpus | ami_generation/autoconnect.py:176-198 | the counting loop equals the line count of `NumGpus`; no usable `nvidia-smi` gives 0 |
| Autoconnect.OccursInPieces | ami_generation/autoconnect.py:193-195 | an occurrence in a line is an occurrence in the joined output |
| Autoconnect.OccursAcrossNewline | ami_generation/autoconnect.py:193-195 | an occurrence of newline-free text in the joined output lies within one line |
| Autoconnect.OccursInJoin | ami_generation/autoconnect.py:193-195 | newline-free text occurs in the joined lines exactly when it occurs in some line |
| Autoconnect.GpuLinesPositive | ami_generation/autoconnect.py:192-196 | the count is positive exactly when some line contains "GPU" |
| Autoconnect.GpuPresentIffOutputMentionsGpu | ami_generation/autoconnect.py:170-173 | with `nvidia-smi` found, `is_gpu_present` holds exactly when the output contains "GPU" anywhere |
| Autoconnect.NodeLabel | ami_generation/autoconnect.py:113-131 | the label is `mxnet-` + `windows-`/`linux-` + `gpu`/`cpu`; any other system raises `RuntimeError` with that system |
| Autoconnect.NodeLabelInjective | ami_generation/autoconnect.py:113-131 | equal labels mean the same system and the same GPU presence |
| Autoconnect.CiKey | ami_generation/autoconnect.py:223 | `re.fullmatch('ci:(.+)', key)`; its meaning is stated by `CiKeyMeaning` |
| Autoconnect.CiKeyMeaning | ami_generation/autoconnect.py:223 | the full match `ci:(.+)` yields `k` exactly when the key is `ci:` + a non-empty `k` without newline |
| Autoconnect.TagConfig | ami_generation/autoconnect.py:217-226 | the configuration the tags give; stated by `TagConfigMeaning`, computed by `ConfigFromTags` |
| Autoconnect.ConfigFromTags | ami_generation/autoconnect.py:221-226 | the tag loop computes the configuration `TagConfig` |
| Autoconnect.TagConfigMeaning | ami_generation/autoconnect.py:222-225 | a key is configured exactly when some tag yields it; its value is that of the last tag yielding it |
| Autoconnect.ValidateConfig | ami_generation/autoconnect.py:211-214 | passes exactly when all three keys are present; otherwise fails naming a missing key |
| Autoconnect.OfflineMatching | ami_generation/autoconnect.py:109-110 | the names kept are exactly those of offline nodes whose names start with the label |
| Autoconnect.Candidates | ami_generation/autoconnect.py:309-318 | with `node_name` configured, the list is exactly `[node_name]` |
| Autoconnect.ValidatedConfigBypassesDirectory | ami_generation/autoconnect.py:292-310 | after `validate_config` passes, the auto-label branch is never taken |
| Autoconnect.Swap | ami_generation/autoconnect.py:323 | a swap keeps the length |
| Autoconnect.ShuffleDown | ami_generation/autoconnect.py:323 | each shuffle step keeps the length |
| Autoconnect.Shuffled | ami_generation/autoconnect.py:323 | the shuffled list has the input's length |
| Autoconnect.SwapIsPermutation | ami_generation/autoconnect.py:323 | a swap keeps the multiset of names |
| Autoconnect.ShuffledIsPermutation | ami_generation/autoconnect.py:323 | whatever the random draws, the shuffle is a permutation of the candidates |
| Autoconnect.ShuffleDownIsPermutation | ami_generation/autoconnect.py:323 | each partial shuffle is a permutation |
| Autoconnect.Shuffle | ami_generation/autoconnect.py:323 | the in-place array shuffle leaves the array equal to `Shuffled` of its old contents |
| Autoconnect.ConnectLoop | ami_generation/autoconnect.py:331-337 | the `for` loop over the shuffled entries given each launch's exit status or none; stated by `ConnectLoopEffects` |
| Autoconnect.ConnectLoopShapeStep | ami_generation/autoconnect.py:331-336 | a launch that exited 0 followed by a loop of the stated shape gives the stated shape one entry earlier |
| Autoconnect.ConnectLoopEffects | ami_generation/autoconnect.py:331-337 | the loop renames to and launches `node_name` once per entry tried, at least one and at most one per entry; every launch but the last exited 0; it stays blocked exactly when the last agent stays connected, raises the launch failure with its status exactly when the last exit status is nonzero, and raises 'Could not connect' exactly when every entry was launched and exited 0 |
| Autoconnect.ClaimSlots | ami_generation/autoconnect.py:325-337 | the empty-list check and the connect loop; stated by `ClaimSlotsOutcomes` |
| Autoconnect.ClaimSlotsOutcomes | ami_generation/autoconnect.py:325-337 | never returns normally; an empty list renames to 'error-no-free-slot', launches nothing and raises; a missing `node_name` raises `KeyError` before any launch; otherwise the connect loop's outcome and trace as stated for `ConnectLoopEffects` |
| Autoconnect.Setup | ami_generation/autoconnect.py:295-305 | the jar download and the two directories, in order; used by `AttemptOutcomes` |
| Autoconnect.Attempt | ami_generation/autoconnect.py:290-337 | one call of `autoconnect`; stated by `AttemptNeverReturns` and `AttemptOutcomes` |
| Autoconnect.Validated | ami_generation/autoconnect.py:292-337 | `autoconnect` after `validate_config` passed; stated by `AttemptOutcomes` |
| Autoconnect.ConnectEach | ami_generation/autoconnect.py:331-337 | the connect `for` loop computes `ConnectLoop` |
| Autoconnect.Claim | ami_generation/autoconnect.py:325-337 | the empty check and loop over the array compute `ClaimSlots` |
| Autoconnect.Autoconnect | ami_generation/autoconnect.py:290-337 | one call of `autoconnect` computes the outcome and trace of `Attempt` |
| Autoconnect.RunValidated | ami_generation/autoconnect.py:295-337 | download, directories, in-place shuffle and claim compute `Validated` |
| Autoconnect.AttemptNeverReturns | ami_generation/autoconnect.py:290-337 | `autoconnect` never returns normally; it stays blocked only after the tags were read and validated and the jar was downloaded |
| Autoconnect.AttemptOutcomes | ami_generation/autoconnect.py:295-337 | with valid tags and the jar downloaded: download, two directories, one rename-then-launch for `node_name`; blocked while that agent stays connected, the launch failure if its exit status is nonzero, else 'Could not connect' |
| Autoconnect.AttemptEndsWhenLaunchesEnd | ami_generation/autoconnect.py:331-337 | when every agent launch ends with an exit status, one call of `autoconnect` is not blocked |
| Autoconnect.AutoconnectRun | ami_generation/autoconnect.py:289 | `retry(Exception, tries=2000)` around `autoconnect`; stated by `AutoconnectRunOutcome` |
| Autoconnect.AutoconnectRunOutcome | ami_generation/autoconnect.py:289-337 | the retried daemon never returns normally; 1 to 2000 calls, every call but the last raised, the i-th sleep is `2**i`; it stops before 2000 calls only in a launch whose agent stays connected |
| Autoconnect.AutoconnectAlwaysRaises | ami_generation/autoconnect.py:289 | when every agent launch ends, the retried daemon makes all 2000 calls, sleeps `2**i` after the i-th, and re-raises the last exception |
| Autoconnect.Main | ami_generation/autoconnect.py:357-369 | `main`; stated by `MainNeverMarksTooManyAttempts` |
| Autoconnect.MainNeverMarksTooManyAttempts | ami_generation/autoconnect.py:357-369 | `main` daemonizes exactly when not in the foreground and not on Windows; it never reaches its 'error-too-many-attempts' rename; it stays blocked exactly when the retried daemon does; its trace is the daemonizing and the attempts' effects with their sleeps |
| Autoconnect.Deliver | ami_generation/autoconnect.py:280-286 | SIGHUP, SIGTTIN, SIGTSTP and SIGTTOU are ignored; SIGTERM and SIGUSR1 call handlers that take no parameters and so raise |
| AwsUtils.Parent | awsutils/awsutils.py:27-28 | the parent drops the last component; only `/` is its own parent |
| AwsUtils.GetRoot | awsutils/awsutils.py:21-31 | succeeds exactly when some ancestor-or-self holds `.root`, returning the nearest one; otherwise raises the `RuntimeError` with its message |
| AwsUtils.Pass | awsutils/awsutils.py:262-295 | one pass of the wait loop never leaves it waiting |
| AwsUtils.WaitPortOpen | awsutils/awsutils.py:241-295 | the loop computes `WaitLoop`'s outcome and sleep list |
| AwsUtils.WaitLoopFacts | awsutils/awsutils.py:258-295 | every pass before the last continues; the result is the last pass's; the loop runs out of answers only if no pass stops; each sleep is 1 exactly after a refused connect |
| AwsUtils.SleepSchedule | awsutils/awsutils.py:252-276 | the first sleep is 0, the i-th is 1 exactly when an earlier connect raised `ConnectionError`; never back to 0 |
| AwsUtils.WaitOutcome | awsutils/awsutils.py:263-295 | at the first stopping pass: success gives True; `gaierror`, an expired deadline or `socket.timeout` with a timeout give False; `TimeoutError` propagates |
| AwsUtils.FalseWithoutTimeoutNeedsGaierror | awsutils/awsutils.py:246-247 | without a timeout, False is answered only after a `gaierror` |
| AwsUtils.ExpiredDeadline | awsutils/awsutils.py:263-266 | a deadline already past at the first pass gives False after one sleep of 0 |
| AwsUtils.StackExists | awsutils/awsutils.py:140-147 | true exactly when a stack of that name is listed with a status other than DELETE_COMPLETE |
| AwsUtils.ArtifactBuckets | awsutils/awsutils.py:160-162 | no more buckets than outputs |
| AwsUtils.CollectBuckets | awsutils/awsutils.py:157-162 | the loop gives no buckets without `Outputs`, else the `ArtifactBucket` values |
| AwsUtils.ArtifactBucketsAppend | awsutils/awsutils.py:160-162 | the buckets of concatenated outputs are the concatenated buckets: order is kept |
| AwsUtils.ArtifactBucketsMembers | awsutils/awsutils.py:160-162 | a bucket is collected exactly when some output names it under `ArtifactBucket` |
| AwsUtils.EmptyBuckets | awsutils/awsutils.py:163-167 | one emptying request per bucket, in order |
| AwsUtils.DeleteStack | awsutils/awsutils.py:170-178 | no request unless the stack is listed; otherwise empty its buckets, delete it, then wait for `stack_delete_complete` |
| AwsUtils.StackParams | awsutils/awsutils.py:188-195 | the four defaults, each overridden by the caller's parameter of the same name |
| AwsUtils.InstantiateTemplate | awsutils/awsutils.py:182-218 | the requests of `instantiate_CF_template`; stated by `InstantiateDecision` |
| AwsUtils.InstantiateDecision | awsutils/awsutils.py:182-218 | the exact request sequence: validate, then for an unlisted stack create and wait; for ROLLBACK_COMPLETE validate, the whole `delete_stack` sequence, create and wait; otherwise update and wait; every create or update carries the stack parameters |
| AwsUtils.RowMatches | awsutils/awsutils.py:236 | on a row of five or more columns, the comprehension's condition |
| AwsUtils.MatchingRows | awsutils/awsutils.py:236 | the comprehension `res`; stated by `MatchingRowsFirst` |
| AwsUtils.GetUbuntuAmi | awsutils/awsutils.py:222-239 | `get_ubuntu_ami`; stated by `UbuntuAmiSelection` |
| AwsUtils.MatchingRowsFirst | awsutils/awsutils.py:236 | on well-formed rows: exactly the wanted rows, in order |
| AwsUtils.UbuntuAmiSelection | awsutils/awsutils.py:236-239 | `IndexError` exactly when no row is wanted; otherwise the first wanted row's link with tags stripped |
| AwsUtils.TagEnd | awsutils/awsutils.py:238 | a match of `<[^<]+?>` starts with `<`, ends at the first `>` and holds no other `<` |
| AwsUtils.CloseFrom | awsutils/awsutils.py:238 | the lazy match's end is the first `>` from the search position |
| AwsUtils.StripTags | awsutils/awsutils.py:238 | stripping tags never lengthens the text |
| AwsUtils.StripTagsPlain | awsutils/awsutils.py:238 | text without `<` is kept as it is |
| AwsUtils.StripTagsTag | awsutils/awsutils.py:238 | a complete tag is removed |
| AwsUtils.StripTagsSampleLink | awsutils/awsutils.py:234-238 | the sample link of the AMI table gives `ami-71e2b40e` |
| AwsUtils.HostTableMeaning | awsutils/awsutils.py:379-381 | one key per host, each mapped to None |
| AwsUtils.HostDict | awsutils/awsutils.py:379-381 | the loop builds `HostTable` |
| AwsUtils.Inventory | awsutils/awsutils.py:382-385 | the document is `all` holding exactly `hosts` (the host set) and `vars` (the keyword arguments) |
| AwsUtils.TaggedInstanceFilters | awsutils/awsutils.py:416-421 | one `tag:` filter per tag, in order, then the pending/starting/running state filter |
| AwsUtils.InterfaceDicts | awsutils/awsutils.py:464 | iterating the interfaces fails with `TypeError` exactly when they are not a list of dicts, an empty string or an empty dict |
| AwsUtils.CreateInstancesKwargs | awsutils/awsutils.py:456-468 | the keys are exactly the six defaults, the caller's keys, and `SecurityGroupIds` when there are no interfaces; the defaults' values unless overridden; the groups go into every interface, or into `SecurityGroupIds` when there are no interfaces; the caller's arguments override; `TypeError` exactly when the interfaces cannot be iterated as dicts |
| AwsUtils.CreateImageKwargs | awsutils/awsutils.py:487-491 | the caller's arguments with `InstanceId`, `Name` and `Description` forced |
| Installer.LocalPath | ami_generation/windows/windows_deps_headless_installer.py:137-141 | no destination gives none; anything but a non-empty directory is kept unchanged |
| Installer.LocalPathJoinsLastSegment | ami_generation/windows/windows_deps_headless_installer.py:138-139 | with a non-empty directory, the target is the normalised join of the directory, at most one backslash, and the URL path's last segment, which ends the URL path and holds no separator |
| Installer.DownloadOnce | ami_generation/windows/windows_deps_headless_installer.py:118-156 | one call of `download`; stated by `DownloadOnceResult` |
| Installer.DownloadOnceResult | ami_generation/windows/windows_deps_headless_installer.py:142-156 | an open error propagates; a non-numeric HTTP length raises `ValueError`; a nonzero HTTP length equal to the existing file's size returns the target without fetching; otherwise a fetch error propagates exactly when there is one, and a return gives the target, or the temporary file when there is none |
| Installer.DownloadRetrySchedule | ami_generation/windows/windows_deps_headless_installer.py:117 | at most five calls; sleeps of 2, 10, 50, 250 seconds; the outcome is the last call's |
| Installer.CrlfToLf | ami_generation/windows/windows_deps_headless_installer.py:164 | the replacement never lengthens the output |
| Installer.CrlfToLfDropsCr | ami_generation/windows/windows_deps_headless_installer.py:164 | the left-to-right replacement equals removing every `\r` directly before a `\n` |
| Installer.CrlfSinglePass | ami_generation/windows/windows_deps_headless_installer.py:164 | a single pass: `\r\r\n` becomes `\r\n` |
| Installer.CrlfToLfNoCr | ami_generation/windows/windows_deps_headless_installer.py:164 | output without `\r` is unchanged |
| Installer.RunCommand | ami_generation/windows/windows_deps_headless_installer.py:161-168 | exit 0 gives the normalised output; a nonzero exit raises the `RuntimeError` with command, code and output; a timeout propagates |
| Installer.VsExitCheck | ami_generation/windows/windows_deps_headless_installer.py:224-228 | success exactly for 0 and 3010; anything else raises with the status |
| Installer.ProgressMarks | ami_generation/windows/windows_deps_headless_installer.py:236-237 | progress is logged at exactly the multiples of 60 below the final timer, in increasing order |
| Installer.ProgressMarksCount | ami_generation/windows/windows_deps_headless_installer.py:236-237 | `ceil(n/60)` progress lines for `n` seconds waited |
| Installer.WaitForVs | ami_generation/windows/windows_deps_headless_installer.py:233-240 | timer at most 3600; it stopped at the first look without an installer or at 3600; progress at every multiple of 60; one final look |
| Installer.WaitEnds | ami_generation/windows/windows_deps_headless_installer.py:234 | the wait ends at the first look without an installer or after 3600 s with 60 progress lines |
| Installer.InstallVs | ami_generation/windows/windows_deps_headless_installer.py:199-243 | rename first; a failed rename stops; then run `<file>.exe`; accept 0 and 3010, else raise; then wait |
| Installer.NewPathEntries | ami_generation/windows/windows_deps_headless_installer.py:376-379 | the new PATH's entries are the stripped old entries followed by exactly the three directories |
| Installer.AppendedEntries | ami_generation/windows/windows_deps_headless_installer.py:378-379 | appending three `;`-free entries adds exactly those entries |
| Installer.AppendEntry | ami_generation/windows/windows_deps_headless_installer.py:378-379 | appending `;` and one `;`-free entry adds exactly that entry |
| Installer.AddPaths | ami_generation/windows/windows_deps_headless_installer.py:371-381 | read the PATH, then store the extended PATH; a failed read stops |
| Installer.HasGpu | ami_generation/windows/windows_deps_headless_installer.py:384-392 | `has_gpu`; stated by `HasGpuMeaning` |
| Installer.HasGpuMeaning | ami_generation/windows/windows_deps_headless_installer.py:384-392 | true exactly when the instance type is a GPU family or a GPU family followed by `.` |
| Installer.InstallsGpuDriver | ami_generation/windows/windows_deps_headless_installer.py:410-411 | `main` installs the GPU driver with `--gpu` or on a GPU instance; uses `HasGpu` |
| Paquito.Pairs | ami_generation/paquito.py:34-42 | `len/2` pairs; pair i is elements 2i and 2i+1 |
| Paquito.PairSeqs | ami_generation/paquito.py:45-46 | each pair as the two elements `chain` yields |
| Paquito.FlattenAppend | ami_generation/paquito.py:45-46 | `flatten` distributes over concatenation |
| Paquito.FlattenPairs | ami_generation/paquito.py:34-46 | flattening the pairs of an even list gives the list back |
| Paquito.PairsFlatten | ami_generation/paquito.py:34-46 | pairing a flattened list of pairs gives the pairs back |
| Paquito.GroupUserDataAsWritten | ami_generation/paquito.py:34-42 | `group_user_data` as written; stated by `GroupUserDataNeverReturns` |
| Paquito.GroupUserDataNeverReturns | ami_generation/paquito.py:37-38 | as written, every list raises: an odd one fails the assert, every even one (the empty list and one file/mime pair among them) raises `NameError` |
| Paquito.GroupUserData | ami_generation/paquito.py:34-42 | an odd length fails the assert; an even length gives `Pairs` |
| Paquito.ArgName | ami_generation/paquito.py:198 | the attribute name has the key's length and no `-` |
| Paquito.MergeKeys | ami_generation/paquito.py:197-200 | a key ends up present exactly when the template had it or the option is truthy; template values are never replaced; added values are the options' |
| Paquito.MergeArgs | ami_generation/paquito.py:197-200 | the merge loop computes `MergeKeys` over the five options |
| Paquito.KeepInstanceCanBeAbsent | ami_generation/paquito.py:150-152 | without the flag and the key, the merged template has no `keep-instance` |
| Paquito.ResolveAmi | ami_generation/paquito.py:202-203 | no `ubuntu` key keeps the template; a release string sets `ami` to the lookup's result or fails with its error |
| Paquito.ResolveUbuntuAmi | ami_generation/paquito.py:202-203 | `IndexError` exactly when no row is wanted; otherwise only `ami` changes, to the id of the first wanted row |
| Paquito.CreateAmiImageArgs | ami_generation/paquito.py:59-63 | succeeds exactly when the template holds the block device mappings; the arguments are those mappings, `NoReboot = not reboot`, instance, name and description |
| Paquito.ProvisionEndingAsWritten | ami_generation/paquito.py:137-141 | the `finally` clause as written; stated by `ProvisionLeaksInstances` |
| Paquito.ProvisionLeaksInstances | ami_generation/paquito.py:137-141 | as written, a template without `keep-instance` fails with `KeyError` and stops nothing |
| Paquito.ProvisionEnding | ami_generation/paquito.py:137-141 | the body's outcome is kept; all or none of the instances are stopped |
| Paquito.ProvisionStopsUnlessKept | ami_generation/paquito.py:137-141 | the instances are stopped exactly when neither the template nor the option asks to keep them; with the key present it agrees with the source |

## Left out

- Logging, `yaml.dump`, `pprint`, the MIME assembly of user data, and the progress bar: output only.
- boto3, python-jenkins, `urllib`, `subprocess`, `psutil`, the file system and the clock: their answers are inputs and their requests are outputs.
- Autoconnect: the forks, `setsid`, `umask` and stream redirection of `daemonize` are one `Daemonize` effect.
- Autoconnect.AutoconnectAlwaysRaises: sleeps are unbounded integers. In CPython, `time.sleep(2**34)` raises `OverflowError` (the delay no longer fits in 64-bit nanoseconds), and that sleep sits in the retry's `except` clause. So after the 35th failure the real daemon leaves the retry with `OverflowError`, about 544 years of sleeping in; the model keeps going to 2000 calls.
- Autoconnect.AutoconnectRunOutcome: the same sleep overflow after the 35th failure is not modelled.
- Autoconnect: an agent that stays connected for good is a `Blocked` outcome with no further effects; one that disconnects later is its eventual exit status. How long a launch ran (`total_runtime_seconds`, computed and never used) is not modelled.
- Autoconnect: `rename_instance` swallows its own exceptions, so a rename is recorded as an effect whether or not it succeeded.
- AwsUtils.WaitPortOpen: the loop has no bound, so the model is given a finite list of connect answers, and `Waiting` means that list ran out.
- AwsUtils.WaitPortOpen: `socket.timeout` and `TimeoutError` are kept distinct as in Python before 3.10, where they are different classes.
- AwsUtils: the duplicated definition of `wait_port_open` (awsutils/awsutils.py:34-89) is the same text as the one at :241-296, which replaces it; only the latter is cited.
- AwsUtils: `get_root` works on absolute paths as component lists; symbolic links are not resolved.
- AwsUtils.InstantiateTemplate: the `describe_stacks` and `list_stacks` answers are assumed to be the same throughout one call.
- AwsUtils.CreateInstancesKwargs: the caller's interface dictionaries are updated in place in the source. The model returns new dictionaries and does not model that aliasing.
- AwsUtils: `create_tags` after `create_instances`, `create_security_groups`, `wait_for_instances`, `ansible_provision_host`, `create_inventory` and `create_hosts_file` only call the services.
- Installer.LocalPath: `os.path.normpath` is a parameter.
- Installer.LocalPath: the URL's path (`urlparse(url).path`) is an input.
- Paths.PathJoin: Windows joining treats a bare drive `X:` and a trailing separator only; absolute second arguments, UNC paths and drive-relative forms are not modelled.
- Installer.InstallVs: the installer's path is an input rather than the result of the retried `download`.
- Installer.InstallVs: `install_cuda`, `install_cudnn`, `install_openblas` and the other installers are fixed command sequences and are not modelled; `copy` and `on_rm_error` are file-system workarounds.
- Installer: `main`'s sequence of installs is not modelled beyond its GPU decision (`InstallsGpuDriver`).
- Paquito.ResolveAmi: a non-string `ubuntu` release is reported as `TypeError` even when no row has the region, where the source raises `IndexError`.
- Paquito.CreateAmiImageArgs: the image name and description are strings; the `None` that `--image-name` defaults to is not modelled.
- Paquito: `_provision`'s security-group creation, key import, account lookup, instance launch and waits are service calls; only its `finally` decision is modelled.
- Paquito: `parse_args`, `validate_args` (never called) and the YAML loading of the template file are not modelled; a file whose YAML is not a mapping is not considered.

## Findings

| source | as written | input that shows it | evidently intended | confidence | as-written member | corrected member |
|---|---|---|---|---|---|---|
| ami_generation/paquito.py:38 | `group_user_data` builds a `deque`, a name neither the module nor `awsutils` binds | any even-length list, e.g. `["user-data.sh", "text/x-shellscript"]`: `NameError` instead of one pair | pair the elements two at a time from the front | high, not executed | Paquito.GroupUserDataNeverReturns | Paquito.GroupUserData |
| ami_generation/paquito.py:138 | the `finally` clause subscripts `launch_template['keep-instance']` | a template without `keep-instance`, run without `--keep-instance`: `KeyError` replaces the outcome and the launched instances keep running | a missing key reads as False, so the instances are stopped | medium, not executed | Paquito.ProvisionLeaksInstances | Paquito.ProvisionStopsUnlessKept |
