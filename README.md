# voxnix control plane — a Dafny model

voxnix is a control plane for NixOS containers on one host. Users drive it from Telegram. An agent turns their requests into tool calls, and the tools shell out to `zfs`, `machinectl`, `systemctl`, `journalctl`, `nixos-container`, `tailscale` and `nix`. This project models the logic behind those calls and proves what it promises:

- `Cli`: the command result. Both streams are stripped, success means exit code 0, and a process that does not finish in time raises a timeout.
- `Zfs`, `ZfsLemmas`, `ZfsStorage`: the storage provisioner.
  - The `tank/users/<owner>/containers/<name>/workspace` naming scheme.
  - User-root, container-dataset and destroy flows, as a `Pool` class over a map of datasets with a log of the `zfs` commands it issued.
  - The byte-count humaniser and the `zfs get` parser.
- `Models`, `Generator`: container-spec validation and Nix generation.
  - The name pattern, modelled by an automaton proved equal to it, and the length limit.
  - Owner and module checks.
  - The Nix string escaper, with its unescape round trip, and the container expression template.
- `Workloads`: owner lookup and the workload listing.
  - Owner lookup: a live query first, then the owner recorded in the container's system closure on disk.
  - Listing: running machines merged with stopped configured containers, then the owner filter.
- `Query`: the container query. It covers the state fallback, the modules, Tailscale, uptime and storage facets, the ownership check, and the line-by-line summary.
- `Diagnostics`: the read-only diagnostics. It covers the four-point host health check, the journal and status fallbacks, Tailscale status, and the service allowlist.
- `History`: the per-chat conversation store, with TTL expiry and a cap of twice the turn limit.
- `Handlers`: the Telegram response chunker and the owner taken from an update.
- `Discovery`: the module-discovery cache.
- `AgentTools`: the agent tools' replies and the ownership guard on destroy.
- `Common`, `Text`: shared value types and Python string operations. These are `strip`, `splitlines`, `split`, `join`, `rfind`, `int()`/`str()` on integers, and `sorted` on strings.

External commands are modelled as a function from an argument vector to a process reply: an exit with stdout, stderr and an optional return code, or a hang. `Cli.Run` turns that reply into a result or a timeout, as `run_command` does. Files are a map from path to text, and a missing path stands for the `OSError` of reading it. JSON is decoded by a function passed in. The clock is an explicit integer `now`.

Where the repository's tests disagree with the code, the model follows the code:

- A failed quota call in `create_user_datasets` is logged and the user root still reports success. The tests expect a failure and an `_ensure_mounted` helper that the code does not have.
- The existing-dataset path also resets the user root's mountpoint.
- The history cap is twice `max_turns`. The tests use `max_messages`, which the store does not have.

The name pattern at agent/nix_gen/models.py:25 accepts two or more hyphens in a row inside a name, and `Models.HyphenPlacement` proves that it does.

## Model

| member | source | states |
|---|---|---|
| Common.OrElse | agent/tools/diagnostics.py:271 | Python's `a or b` on strings: the first when it is non-empty, else the second, empty only when both are |
| Text.StripShape | agent/tools/cli.py:34-36 | `strip()` removes exactly the leading and trailing whitespace runs, leaving a stripped middle of the input |
| Text.StripIdempotent | agent/tools/cli.py:34-36 | stripping twice is stripping once |
| Text.LastIndexOf | agent/chat/handlers.py:152 | `rfind` gives -1 or an index holding the character, with no occurrence after it |
| Text.SplitLines | agent/tools/workloads.py:144 | `splitlines()` yields no line at all exactly for the empty text |
| Text.SplitLinesSpec | agent/tools/workloads.py:144 | no line `splitlines()` yields holds a line break |
| Text.SplitLinesAtNewlines | agent/tools/workloads.py:144 | on text whose only breaks are "\n" and which does not end in one, `splitlines()` gives exactly the pieces of `split("\n")` |
| Text.WordsSpec | agent/tools/query.py:177 | `split()` with no argument yields non-empty words holding no whitespace |
| Text.WordsJoin | agent/tools/query.py:177 | `" ".join(ws).split()` gives back exactly `ws` whenever each word is non-empty and free of whitespace, so the words are the separated runs in order |
| Text.PythonIntOfString | agent/chat/handlers.py:67 | the decimal text `str()` writes for an integer reads back, through `int()`, as that integer |
| Text.Sort | agent/nix_gen/discovery.py:98 | `sorted()` on strings gives a sorted permutation of its input |
| Text.SortedPermutationUnique | agent/nix_gen/discovery.py:98 | two sorted permutations of the same strings are equal, so the sorted order is determined by the contents |
| Cli.MakeResult | agent/tools/cli.py:34-41 | the stored streams have no surrounding whitespace left, the exit code is kept, and success holds exactly when it is 0 |
| Cli.MakeResultTrims | agent/tools/cli.py:34-36 | the stored streams are the inputs less a whitespace prefix and a whitespace suffix, nothing else removed |
| Cli.MakeResultIdempotent | agent/tools/cli.py:34-36 | building a result again from a result's own fields gives the same result: stripping twice is stripping once |
| Cli.SuccessIgnoresOutput | agent/tools/cli.py:38-41 | success depends on the exit code alone: exit code 2 with output on stdout is a failure, exit code 0 with no output a success |
| Cli.ExitCode | agent/tools/cli.py:82 | a missing return code is recorded as 0, a present one as itself |
| Cli.RunCommand | agent/tools/cli.py:61-83 | a process that does not finish in time raises the timeout, with the command joined by spaces in the message; a finished one gives a result holding its own stdout and stderr, stripped, and its exit code (0 when missing) |
| Models.ScanAccepts | agent/nix_gen/models.py:25 | the scanning automaton accepts a string exactly when the anchored pattern matches it: a name character at both ends, name characters or hyphens between, optionally followed by one newline |
| Models.ScanTail | agent/nix_gen/models.py:25 | after a name character or hyphen, the rest of the input is accepted exactly when it is inner characters ending in a name character, or that followed by a single newline |
| Models.ValidateContainerName | agent/nix_gen/models.py:36-62 | the empty name, a name the pattern refuses, and a name over 11 characters each get their own message; any other name gives no error |
| Models.ValidNameIff | agent/nix_gen/models.py:25-62 | a name is valid exactly when it has the name shape (perhaps with one trailing newline) and at most 11 characters |
| Models.CheckOrder | agent/nix_gen/models.py:49-61 | the checks run in order: emptiness first, then the pattern, then the length, so a long name that the pattern refuses reports the pattern |
| Models.HyphenPlacement | agent/nix_gen/models.py:25 | hyphens are accepted inside a name, consecutive ones too, and refused at either end |
| Models.TrailingNewlineAccepted | agent/nix_gen/models.py:25-61 | the `$` anchor lets one trailing newline through, and the newline counts toward the length limit |
| Models.LengthBoundary | agent/nix_gen/models.py:33-61 | eleven characters are accepted and twelve are too long |
| Models.LongHyphenatedName | agent/nix_gen/models.py:57-61 | a well-formed hyphenated name over the limit reports its length in the message |
| Models.ValidateNameAgrees | agent/nix_gen/models.py:96-117 | the field validator accepts exactly the names the standalone check accepts, and returns the name unchanged |
| Models.ValidateOwner | agent/nix_gen/models.py:119-125 | the owner is refused exactly when it is empty, and otherwise returned unchanged |
| Models.Duplicated | agent/nix_gen/models.py:133-135 | the modules named as duplicates are exactly those occurring more than once, each listed once |
| Models.ValidateModulesIff | agent/nix_gen/models.py:127-137 | the module list is accepted exactly when it is non-empty and has no repeated module |
| Models.MakeSpec | agent/nix_gen/models.py:65-137 | a spec is built exactly when name, owner and modules all validate, and holds the given fields; otherwise the list holds exactly one message per failing field, in field order: name, owner, modules |
| Generator.ResolveFlakePath | agent/nix_gen/generator.py:34-47 | a given, non-empty flake path is used as it is; a missing or empty one falls back to the configured path |
| Generator.DivTwice | agent/nix_gen/generator.py:88 | joining two plain segments onto an absolute path appends them, each after one slash |
| Generator.MkContainerPathClean | agent/nix_gen/generator.py:88 | for an absolute flake root with no empty or "." segments, the import path is exactly the root followed by "/nix/mkContainer.nix" |
| Generator.EscapeIsPerChar | agent/nix_gen/generator.py:58 | the three chained replacements, backslash first, escape each character on its own: no escape is doubled by a later replacement |
| Generator.EscapeEachRoundTrip | agent/nix_gen/generator.py:53-58 | reading the escaped text back as a Nix string body gives the original, and every backslash, quote and dollar in it is escaped |
| Generator.NixStringRoundTrip | agent/nix_gen/generator.py:50-59 | the literal is the escaped text between two double quotes; unescaping its body gives the original value, so no quote or interpolation can escape the literal |
| Generator.NixStringPlain | agent/nix_gen/generator.py:50-59 | text without backslashes, quotes or dollars is only wrapped in quotes |
| Generator.QuoteAll | agent/nix_gen/generator.py:67 | the list's items are quoted one by one in their order |
| Generator.NixListExamples | agent/nix_gen/generator.py:62-67 | two plain items give `[ "git" "fish" ]` with one space between items, and the empty list keeps its two padding spaces |
| Generator.ExprLayout | agent/nix_gen/generator.py:70-109 | the expression is the fixed template (the import of mkContainer, the spec attribute set, then the call) around the spec's entries, one per line, four spaces in, each closed by ";" |
| Generator.OptionalEntries | agent/nix_gen/generator.py:92-97 | a `workspace` entry appears exactly when the workspace path is set and non-empty, a `tailscaleAuthKey` entry exactly when the key is, and when both appear the workspace comes first, after name, owner and modules |
| Workloads.Map | agent/tools/workloads.py:73 | the mapped list has the input's length and holds `f` of each element in place |
| Workloads.DropEmptyMembers | agent/tools/workloads.py:73 | a string survives the `if addr.strip()` filter exactly when it is non-empty and present in the input |
| Workloads.NonBlankStripped | agent/tools/workloads.py:144 | every name the comprehension lists is stripped and non-empty |
| Workloads.NonBlankMembers | agent/tools/workloads.py:144 | a value is listed exactly when it is non-empty and is the stripped form of some line |
| Workloads.Get | agent/tools/workloads.py:81-88 | a present key gives its value, a missing key the default |
| Workloads.ParseMachine | agent/tools/workloads.py:76-90 | an entry without a `machine` key is refused; otherwise the name is that value, and class, service and state are the entry's values or the defaults container, nspawn and running; addresses are parsed only from a non-empty string |
| Workloads.ParseMachineDefaults | agent/tools/workloads.py:84-90 | an entry holding only the machine name parses to a running nspawn container with no address |
| Workloads.SearchSpec | agent/tools/workloads.py:37-41 | a multi-line regex search finds nothing exactly when no position matches, and otherwise returns the group at the leftmost match |
| Workloads.SearchFirstLine | agent/tools/workloads.py:37-41 | a match at the very start of the text is the one the search returns |
| Workloads.SystemPathFirstLine | agent/tools/workloads.py:41 | a conf text whose first line is `SYSTEM_PATH=<path>` gives that path |
| Workloads.OwnerFirstLine | agent/tools/workloads.py:37 | a set-environment text starting with `export VOXNIX_OWNER="<value>"` gives that value |
| Workloads.ReadOwnerFromSystemPath | agent/tools/workloads.py:93-128 | an owner read from disk is never the empty string |
| Workloads.ReadOwnerFound | agent/tools/workloads.py:108-128 | the owner is found exactly when the conf file exists and names a system path, that closure's set-environment file exists, and its first owner export holds a non-empty value; any missing piece gives none |
| Workloads.ReadOwnerOfStoredFiles | agent/tools/workloads.py:108-128 | files laid out as a container build writes them give back the recorded owner |
| Workloads.LiveOwner | agent/tools/workloads.py:164-183 | the live query yields an owner exactly when it finished, succeeded and printed something that is non-empty once stripped, and that owner is the stripped output |
| Workloads.GetContainerOwner | agent/tools/workloads.py:147-198 | a resolved owner is never the empty string |
| Workloads.OwnerLookupOrder | agent/tools/workloads.py:164-198 | a live answer wins and the files are never consulted; without one, whether the query failed, printed nothing or timed out, the answer is the on-disk lookup |
| Workloads.Upsert | agent/tools/workloads.py:248 | assigning by name adds exactly the new name and keeps names distinct; on distinct names a known name keeps its place, takes the new workload and nothing else changes, and an unknown name is appended at the end |
| Workloads.UpsertLookup | agent/tools/workloads.py:248 | after the assignment the assigned name looks up to the new workload and every other name to what it looked up to before |
| Workloads.RunningKeyed | agent/tools/workloads.py:245-248 | the loop raises exactly when some entry has no machine name; otherwise the result has distinct names, exactly the machine names of the entries, and each name is held by the workload parsed from the last entry of that name |
| Workloads.RunningLatest | agent/tools/workloads.py:245-248 | once the loop is done, a name some entry carries looks up to the workload parsed from the last such entry, and any other name to what it looked up to before the loop |
| Workloads.Stopped | agent/tools/workloads.py:251-256 | every stopped entry is a configured name that is not running, in the stopped shape, and every such name gets one |
| Workloads.KeepRunningOwnedMembers | agent/tools/workloads.py:283-285 | a workload is kept exactly when it is in the input, a running container, and its live-or-disk owner is the given owner |
| Workloads.KeepStoppedOwnedMembers | agent/tools/workloads.py:286-288 | a workload is kept exactly when it is in the input, a container that is not running, and its on-disk owner is the given owner |
| Workloads.CollectRunning | agent/tools/workloads.py:245-248 | the loop computes the running workloads as the keyed fold over the entries does |
| Workloads.FilterRunning | agent/tools/workloads.py:271-285 | the loop keeps exactly the running containers that the owner owns, in order |
| Workloads.FilterStopped | agent/tools/workloads.py:272-288 | the loop keeps exactly the other containers whose on-disk owner is the owner, in order |
| Workloads.ListWorkloads | agent/tools/workloads.py:201-298 | the method returns what the listing function gives for the same owner, processes and files |
| Workloads.ListingMerge | agent/tools/workloads.py:245-267 | the unfiltered listing is the running workloads, one per machine name, followed by each configured container that is not running, as a stopped nspawn container |
| Workloads.ListFailureKeepsRunning | agent/tools/workloads.py:141-143 | a failed or empty `nixos-container list` contributes no names, so only the running workloads are listed |
| Workloads.MachinectlErrors | agent/tools/workloads.py:222-243 | `machinectl` timing out, failing, printing something that is not JSON, or a JSON value that is not a list raises the workload error, with or without an owner filter |
| Workloads.FilterOwned | agent/tools/workloads.py:269-290 | the filtered listing holds exactly the containers the owner owns (running ones by the live-or-disk lookup, others by the disk lookup), never a VM, and all running ones come before the others |
| Query.AppendTailscale | agent/tools/query.py:85-90 | the Tailscale block appends the address line, the hostname line and the "status unavailable" line, each under its own condition |
| Query.AppendStorage | agent/tools/query.py:95-101 | the storage block appends one line when the used figure is known, its parts joined by spaces |
| Query.FormatSummary | agent/tools/query.py:67-106 | the method builds the summary: one sentence for a missing container, otherwise the lines of every present facet joined by newlines |
| Query.SummaryOfMissing | agent/tools/query.py:69-70 | a missing container is reported in one sentence naming it and nothing else |
| Query.SummaryHead | agent/tools/query.py:72-83 | the summary opens with the name, then the state, then the owner when known, then the modules line, which is the fallback text exactly when no module is known |
| Query.SummaryTailscaleUnavailable | agent/tools/query.py:89-90 | the "status unavailable" line appears exactly when no Tailscale address is known and the modules include tailscale |
| Query.StorageLineText | agent/tools/query.py:95-101 | the storage line is "used X", then " of Q quota" only when the quota is neither "none" nor "0", then " (A available)" only when known |
| Query.SummaryStorage | agent/tools/query.py:95-101 | a storage line is present exactly when the used figure is known |
| Query.SummaryNote | agent/tools/query.py:103-104 | with an error the last line is the note; without one no line is a note |
| Query.PropertyValue | agent/tools/query.py:127-129 | a value is read exactly when the key occurs in the output; it is the text after the first "=", stripped |
| Query.PropertyOfLine | agent/tools/query.py:127-129 | a one-property answer `key` + value, whose only "=" ends the key, yields the value stripped |
| Query.ShownState | agent/tools/query.py:118-133 | a state read from `machinectl show` is never empty |
| Query.QueryState | agent/tools/query.py:112-149 | the state is never empty |
| Query.ListedIff | agent/tools/query.py:136-145 | the list names the container exactly when it succeeded, the name is non-empty and some stripped line equals it |
| Query.QueryStateFallback | agent/tools/query.py:112-149 | a live state wins; without one, a listed container is "stopped" and an unlisted one "not found"; a hung state query gives one of the two |
| Query.QueryStateShown | agent/tools/query.py:127-131 | a successful `State=<value>` answer gives that value as the state, whatever the list says |
| Query.ModulesConfIsOwnerConf | agent/tools/query.py:182 | for a plain file name the modules query reads the same conf file as the owner lookup |
| Query.StoredModules | agent/tools/query.py:182-195 | the modules read from the closure are non-empty words |
| Query.QueryModules | agent/tools/query.py:152-195 | every module name is non-empty and holds no whitespace |
| Query.ModulesLookupOrder | agent/tools/query.py:164-195 | a successful live answer with text wins, split into words, and the files are not consulted; otherwise the modules are those stored on disk |
| Query.ModulesFirstLine | agent/tools/query.py:189 | a text whose first line is `export VOXNIX_MODULES="<value>"` gives that value |
| Query.StoredModulesOfFiles | agent/tools/query.py:182-191 | files laid out as the container build writes them give back the recorded module list split into words |
| Query.TrimEndChar | agent/tools/query.py:240 | `rstrip` of one character leaves a prefix not ending in it, and what it removed is only that character |
| Query.TailscaleIp | agent/tools/query.py:207-221 | an address is read exactly when the query succeeded with non-blank output; it is the first line of the stripped output |
| Query.HostnameOf | agent/tools/query.py:240-244 | undecodable output gives no hostname; otherwise the DNS name without its trailing dots, or the host name when that is empty |
| Query.TailscaleHostname | agent/tools/query.py:224-246 | a failed, blank or timed-out status query gives no hostname |
| Query.DnsNameTrimmed | agent/tools/query.py:240 | a DNS name ending in dots loses exactly those dots |
| Query.QueryUptime | agent/tools/query.py:251-272 | an uptime, when there is one, is "since " and a stripped non-empty timestamp |
| Query.QueryUptimeCases | agent/tools/query.py:256-272 | a successful one-property answer gives "since " and its timestamp; a failed or timed-out query gives nothing |
| Query.StorageOf | agent/tools/query.py:275-308 | the three figures are all present exactly when the query succeeded, and all absent otherwise |
| Query.QueryStorage | agent/tools/query.py:275-308 | the method's figures are those of the storage function |
| Query.StorageDefaults | agent/tools/query.py:303-305 | after a successful query a missing figure reads "0", and a "none" quota stays "none" |
| Query.LiveFacets | agent/tools/query.py:347-365 | a container that is not running gets no Tailscale address, hostname or uptime |
| Query.QueryContainer | agent/tools/query.py:314-400 | the method assembles the record the query function describes |
| Query.QueryNotFound | agent/tools/query.py:334-339 | a container that is not found gives a missing record whose summary is the one sentence |
| Query.QueryLiveFacets | agent/tools/query.py:341-365 | a container that is not running never reports Tailscale facts or uptime, and a present record carries the state that was queried |
| Query.QueryOwnership | agent/tools/query.py:368-391 | a container with another resolved owner gives only the name, the state and the refusal; otherwise the record holds the owner found, the modules and the storage, and no error |
| Query.ForeignSummary | agent/tools/query.py:370-376 | the refusal's summary is the name, the state, the modules fallback and the note, in that order |
| Diagnostics.ExtraContainerCheck | agent/tools/diagnostics.py:76-86 | the `extra-container` check passes exactly when `which` finished successfully |
| Diagnostics.MachinectlCheck | agent/tools/diagnostics.py:88-100 | the `machinectl` check passes exactly when `machinectl list` finished successfully |
| Diagnostics.TemplateCheck | agent/tools/diagnostics.py:102-121 | the template check passes exactly when the unit listing finished successfully and its output names `container@.service` |
| Diagnostics.ZfsCheck | agent/tools/diagnostics.py:123-134 | the ZFS check passes exactly when `zfs version` finished successfully |
| Diagnostics.ChecksFrom | agent/tools/diagnostics.py:76-134 | the checklist has exactly four entries |
| Diagnostics.Tally | agent/tools/diagnostics.py:73-148 | appending one line per check and clearing the flag on any failure gives the report of the four checks |
| Diagnostics.CheckHostHealth | agent/tools/diagnostics.py:59-148 | the method gives the report of the four checks on the host's four commands |
| Diagnostics.HostHealthSuccess | agent/tools/diagnostics.py:59-148 | the host is reported healthy exactly when all four commands finish successfully and the unit listing names the template |
| Diagnostics.MarkTellsOutcome | agent/tools/diagnostics.py:80-133 | on a checklist line the "OK: " prefix appears exactly when the check passed and "FAIL: " exactly when it did not |
| Diagnostics.ChecksMarked | agent/tools/diagnostics.py:76-134 | every one of the four lines carries the mark of its own outcome, including the timed-out cases |
| Diagnostics.ReportOutput | agent/tools/diagnostics.py:136-148 | the report's output is the four lines in order, a blank line, and the verdict |
| Diagnostics.LogCount | agent/tools/diagnostics.py:173 | the line count asked for is never over 200, and is the requested count whenever that is at most 200 |
| Diagnostics.LogsFrom | agent/tools/diagnostics.py:177-225 | the logs are reported exactly when the machine journal has entries or the host journal query succeeded; a failure has no output and always an error |
| Diagnostics.LogsPreferMachine | agent/tools/diagnostics.py:187-188 | a machine journal with entries is returned as it is, whatever the host journal would say |
| Diagnostics.LogsFallBack | agent/tools/diagnostics.py:189-225 | when the machine journal is empty, failed or timed out, the answer depends on the host journal alone |
| Diagnostics.LogsFromHost | agent/tools/diagnostics.py:193-225 | the host journal's cases: a timeout, entries with the host-journal heading, no entries, and a failure quoting its stderr, each with its own text |
| Diagnostics.LogsLineCap | agent/tools/diagnostics.py:173-198 | both journal commands ask for the capped count, and the default of 50 stays 50 |
| Diagnostics.StatusFrom | agent/tools/diagnostics.py:246-285 | the status is reported exactly when `machinectl status` succeeded or the unit status printed anything; a failure has no output and always an error |
| Diagnostics.StatusAnyExitCode | agent/tools/diagnostics.py:260-285 | the unit's stdout, else its stderr, is reported whatever its exit code; with neither the container is reported not found |
| Diagnostics.TailscaleTarget | agent/tools/diagnostics.py:303 | a given non-empty name is the target, and otherwise the target is "host" |
| Diagnostics.FailureText | agent/tools/diagnostics.py:334 | the failure text is never empty |
| Diagnostics.TailscaleFrom | agent/tools/diagnostics.py:306-339 | the query is reported a success exactly when it finished successfully, and then with no error; a finished query always has output |
| Diagnostics.TailscaleEmptyNameIsHost | agent/tools/diagnostics.py:303-322 | an empty name asks the host, as no name does, with `tailscale status` |
| Diagnostics.TailscaleFailureOutput | agent/tools/diagnostics.py:334-339 | a failed query reports stderr, else stdout, else "No output", and the error message ends with that text |
| Diagnostics.TailscaleSuccessOutput | agent/tools/diagnostics.py:330-331 | a successful query reports its stdout, or "(no output)" when it printed nothing |
| Diagnostics.ServiceFrom | agent/tools/diagnostics.py:381-406 | an allowed service's status is reported exactly when the query finished and printed anything; a failure has no output and always an error |
| Diagnostics.ServiceStatus | agent/tools/diagnostics.py:361-379 | a service outside the allowlist is refused with the not-allowed message and no output |
| Diagnostics.ServiceRefusedWithoutRunning | agent/tools/diagnostics.py:370-379 | the refusal does not depend on the host at all, so no command is run for it |
| Diagnostics.ServiceAnyExitCode | agent/tools/diagnostics.py:397-406 | for an allowed service the stdout, else the stderr, is reported whatever the exit code; with neither there is no status information |
| Diagnostics.AllowedSortedOrder | agent/tools/diagnostics.py:360-377 | the refusal lists the allowlist sorted: nix-daemon, sshd, systemd-machined, systemd-networkd, tailscaled, voxnix-agent |
| History.Capped | agent/chat/history.py:142-146 | with a positive turn limit at most twice that many messages are kept, exactly that many when there were more; what is kept is always the newest suffix, and nothing is dropped without a limit or under it |
| History.GetUnknown | agent/chat/history.py:100-102 | a chat with no history gives the empty list and leaves the store alone |
| History.GetExpired | agent/chat/history.py:104-106 | an expired chat gives the empty list and is deleted, and no other chat is added or removed |
| History.GetLive | agent/chat/history.py:108-110 | a live chat gives its messages unchanged and its idle time restarts at the current time; the set of chats is unchanged |
| History.NoTtlNeverExpires | agent/chat/history.py:170-179 | a TTL of zero or less never expires anything, and a sweep keeps every chat |
| History.AppendNothing | agent/chat/history.py:126-127 | appending no messages leaves the store exactly as it was, the activity time included |
| History.AppendKeepsNewest | agent/chat/history.py:129-146 | after an append the chat is active now and holds the newest messages of its live history followed by the new ones, within the cap; every other chat is unchanged |
| History.AppendStartsFresh | agent/chat/history.py:131-134 | a missing or expired chat starts again from nothing, holding only the capped new messages |
| History.AppendThenGet | agent/chat/history.py:85-146 | within the TTL, `get` returns what the last append stored |
| History.SweptExactlyLive | agent/chat/history.py:176-187 | a sweep keeps exactly the chats that are not expired, each unchanged |
| History.SweepIdempotent | agent/chat/history.py:176-187 | sweeping twice at the same time is sweeping once |
| History.BoundedPreserved | agent/chat/history.py:100-160 | get, append, sweep and clear each keep every stored chat non-empty and within the message cap |
| History.ConversationStore.constructor | agent/chat/history.py:70-73 | a new store keeps its turn limit and TTL and holds no chat |
| History.ConversationStore.Get | agent/chat/history.py:85-110 | returns the chat's live messages, or none, and leaves the store as the get model says: expired chats deleted, live ones touched |
| History.ConversationStore.Append | agent/chat/history.py:112-146 | the store becomes the append model's result and stays within its cap |
| History.ConversationStore.Clear | agent/chat/history.py:148-156 | exactly that chat is removed, whether or not it was there |
| History.ConversationStore.ClearAll | agent/chat/history.py:158-160 | the store becomes empty |
| History.ConversationStore.SweepExpired | agent/chat/history.py:176-187 | the loop deletes exactly the expired chats, leaving the swept store |
| History.ConversationStore.ActiveChats | agent/chat/history.py:162-168 | after the sweep the count is the number of chats left, which are the live ones |
| Handlers.OwnerFromUpdate | agent/chat/handlers.py:52-67 | an update without a chat is refused with its message; otherwise the owner is the decimal text of the chat id, never empty, reading back as the same integer and starting with "-" exactly when the id is negative |
| Handlers.CutAt | agent/chat/handlers.py:149-160 | an overlong text is cut at a position inside the window, never at 0 |
| Handlers.SepAt | agent/chat/handlers.py:153-160 | between two chunks the text loses either one newline or nothing |
| Handlers.Rest | agent/chat/handlers.py:153-160 | the text is the chunk, the separator dropped and the remainder, which is non-empty and shorter than the text |
| Handlers.Chunks | agent/chat/handlers.py:124-168 | there is always at least one chunk |
| Handlers.Seps | agent/chat/handlers.py:148-162 | there is one separator between each pair of neighbouring chunks |
| Handlers.FormatResponse | agent/chat/handlers.py:124-168 | the loop produces the chunks of the text |
| Handlers.ShortTextOneChunk | agent/chat/handlers.py:142-143 | a text within the limit, the empty text included, is its own single chunk |
| Handlers.ChunksFit | agent/chat/handlers.py:140-166 | every chunk fits in one Telegram message, and no chunk of an overlong text is empty |
| Handlers.ChunksReassemble | agent/chat/handlers.py:148-166 | the chunks joined with their separators give the text back, and each separator is one newline or nothing |
| Handlers.FirstCut | agent/chat/handlers.py:149-160 | the first chunk ends just before the window's last newline when that is past index 0, dropping the newline; otherwise it is the whole window |
| Handlers.NoNewlineConcat | agent/chat/handlers.py:158-160 | a text without newlines is cut hard, so its chunks simply concatenate to it |
| Discovery.BadTypes | agent/nix_gen/discovery.py:92-96 | no bad type is named exactly when every item is a string |
| Discovery.Texts | agent/nix_gen/discovery.py:98 | the strings of an all-string list, in order |
| Discovery.Validate | agent/nix_gen/discovery.py:81-98 | the modules are given exactly when `nix eval` succeeded with a JSON list of strings; they are then sorted and a permutation of that list; every other case is a discovery error, never a timeout |
| Discovery.ModuleDiscovery.constructor | agent/nix_gen/discovery.py:29 | the cache starts empty |
| Discovery.ModuleDiscovery.DiscoverModules | agent/nix_gen/discovery.py:57-103 | the answer and the new cache are those of one discovery step on the old cache |
| Discovery.ModuleDiscovery.ClearCache | agent/nix_gen/discovery.py:106-113 | the cache becomes empty |
| Discovery.CacheHitIgnoresHost | agent/nix_gen/discovery.py:76-77 | with a filled cache and caching on, the cached names are returned whatever the host would answer |
| Discovery.CachedRepeats | agent/nix_gen/discovery.py:76-101 | after a successful cached query the next cached query repeats its answer and keeps the cache |
| Discovery.UncachedNeverStores | agent/nix_gen/discovery.py:76-101 | with caching off the host is always queried and the cache is kept; a failure never changes the cache |
| Discovery.ClearedQueriesAfresh | agent/nix_gen/discovery.py:76-113 | after clearing, a cached query asks the host and stores a successful answer |
| Discovery.EvalFailureReported | agent/nix_gen/discovery.py:81-82 | a failed `nix eval` is reported with its exit code and stderr |
| AgentTools.LifecycleReplyShape | agent/agent.py:137-140 | every reply names the container in backticks; a success ends with " <done>.", a failure says "Failed to <verb> " and ends with ": <error>" |
| AgentTools.LifecycleMarks | agent/agent.py:137-140 | exactly the successful replies open with the check mark, and exactly the failed ones with the cross |
| AgentTools.ToolCreateContainer | agent/agent.py:117-140 | a request whose spec is invalid raises, carrying exactly the non-empty list of validation messages `ContainerSpec` reports, and creates nothing; a valid one replies with the outcome of creating that spec |
| AgentTools.ToolStartContainer | agent/agent.py:174-192 | the reply opens with the check mark exactly when the start succeeded; a success reads "✅ Container `<name>` started.", a failure "❌ Failed to start `<name>`: <error>" |
| AgentTools.ToolStopContainer | agent/agent.py:195-213 | the reply opens with the check mark exactly when the stop succeeded; a success reads "✅ Container `<name>` stopped.", a failure "❌ Failed to stop `<name>`: <error>" |
| AgentTools.ToolDestroyContainer | agent/agent.py:143-171 | the reply opens with the check mark exactly when the caller owns the container and its destroy succeeded |
| AgentTools.DestroyGuard | agent/agent.py:159-171 | unless the caller owns the container the reply does not depend on the destroy operation, so nothing is destroyed; an unknown owner reads "not found or not running", anyone else's "belongs to another user"; the owner's own container is destroyed and the outcome reported |
| AgentTools.WorkloadLinesSpec | agent/agent.py:232-237 | one line per workload, in order |
| AgentTools.FormatWorkloads | agent/agent.py:232-239 | the loop's text is the workload lines joined by newlines |
| AgentTools.ToolListWorkloads | agent/agent.py:216-239 | a workload error becomes the "could not query" reply, a timeout escapes, an empty listing gets its own sentence, and otherwise the reply is the joined lines |
| AgentTools.ListingLines | agent/agent.py:232-239 | when no name or address holds a line break, splitting the reply at newlines gives back exactly one line per workload |
| Zfs.PathNesting | agent/tools/zfs.py:51-72 | the dataset names nest: user root, then its containers dataset, then the container, then its workspace; each mount path is "/" followed by its dataset, under the pool "tank" |
| Zfs.Step | agent/tools/zfs.py:89-95 | against the real `zfs` a command succeeds exactly when it applies to the pool; it times out exactly when it hangs; a forced answer leaves the pool alone |
| Zfs.StepFrame | agent/tools/zfs.py:89-95 | a dataset a command does not name, and that is not below a destroyed one, is left as it was |
| Zfs.StepOnlyCreateAdds | agent/tools/zfs.py:189-196 | no command adds a dataset except a `zfs create` of that dataset |
| Zfs.Pool.constructor | agent/tools/zfs.py:32-33 | the pool starts with the given datasets and no command issued |
| Zfs.Pool.Exec | agent/tools/zfs.py:89-95 | one command is issued and logged, and the pool and the outcome are those of one step |
| Zfs.Pool.ApplyQuota | agent/tools/zfs.py:75-128 | the outcome, the new pool and the commands issued are those of the quota run |
| Zfs.Pool.CreateUserDatasets | agent/tools/zfs.py:131-230 | the outcome, the new pool and the commands issued are those of the user-root run |
| Zfs.Pool.CreateContainerDataset | agent/tools/zfs.py:233-377 | the outcome, the new pool and the commands issued are those of the container-dataset run |
| Zfs.Pool.DestroyContainerDataset | agent/tools/zfs.py:380-463 | the outcome, the new pool and the commands issued are those of the destroy run |
| ZfsLemmas.Quotas | agent/tools/zfs.py:89-95 | only quota commands are picked out |
| ZfsLemmas.Destroys | agent/tools/zfs.py:427-433 | only recursive destroys are picked out |
| ZfsLemmas.QuotaAppliedOnce | agent/tools/zfs.py:162-230 | a reported success has issued exactly one quota command, with the configured quota on the user root; a reported failure has issued none |
| ZfsLemmas.QuotaOutcomeIgnored | agent/tools/zfs.py:172-182 | however the quota command is answered, short of a timeout, the user-root result is the same |
| ZfsLemmas.UserCreatesSelfMounted | agent/tools/zfs.py:184-196 | the user root is only ever created with the explicit mountpoint "/" followed by its dataset |
| ZfsLemmas.UserFailureStops | agent/tools/zfs.py:260-267 | a failed user-root step ends the container create: nothing more is issued, and the failure carries the user step's message and error, with no mount path |
| ZfsLemmas.SuccessCarriesMountPath | agent/tools/zfs.py:279-358 | a successful container create always reports the workspace dataset with its mount path; a failed one reports none |
| ZfsLemmas.LeafDecides | agent/tools/zfs.py:337-377 | once the leaf create is issued, the result is a success exactly when its exit code is 0, whatever the intermediate lists and creates answered |
| ZfsLemmas.ContainerCreatesSelfMounted | agent/tools/zfs.py:295-345 | every `zfs create` the container create issues, at any level, carries the mountpoint "/" followed by that dataset |
| ZfsLemmas.FirstTimeoutRaises | agent/tools/zfs.py:153-161 | a hung first `zfs list` raises out of the container create with nothing else issued and the pool unchanged |
| ZfsLemmas.StepGrows | agent/tools/zfs.py:89-95 | no command other than a destroy removes a dataset |
| ZfsLemmas.CreatedInPool | agent/tools/zfs.py:233-377 | against the real `zfs`, a successful container create leaves the user root and the workspace in the pool |
| ZfsLemmas.UserRootPresent | agent/tools/zfs.py:162-182 | on a pool that has the user root, the user step only lists it, fixes its mountpoint and applies the quota, and reports that it already exists |
| ZfsLemmas.WorkspacePresent | agent/tools/zfs.py:279-293 | on a pool that has the workspace, the workspace step only lists it and fixes its mountpoint, and reports it with its mount path |
| ZfsLemmas.CreateOnExisting | agent/tools/zfs.py:259-293 | on a pool holding both datasets, a create issues only the two lists, the two mountpoint fixes and the quota |
| ZfsLemmas.CreateIdempotent | agent/tools/zfs.py:233-377 | creating the same container's storage twice: the second run only re-applies settings and reports that the workspace already exists, with its mount path |
| ZfsLemmas.UserRootOutsideContainer | agent/tools/zfs.py:51-58 | the user root is not within a container's dataset |
| ZfsLemmas.ListKeepsPool | agent/tools/zfs.py:407-415 | a `zfs list` never changes the pool |
| ZfsLemmas.DestroyOnlyContainer | agent/tools/zfs.py:380-463 | the destroy issues at most one destroy command, always the recursive destroy of the container dataset |
| ZfsLemmas.DestroyScope | agent/tools/zfs.py:380-463 | the destroy adds nothing to the pool and leaves every dataset outside the container's subtree as it was |
| ZfsLemmas.DestroyKeepsUserRoot | agent/tools/zfs.py:385-388 | the user root survives a container destroy unchanged |
| ZfsLemmas.DestroyAbsent | agent/tools/zfs.py:416-425 | without the container dataset, the destroy issues only the list and reports success as already clean, changing nothing |
| ZfsLemmas.DestroyIdempotent | agent/tools/zfs.py:380-463 | after a successful destroy against the real `zfs`, a second destroy only lists, changes nothing and succeeds |
| ZfsStorage.UnitIndex | agent/tools/zfs.py:580-587 | the unit settled on is the first power of 1024 whose next power exceeds the count, petabytes at most |
| ZfsStorage.UnitIndexUnique | agent/tools/zfs.py:580-587 | that unit is the only one meeting both bounds |
| ZfsStorage.RoundHalfEven | agent/tools/zfs.py:584 | the rounded integer is within one half of the value, strictly so except on a tie, and a tie goes to the even integer |
| ZfsStorage.Fixed1Nearest | agent/tools/zfs.py:584 | one-decimal formatting writes the tenths nearest the value, within 0.05, ties to the even tenth |
| ZfsStorage.HumanSize | agent/tools/zfs.py:560-587 | the loop of repeated division by 1024 gives the size the scaling function describes |
| ZfsStorage.ScaleBound | agent/tools/zfs.py:580-585 | the value divided so far is below 1024 exactly when the count is below the next power of 1024 |
| ZfsStorage.ScaleStep | agent/tools/zfs.py:585 | dividing once more by 1024 is dividing the count by the next power |
| ZfsStorage.HumanSizePassThrough | agent/tools/zfs.py:572-578 | "none", "0" and "-" pass through, the empty string becomes "0", and anything `int()` refuses comes back unchanged |
| ZfsStorage.HumanSizeOfCount | agent/tools/zfs.py:575-584 | a byte count written in decimal is scaled, and below 1024 it is written with "B" and no decimal |
| ZfsStorage.ScaledUnit | agent/tools/zfs.py:580-587 | from 1024 bytes on, the unit is the largest power of 1024 not above the count, petabytes at most, and the value is the count divided by that power, to one decimal |
| ZfsStorage.HumanSizeExamples | agent/tools/zfs.py:580-587 | 512 bytes reads "512B", 1280 bytes "1.2K" (a tie rounded to even) and one gibibyte "1.0G" |
| ZfsStorage.PropsKeys | agent/tools/zfs.py:526-530 | a key is present exactly when some line splits at a tab into that key and a value; lines without a tab are skipped |
| ZfsStorage.PropsLastWins | agent/tools/zfs.py:526-530 | the value recorded for a key is the one on the last line giving that key |
| ZfsStorage.ParseProperties | agent/tools/zfs.py:526-530 | the loop fills the property map as the parse function describes |
| ZfsStorage.GetUserStorageInfo | agent/tools/zfs.py:479-557 | the query times out exactly when the process hangs, with the timeout message; otherwise the result is the storage info of the command's result |
| ZfsStorage.StorageFailure | agent/tools/zfs.py:506-520 | a failed query reports "unknown" for all three figures and, as the error, stderr or else stdout |
| ZfsStorage.StorageMissingDefaults | agent/tools/zfs.py:532-557 | a successful query is a success without error, and a missing property reads "0" |

## Left out

- `agent/tools/containers.py` is not part of this model. The create, start, stop and destroy lifecycle results are inputs to the agent tools.
- The subprocess mechanics of `run_command`: spawning, killing and reaping. Each command is one abstract reply, as above.
- Concurrency: `asyncio.gather`, `create_task`, `to_thread`, the per-chat locks. The fanned-out queries are evaluated one after another, which does not change their results because none of them writes state.
- JSON decoding, for `machinectl list`, `nix eval` and `tailscale status --self --json`. It is a function passed in; its failure modes appear only as "not JSON" or "not a list" values.
- `Path.read_text` errors other than a missing file, and symlink resolution. `pathlib` joining is modelled as segment joining with empty and "." segments dropped.
- Logging and `logfire` spans, which are observability only.
- `agent/config.py`. The flake path and the ZFS quota are parameters.
- The Telegram glue: `handle_message`, `handle_start`, `handle_help`, `bot.py`, `__main__.py`, `_get_conversation_store` and `_get_chat_lock`.
- The pydantic-ai agent, its system prompt and the model run.
- pydantic's collection of validation errors in `ContainerSpec` is modelled as the list of the three validators' messages.
- History: the clock is an integer and the TTL an integer number of seconds, where the code uses `time.monotonic()` floats.
- History: a chat's `_ChatHistory` object is a value in the store's map. `get` returns a copy in the code as well, so no caller can alias stored messages.
- ZfsStorage.HumanSize: computes with exact rationals rather than binary floating point. The unit chosen and the rounding to one decimal, ties to even, agree with Python's `float` for byte counts below 2^53, beyond which Python's conversion of the count to `float` would itself round.
- ZfsStorage.HumanSize: models Python's `int()` string syntax only for ASCII input: surrounding whitespace, an optional sign, digits and single underscores. Other Unicode digits are treated as not a number.
- Models.Duplicated: names the repeated modules in order of first occurrence. The code lists them in the iteration order of a Python set, which is not specified.
- Workloads.SearchSpec: assumes, as every key the code searches for does, that the key does not start with whitespace, so a `\s+` run is taken whole.
- Discovery.ModuleDiscovery.DiscoverModules: a timed-out `nix eval` is returned as a `TimedOut` value standing for the `TimeoutError` the code lets propagate, and the cache is left as it was.
- AgentTools.ToolListWorkloads: a timeout from `nixos-container list` is returned as a `Raise` value standing for the exception the code lets escape the tool.
- Workloads.ParseMachine: the refusal message for an entry without a "machine" key is the fixed text, without the `: {entry}` dump of the entry that the code appends at agent/tools/workloads.py:79. Entries are modelled as maps from strings to strings, so an element of the JSON list that is not an object, or a key whose value is `null` (for which `entry.get` returns `None` rather than the default), is not represented; this also bounds `Workloads.Decoded`.
- Cli.RunCommand: the process's output is taken as already decoded text. The `UnicodeDecodeError` that `bytes.decode()` raises on output that is not valid UTF-8 (agent/tools/cli.py:81-82) is not modelled.
