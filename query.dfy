/**
 * `agent/tools/query.py`: the detailed view of one container — its state,
 * modules, Tailscale identity, uptime, workspace storage and owner.
 *
 * Every command goes through the `Processes` oracle and every file read
 * through the `Files` map; the decoded `tailscale status --self --json`
 * answer is a parameter, as the JSON parser is not part of this model.
 * The facets the source gathers concurrently are evaluated one after the
 * other, which gives the same record since every facet is a read-only query.
 */
module Query {
  import opened Common
  import opened Text
  import opened Cli
  import opened Workloads
  import Zfs
  import opened ZfsStorage

  const QUERY_TIMEOUT: nat := 15
  const NOT_FOUND: string := "not found"
  const FOREIGN: string := "This container belongs to another user."
  // The two fixed lines, written as their first word and the rest so that proofs can see how they open.
  const UNAVAILABLE: string := "Tailscale:" + " module installed but status unavailable"
  const NO_MODULES: string := "Modules:" + " unknown (could not read from system closure)"

  /** `ContainerInfo`; `exists` is `present`, and every field the dataclass defaults is `None` or empty. */
  datatype ContainerInfo = ContainerInfo(
    name: string,
    present: bool,
    state: string,
    owner: Option<string>,
    modules: seq<string>,
    tailscaleIp: Option<string>,
    tailscaleHostname: Option<string>,
    uptime: Option<string>,
    storageUsed: Option<string>,
    storageQuota: Option<string>,
    storageAvailable: Option<string>,
    error: Option<string>)

  /** `ContainerInfo(name=..., exists=..., state=...)` with every other field left at its default. */
  function Bare(name: string, present: bool, state: string): ContainerInfo {
    ContainerInfo(name, present, state, None, [], None, None, None, None, None, None, None)
  }

  // ------------------------------------------------------------ format_summary

  /** The modules line: the names joined by ", ", or the fallback text when there are none. */
  function ModulesLine(modules: seq<string>): string {
    if modules != [] then "Modules: " + Join(modules, ", ") else NO_MODULES
  }

  /** The quota figure is shown unless it is unset, empty, "none" or "0". */
  predicate QuotaShown(quota: Option<string>) {
    Given(quota) && quota.value != "none" && quota.value != "0"
  }

  /** `storage_parts`. */
  function StorageParts(used: string, quota: Option<string>, available: Option<string>): seq<string> {
    ["used " + used]
    + (if QuotaShown(quota) then ["of " + quota.value + " quota"] else [])
    + (if Given(available) then ["(" + available.value + " available)"] else [])
  }

  function StorageLine(used: string, quota: Option<string>, available: Option<string>): string {
    "Storage: " + Join(StorageParts(used, quota, available), " ")
  }

  function HeadLines(info: ContainerInfo): seq<string> {
    ["Container: " + info.name, "State: " + info.state]
  }

  function OwnerLines(info: ContainerInfo): seq<string> {
    if Given(info.owner) then ["Owner: " + info.owner.value] else []
  }

  function TailscaleLines(info: ContainerInfo): seq<string> {
    (if Given(info.tailscaleIp) then ["Tailscale IP: " + info.tailscaleIp.value] else [])
    + (if Given(info.tailscaleHostname) then ["Tailscale hostname: " + info.tailscaleHostname.value] else [])
    + (if !Given(info.tailscaleIp) && "tailscale" in info.modules then [UNAVAILABLE] else [])
  }

  function UptimeLines(info: ContainerInfo): seq<string> {
    if Given(info.uptime) then ["Uptime: " + info.uptime.value] else []
  }

  function StorageLines(info: ContainerInfo): seq<string> {
    if Given(info.storageUsed) then [StorageLine(info.storageUsed.value, info.storageQuota, info.storageAvailable)] else []
  }

  function NoteLines(info: ContainerInfo): seq<string> {
    if Given(info.error) then ["Note: " + info.error.value] else []
  }

  /** The lines `format_summary` collects for an existing container, in order. */
  function SummaryLines(info: ContainerInfo): seq<string> {
    HeadLines(info) + OwnerLines(info) + [ModulesLine(info.modules)] + TailscaleLines(info)
    + UptimeLines(info) + StorageLines(info) + NoteLines(info)
  }

  /** The text `format_summary` returns. */
  function Summary(info: ContainerInfo): string {
    if !info.present then "Container '" + info.name + "' does not exist."
    else Join(SummaryLines(info), "\n")
  }

  /** `format_summary()`'s Tailscale block, appending to `lines`. */
  method AppendTailscale(lines: seq<string>, info: ContainerInfo) returns (r: seq<string>)
    ensures r == lines + TailscaleLines(info)
  {
    r := lines;
    if Given(info.tailscaleIp) {
      r := r + ["Tailscale IP: " + info.tailscaleIp.value];
    }
    if Given(info.tailscaleHostname) {
      r := r + ["Tailscale hostname: " + info.tailscaleHostname.value];
    }
    if !Given(info.tailscaleIp) && "tailscale" in info.modules {
      r := r + [UNAVAILABLE];
    }
  }

  /** `format_summary()`'s storage block, appending to `lines`. */
  method AppendStorage(lines: seq<string>, info: ContainerInfo) returns (r: seq<string>)
    ensures r == lines + StorageLines(info)
  {
    r := lines;
    if Given(info.storageUsed) {
      var parts := ["used " + info.storageUsed.value];
      if QuotaShown(info.storageQuota) {
        parts := parts + ["of " + info.storageQuota.value + " quota"];
      }
      if Given(info.storageAvailable) {
        parts := parts + ["(" + info.storageAvailable.value + " available)"];
      }
      assert parts == StorageParts(info.storageUsed.value, info.storageQuota, info.storageAvailable);
      r := r + ["Storage: " + Join(parts, " ")];
    }
  }

  /** `ContainerInfo.format_summary()`: start with two lines and append one per facet that is there. */
  method FormatSummary(info: ContainerInfo) returns (text: string)
    ensures text == Summary(info)
  {
    if !info.present {
      return "Container '" + info.name + "' does not exist.";
    }
    var lines := ["Container: " + info.name, "State: " + info.state];
    if Given(info.owner) {
      lines := lines + ["Owner: " + info.owner.value];
    }
    if info.modules != [] {
      lines := lines + ["Modules: " + Join(info.modules, ", ")];
    } else {
      lines := lines + [NO_MODULES];
    }
    assert lines == HeadLines(info) + OwnerLines(info) + [ModulesLine(info.modules)];
    lines := AppendTailscale(lines, info);
    if Given(info.uptime) {
      lines := lines + ["Uptime: " + info.uptime.value];
    }
    assert lines == HeadLines(info) + OwnerLines(info) + [ModulesLine(info.modules)] + TailscaleLines(info) + UptimeLines(info);
    lines := AppendStorage(lines, info);
    if Given(info.error) {
      lines := lines + ["Note: " + info.error.value];
    }
    assert lines == SummaryLines(info);
    text := Join(lines, "\n");
  }

  /** No line of `ls` starts with `p`. */
  predicate NoLineStarts(ls: seq<string>, p: string) {
    forall k :: 0 <= k < |ls| ==> !StartsWith(ls[k], p)
  }

  /** A missing container is reported in one sentence and nothing else. */
  lemma SummaryOfMissing(info: ContainerInfo)
    requires !info.present
    ensures Summary(info) == "Container '" + info.name + "' does not exist."
  {
  }

  /**
   * The summary opens with the name and the state, then the owner when one
   * is known, then the modules line; the modules line is the fallback text
   * exactly when no module is known.
   */
  lemma SummaryHead(info: ContainerInfo)
    ensures var ls := SummaryLines(info);
            var m := if Given(info.owner) then 3 else 2;
            && |ls| > m
            && ls[0] == "Container: " + info.name
            && ls[1] == "State: " + info.state
            && (Given(info.owner) ==> ls[2] == "Owner: " + info.owner.value)
            && ls[m] == (if info.modules == [] then NO_MODULES else "Modules: " + Join(info.modules, ", "))
  {
    var ls := SummaryLines(info);
    var m := if Given(info.owner) then 3 else 2;
    assert ls[m] == ModulesLine(info.modules);
  }

  /** The line opening each section, at the position telling the sections apart from that one. */
  lemma UnavailableApart(info: ContainerInfo)
    ensures NoLineStarts(HeadLines(info) + OwnerLines(info) + [ModulesLine(info.modules)], UNAVAILABLE)
    ensures NoLineStarts(UptimeLines(info) + StorageLines(info) + NoteLines(info), UNAVAILABLE)
    ensures Given(info.tailscaleIp) ==> !StartsWith("Tailscale IP: " + info.tailscaleIp.value, UNAVAILABLE)
    ensures Given(info.tailscaleHostname) ==> !StartsWith("Tailscale hostname: " + info.tailscaleHostname.value, UNAVAILABLE)
  {
    DiffersAtBoth("Container: ", info.name, "Tailscale:", " module installed but status unavailable", 0);
    DiffersAtBoth("State: ", info.state, "Tailscale:", " module installed but status unavailable", 0);
    if Given(info.owner) {
      DiffersAtBoth("Owner: ", info.owner.value, "Tailscale:", " module installed but status unavailable", 0);
    }
    if info.modules != [] {
      DiffersAtBoth("Modules: ", Join(info.modules, ", "), "Tailscale:", " module installed but status unavailable", 0);
    } else {
      DiffersAtBoth("Modules:", " unknown (could not read from system closure)", "Tailscale:", " module installed but status unavailable", 0);
    }
    if Given(info.uptime) {
      DiffersAtBoth("Uptime: ", info.uptime.value, "Tailscale:", " module installed but status unavailable", 0);
    }
    if Given(info.storageUsed) {
      DiffersAtBoth("Storage: ", Join(StorageParts(info.storageUsed.value, info.storageQuota, info.storageAvailable), " "), "Tailscale:", " module installed but status unavailable", 0);
    }
    if Given(info.error) {
      DiffersAtBoth("Note: ", info.error.value, "Tailscale:", " module installed but status unavailable", 0);
    }
    if Given(info.tailscaleIp) {
      DiffersAtBoth("Tailscale IP: ", info.tailscaleIp.value, "Tailscale:", " module installed but status unavailable", 9);
    }
    if Given(info.tailscaleHostname) {
      DiffersAtBoth("Tailscale hostname: ", info.tailscaleHostname.value, "Tailscale:", " module installed but status unavailable", 9);
    }
  }

  /**
   * The "status unavailable" line is in the summary exactly when no
   * Tailscale IP is known and the container has the tailscale module.
   */
  lemma SummaryTailscaleUnavailable(info: ContainerInfo)
    ensures UNAVAILABLE in SummaryLines(info) <==> !Given(info.tailscaleIp) && "tailscale" in info.modules
  {
    UnavailableApart(info);
    var a := HeadLines(info) + OwnerLines(info) + [ModulesLine(info.modules)];
    var t := TailscaleLines(info);
    var b := UptimeLines(info) + StorageLines(info) + NoteLines(info);
    assert SummaryLines(info) == a + t + b;
    assert StartsWith(UNAVAILABLE, UNAVAILABLE);
    assert UNAVAILABLE !in a && UNAVAILABLE !in b;
    assert UNAVAILABLE in a + t + b <==> UNAVAILABLE in t;
  }

  /** `' '.join(storage_parts)` written out: the quota part only when shown, the free space only when known. */
  lemma StorageLineText(used: string, quota: Option<string>, available: Option<string>)
    ensures StorageLine(used, quota, available)
            == "Storage: " + ("used " + used)
               + (if QuotaShown(quota) then " " + ("of " + quota.value + " quota") else "")
               + (if Given(available) then " " + ("(" + available.value + " available)") else "")
  {
    var u := "used " + used;
    var q := if QuotaShown(quota) then ["of " + quota.value + " quota"] else [];
    var a := if Given(available) then ["(" + available.value + " available)"] else [];
    var qs := if q != [] then " " + q[0] else "";
    var av := if a != [] then " " + a[0] else "";
    assert StorageParts(used, quota, available) == [u] + q + a;
    assert Join([u] + q, " ") == u + qs by {
      if q != [] {
        JoinAppend([u], q[0], " ");
      }
    }
    assert Join([u] + q + a, " ") == u + qs + av by {
      if a != [] {
        JoinAppend([u] + q, a[0], " ");
      } else {
        assert [u] + q + a == [u] + q;
      }
    }
    assert "Storage: " + (u + qs + av) == "Storage: " + u + qs + av;
  }

  /** Two runs of lines neither of which has a line starting with `p` joined together have none either. */
  lemma NoLineStartsJoin(a: seq<string>, b: seq<string>, p: string)
    requires NoLineStarts(a, p) && NoLineStarts(b, p)
    ensures NoLineStarts(a + b, p)
  {
    forall k | 0 <= k < |a + b|
      ensures !StartsWith((a + b)[k], p)
    {
      if k < |a| {
        assert (a + b)[k] == a[k];
      } else {
        assert (a + b)[k] == b[k - |a|];
      }
    }
  }

  /** The single-line sections before the storage line start with neither "Storage: " nor "Note: ". */
  lemma HeadApart(info: ContainerInfo)
    ensures NoLineStarts(HeadLines(info), "Storage: ") && NoLineStarts(HeadLines(info), "Note: ")
  {
    DiffersAtPrefix("Container: ", info.name, "Storage: ", 0);
    DiffersAtPrefix("State: ", info.state, "Storage: ", 2);
    DiffersAtPrefix("Container: ", info.name, "Note: ", 0);
    DiffersAtPrefix("State: ", info.state, "Note: ", 0);
  }

  lemma OwnerApart(info: ContainerInfo)
    ensures NoLineStarts(OwnerLines(info), "Storage: ") && NoLineStarts(OwnerLines(info), "Note: ")
  {
    if Given(info.owner) {
      DiffersAtPrefix("Owner: ", info.owner.value, "Storage: ", 0);
      DiffersAtPrefix("Owner: ", info.owner.value, "Note: ", 0);
    }
  }

  lemma ModulesApart(info: ContainerInfo)
    ensures NoLineStarts([ModulesLine(info.modules)], "Storage: ") && NoLineStarts([ModulesLine(info.modules)], "Note: ")
  {
    if info.modules != [] {
      DiffersAtPrefix("Modules: ", Join(info.modules, ", "), "Storage: ", 0);
      DiffersAtPrefix("Modules: ", Join(info.modules, ", "), "Note: ", 0);
    } else {
      DiffersAtPrefix("Modules:", " unknown (could not read from system closure)", "Storage: ", 0);
      DiffersAtPrefix("Modules:", " unknown (could not read from system closure)", "Note: ", 0);
    }
  }

  lemma TailscaleApart(info: ContainerInfo)
    ensures NoLineStarts(TailscaleLines(info), "Storage: ") && NoLineStarts(TailscaleLines(info), "Note: ")
  {
    if Given(info.tailscaleIp) {
      DiffersAtPrefix("Tailscale IP: ", info.tailscaleIp.value, "Storage: ", 0);
      DiffersAtPrefix("Tailscale IP: ", info.tailscaleIp.value, "Note: ", 0);
    }
    if Given(info.tailscaleHostname) {
      DiffersAtPrefix("Tailscale hostname: ", info.tailscaleHostname.value, "Storage: ", 0);
      DiffersAtPrefix("Tailscale hostname: ", info.tailscaleHostname.value, "Note: ", 0);
    }
    DiffersAtPrefix("Tailscale:", " module installed but status unavailable", "Storage: ", 0);
    DiffersAtPrefix("Tailscale:", " module installed but status unavailable", "Note: ", 0);
  }

  lemma UptimeApart(info: ContainerInfo)
    ensures NoLineStarts(UptimeLines(info), "Storage: ") && NoLineStarts(UptimeLines(info), "Note: ")
  {
    if Given(info.uptime) {
      DiffersAtPrefix("Uptime: ", info.uptime.value, "Storage: ", 0);
      DiffersAtPrefix("Uptime: ", info.uptime.value, "Note: ", 0);
    }
  }

  /** The sections up to the uptime line, in order, start with neither "Storage: " nor "Note: ". */
  lemma EarlyApart(info: ContainerInfo, p: string)
    requires p == "Storage: " || p == "Note: "
    ensures NoLineStarts(HeadLines(info) + OwnerLines(info) + [ModulesLine(info.modules)] + TailscaleLines(info) + UptimeLines(info), p)
  {
    HeadApart(info);
    OwnerApart(info);
    ModulesApart(info);
    TailscaleApart(info);
    UptimeApart(info);
    NoLineStartsJoin(HeadLines(info), OwnerLines(info), p);
    NoLineStartsJoin(HeadLines(info) + OwnerLines(info), [ModulesLine(info.modules)], p);
    NoLineStartsJoin(HeadLines(info) + OwnerLines(info) + [ModulesLine(info.modules)], TailscaleLines(info), p);
    NoLineStartsJoin(HeadLines(info) + OwnerLines(info) + [ModulesLine(info.modules)] + TailscaleLines(info), UptimeLines(info), p);
  }

  /** Sections other than the storage section do not start with "Storage: ". */
  lemma StorageApart(info: ContainerInfo)
    ensures NoLineStarts(HeadLines(info) + OwnerLines(info) + [ModulesLine(info.modules)] + TailscaleLines(info) + UptimeLines(info), "Storage: ")
    ensures NoLineStarts(NoteLines(info), "Storage: ")
  {
    EarlyApart(info, "Storage: ");
    if Given(info.error) {
      DiffersAtPrefix("Note: ", info.error.value, "Storage: ", 0);
    }
  }

  /**
   * A storage line is there exactly when the used figure is known; it then
   * follows the uptime section and precedes the note.
   */
  lemma SummaryStorage(info: ContainerInfo)
    ensures Given(info.storageUsed) ==>
              StorageLine(info.storageUsed.value, info.storageQuota, info.storageAvailable) in SummaryLines(info)
    ensures !Given(info.storageUsed) ==> NoLineStarts(SummaryLines(info), "Storage: ")
  {
    StorageApart(info);
    var a := HeadLines(info) + OwnerLines(info) + [ModulesLine(info.modules)] + TailscaleLines(info) + UptimeLines(info);
    assert SummaryLines(info) == a + StorageLines(info) + NoteLines(info);
  }

  /** Sections other than the note do not start with "Note: ". */
  lemma NoteApart(info: ContainerInfo)
    ensures NoLineStarts(HeadLines(info) + OwnerLines(info) + [ModulesLine(info.modules)] + TailscaleLines(info)
                         + UptimeLines(info) + StorageLines(info), "Note: ")
  {
    EarlyApart(info, "Note: ");
    if Given(info.storageUsed) {
      DiffersAtPrefix("Storage: ", Join(StorageParts(info.storageUsed.value, info.storageQuota, info.storageAvailable), " "), "Note: ", 0);
    }
    NoLineStartsJoin(HeadLines(info) + OwnerLines(info) + [ModulesLine(info.modules)] + TailscaleLines(info) + UptimeLines(info),
                     StorageLines(info), "Note: ");
  }

  /** The note, when there is an error, is the last line; without one no line is a note. */
  lemma SummaryNote(info: ContainerInfo)
    ensures Given(info.error) ==> SummaryLines(info)[|SummaryLines(info)| - 1] == "Note: " + info.error.value
    ensures !Given(info.error) ==> NoLineStarts(SummaryLines(info), "Note: ")
  {
    NoteApart(info);
  }

  // ------------------------------------------------------------ facets

  /** A `key` such as "State=" occurring in `s` puts its `=` in `s`. */
  lemma {:induction false} ContainsChar(s: string, sub: string, i: nat)
    requires i < |sub| && Contains(s, sub)
    ensures IndexOf(s, sub[i]) >= 0
    decreases |s|
  {
    if StartsWith(s, sub) {
      assert s[..|sub|][i] == s[i];
      IndexOfSpec(s, sub[i]);
    } else {
      ContainsChar(s[1..], sub, i);
      var j := IndexOf(s[1..], sub[i]);
      assert s[j + 1] == sub[i];
    }
  }

  /** `stdout.split("=", 1)[1].strip()` guarded by `key in stdout`: the text after the FIRST "=" of the output. */
  function PropertyValue(stdout: string, key: string): (r: Option<string>)
    requires key != "" && key[|key| - 1] == '='
    ensures r.Some? <==> Contains(stdout, key)
    ensures r.Some? ==> Stripped(r.value)
  {
    if Contains(stdout, key) then
      ContainsChar(stdout, key, |key| - 1);
      StripTrims(AfterFirst(stdout, '='));
      Some(Strip(AfterFirst(stdout, '=')))
    else None
  }

  /** A one-property answer `key + value`, where `key` holds its only "=" at its end, yields the value, stripped. */
  lemma PropertyOfLine(key: string, value: string)
    requires key != "" && key[|key| - 1] == '=' && Free(key[..|key| - 1], '=')
    ensures PropertyValue(key + value, key) == Some(Strip(value))
  {
    var s := key + value;
    var name := key[..|key| - 1];
    assert key == name + ['='];
    assert s == name + ['='] + value;
    assert StartsWith(s, key);
    IndexOfAfterFree(name, '=', value);
    assert s[|name| + 1..] == value;
  }

  function StateArgv(name: string): seq<string> {
    ["machinectl", "show", name, "--property=State", "--no-pager"]
  }

  /** The state `machinectl show` reports: a non-empty value from a successful run that mentions "State=". */
  function ShownState(a: Attempt<CommandResult>): (r: Option<string>)
    ensures r.Some? ==> r.value != ""
  {
    if a.Done? && a.value.Success() then
      match PropertyValue(a.value.stdout, "State=")
      case Some(v) => if v != "" then Some(v) else None
      case None => None
    else None
  }

  /** `nixos-container list` succeeded and names the container on a line of its own. */
  predicate Listed(name: string, a: Attempt<CommandResult>) {
    a.Done? && a.value.Success() && name in NonBlank(SplitLines(a.value.stdout))
  }

  /** `_query_state(name)`; timeouts are caught at each step. */
  function QueryState(name: string, procs: Processes): (r: string)
    ensures r != ""
  {
    match ShownState(Run(procs, StateArgv(name), QUERY_TIMEOUT))
    case Some(s) => s
    case None => if Listed(name, Run(procs, ListArgv(), QUERY_TIMEOUT)) then "stopped" else NOT_FOUND
  }

  /** The list names the container exactly when it succeeded and one of its lines, stripped, is the (non-empty) name. */
  lemma ListedIff(name: string, a: Attempt<CommandResult>)
    requires a.Done?
    ensures Listed(name, a) <==> a.value.Success() && name in NonBlank(SplitLines(a.value.stdout))
    ensures name in NonBlank(SplitLines(a.value.stdout)) <==>
              name != "" && exists j :: 0 <= j < |SplitLines(a.value.stdout)| && Strip(SplitLines(a.value.stdout)[j]) == name
  {
    NonBlankMembers(SplitLines(a.value.stdout), name);
  }

  /**
   * The live state wins; without one (timeout, failure, no "State=" or an
   * empty value) a container listed by `nixos-container list` is "stopped"
   * and any other is "not found".
   */
  lemma QueryStateFallback(name: string, procs: Processes)
    ensures var shown := ShownState(Run(procs, StateArgv(name), QUERY_TIMEOUT));
            var listed := Listed(name, Run(procs, ListArgv(), QUERY_TIMEOUT));
            && (shown.Some? ==> QueryState(name, procs) == shown.value)
            && (shown.None? && listed ==> QueryState(name, procs) == "stopped")
            && (shown.None? && !listed ==> QueryState(name, procs) == NOT_FOUND)
            && (procs(StateArgv(name)).Hung? ==> QueryState(name, procs) in {"stopped", NOT_FOUND})
  {
  }

  /** A successful `State=<value>` answer shows that value. */
  lemma ShownValue(a: Attempt<CommandResult>, v: string)
    requires a.Done? && a.value.Success() && a.value.stdout == "State=" + v
    requires v != "" && Stripped(v)
    ensures ShownState(a) == Some(v)
  {
    assert Free("State="[..5], '=');
    PropertyOfLine("State=", v);
    StripFixesStripped(v);
  }

  /** A successful `State=<value>` answer gives its value as the state, whatever the list says. */
  lemma QueryStateShown(name: string, procs: Processes, v: string)
    requires var a := Run(procs, StateArgv(name), QUERY_TIMEOUT);
             a.Done? && a.value.Success() && a.value.stdout == "State=" + v
    requires v != "" && Stripped(v)
    ensures QueryState(name, procs) == v
  {
    ShownValue(Run(procs, StateArgv(name), QUERY_TIMEOUT), v);
  }

  // ------------------------------------------------------------ _query_modules

  function ModulesArgv(name: string): seq<string> {
    ["nixos-container", "run", name, "--", "sh", "-c", "echo $VOXNIX_MODULES"]
  }

  /** `Path(f"/etc/nixos-containers/{name}.conf")`. */
  function ModulesConfPath(name: string): string {
    PathStr(ParsePath("/etc/nixos-containers/" + name + ".conf"))
  }

  lemma ConfDirSegments()
    ensures PlainSegment("etc") && PlainSegment("nixos-containers")
  {
    assert Free("etc", '/');
    assert Free("nixos-containers", '/');
  }

  lemma ConfDirParts()
    ensures PlainSegment("etc") && PlainSegment("nixos-containers")
    ensures "/" + Join(["etc", "nixos-containers"], "/") == CONF_DIR
    ensures "/etc/nixos-containers/" == CONF_DIR + "/"
  {
    ConfDirSegments();
    assert Join(["etc", "nixos-containers"], "/") == "etc" + "/" + "nixos-containers";
  }

  /** Under a clean absolute directory, `Path(dir) / file` and `Path(dir + "/" + file)` print the same. */
  lemma CleanUnder(dir: string, segs: seq<string>, file: string)
    requires segs != [] && PlainSegment(file) && dir == "/" + Join(segs, "/")
    requires forall k :: 0 <= k < |segs| ==> PlainSegment(segs[k])
    ensures PathStr(PathDiv(ParsePath(dir), file)) == dir + "/" + file
    ensures PathStr(ParsePath(dir + "/" + file)) == dir + "/" + file
  {
    PathDivClean(segs, file);
    JoinAppend(segs, file, "/");
    assert dir + "/" + file == "/" + Join(segs + [file], "/");
    ParseCleanAbsolute(segs + [file]);
  }

  /** For a plain file name, the modules query reads the same conf file as the owner lookup. */
  lemma ModulesConfIsOwnerConf(name: string)
    requires PlainSegment(name + ".conf")
    ensures ModulesConfPath(name) == ConfPath(name)
  {
    ConfDirParts();
    CleanUnder(CONF_DIR, ["etc", "nixos-containers"], name + ".conf");
    assert "/etc/nixos-containers/" + name + ".conf" == CONF_DIR + "/" + (name + ".conf");
  }

  /** The modules recorded in the container's system closure, or none when a file or a line is missing. */
  function StoredModules(name: string, files: Files): (r: seq<string>)
    ensures forall k :: 0 <= k < |r| ==> r[k] != "" && forall j :: 0 <= j < |r[k]| ==> !IsSpace(r[k][j])
  {
    match SystemPathOf(ModulesConfPath(name), files)
    case None => []
    case Some(sp) =>
      var envPath := SetEnvironmentPath(sp);
      if envPath !in files then []
      else
        match Search(ModulesAt, files[envPath], 0)
        case None => []
        case Some(m) => WordsSpec(Strip(m)); Words(Strip(m))
  }

  /** `_query_modules(name)`: the live environment first, then the closure on disk; words never hold whitespace. */
  function QueryModules(name: string, procs: Processes, files: Files): (r: seq<string>)
    ensures forall k :: 0 <= k < |r| ==> r[k] != "" && forall j :: 0 <= j < |r[k]| ==> !IsSpace(r[k][j])
  {
    var a := Run(procs, ModulesArgv(name), QUERY_TIMEOUT);
    if a.Done? && a.value.Success() && Strip(a.value.stdout) != "" then
      WordsSpec(Strip(a.value.stdout));
      Words(Strip(a.value.stdout))
    else StoredModules(name, files)
  }

  /**
   * A live answer with some text wins and the files are not consulted;
   * otherwise (failure, blank output or timeout) the modules are the ones
   * stored on disk.
   */
  lemma ModulesLookupOrder(name: string, procs: Processes, files: Files, otherFiles: Files)
    ensures var a := Run(procs, ModulesArgv(name), QUERY_TIMEOUT);
            && (a.Done? && a.value.Success() && Strip(a.value.stdout) != "" ==>
                  QueryModules(name, procs, files) == QueryModules(name, procs, otherFiles) == Words(Strip(a.value.stdout)))
            && (!(a.Done? && a.value.Success() && Strip(a.value.stdout) != "") ==>
                  QueryModules(name, procs, files) == StoredModules(name, files))
  {
  }

  lemma ModulesLineText(value: string, rest: string)
    ensures "export " + "VOXNIX_MODULES" + "=\"" + value + "\"" + rest == "export VOXNIX_MODULES=\"" + value + "\"" + rest
  {
  }

  lemma ModulesExportLine(value: string, rest: string)
    requires Free(value, '"')
    ensures ModulesAt("export VOXNIX_MODULES=\"" + value + "\"" + rest) == Some(value)
  {
    assert !IsSpace("VOXNIX_MODULES"[0]);
    ExportLine("VOXNIX_MODULES", value, rest);
    ModulesLineText(value, rest);
  }

  /** A text whose first line is `export VOXNIX_MODULES="<value>"` gives that value. */
  lemma ModulesFirstLine(value: string, rest: string)
    requires Free(value, '"')
    ensures Search(ModulesAt, "export VOXNIX_MODULES=\"" + value + "\"" + rest, 0) == Some(value)
  {
    ModulesExportLine(value, rest);
    SearchFirstLine(ModulesAt, "export VOXNIX_MODULES=\"" + value + "\"" + rest);
  }

  /** Files laid out the way the container build writes them give back the recorded module list, split into words. */
  lemma StoredModulesOfFiles(name: string, files: Files, systemPath: string, value: string, confRest: string, envRest: string)
    requires systemPath != "" && Free(systemPath, '\n') && Stripped(systemPath)
    requires Free(value, '"')
    requires ModulesConfPath(name) in files && files[ModulesConfPath(name)] == "SYSTEM_PATH=" + systemPath + "\n" + confRest
    requires SetEnvironmentPath(systemPath) in files
    requires files[SetEnvironmentPath(systemPath)] == "export VOXNIX_MODULES=\"" + value + "\"" + envRest
    ensures StoredModules(name, files) == Words(Strip(value))
  {
    var conf := files[ModulesConfPath(name)];
    var env := files[SetEnvironmentPath(systemPath)];
    SystemPathFirstLine(systemPath, confRest);
    StripFixesStripped(systemPath);
    assert Search(SystemPathAt, conf, 0) == Some(systemPath);
    ModulesFirstLine(value, envRest);
    assert Search(ModulesAt, env, 0) == Some(value);
    StoredModulesFrom(name, files, systemPath, value);
  }

  /** The stored list read from a closure whose system path is `sp` and whose export holds `m`. */
  lemma StoredModulesFrom(name: string, files: Files, sp: string, m: string)
    requires SystemPathOf(ModulesConfPath(name), files) == Some(sp) && SetEnvironmentPath(sp) in files
    requires Search(ModulesAt, files[SetEnvironmentPath(sp)], 0) == Some(m)
    ensures StoredModules(name, files) == Words(Strip(m))
  {
  }

  // ------------------------------------------------------------ _query_tailscale

  function TailscaleIpArgv(name: string): seq<string> {
    ["nixos-container", "run", name, "--", "tailscale", "ip", "-4"]
  }

  function TailscaleStatusArgv(name: string): seq<string> {
    ["nixos-container", "run", name, "--", "tailscale", "status", "--self", "--json"]
  }

  /**
   * What `json.loads` and the `.get` chain make of `tailscale status`:
   * `Undecodable` when the text is not JSON or the `Self` value has the
   * wrong shape (the errors the source catches), else the `DNSName` and
   * `HostName` of the `Self` object, each absent when not there.
   */
  datatype SelfStatus = Undecodable | SelfNode(dnsName: Option<string>, hostName: Option<string>)

  /** Python's `s.rstrip(c)` for one character. */
  function TrimEndChar(s: string, c: char): (r: string)
    ensures StartsWith(s, r)
    ensures forall j :: |r| <= j < |s| ==> s[j] == c
    ensures r == "" || r[|r| - 1] != c
  {
    if s != "" && s[|s| - 1] == c then TrimEndChar(s[..|s| - 1], c) else s
  }

  /** The address `tailscale ip -4` printed: the first line of its stripped output. */
  function TailscaleIp(a: Attempt<CommandResult>): (r: Option<string>)
    ensures r.Some? <==> a.Done? && a.value.Success() && Strip(a.value.stdout) != ""
    ensures r.Some? ==> Free(r.value, '\n') && StartsWith(Strip(a.value.stdout), r.value)
  {
    if a.Done? && a.value.Success() && Strip(a.value.stdout) != "" then Some(BeforeFirst(Strip(a.value.stdout), '\n'))
    else None
  }

  /** The DNS name less its trailing dots, or when that is empty the bare host name (which may be absent). */
  function HostnameOf(node: SelfStatus): (r: Option<string>)
    ensures node.Undecodable? ==> r.None?
    ensures node.SelfNode? && TrimEndChar(node.dnsName.GetOr(""), '.') != "" ==> r == Some(TrimEndChar(node.dnsName.GetOr(""), '.'))
    ensures node.SelfNode? && TrimEndChar(node.dnsName.GetOr(""), '.') == "" ==> r == node.hostName
  {
    match node
    case Undecodable => None
    case SelfNode(dns, host) =>
      var trimmed := TrimEndChar(dns.GetOr(""), '.');
      if trimmed != "" then Some(trimmed) else host
  }

  /** The hostname `tailscale status --self --json` gives; the decoder sees the output as `run_command` returned it. */
  function TailscaleHostname(a: Attempt<CommandResult>, decode: string -> SelfStatus): (r: Option<string>)
    ensures !(a.Done? && a.value.Success() && Strip(a.value.stdout) != "") ==> r.None?
  {
    if a.Done? && a.value.Success() && Strip(a.value.stdout) != "" then HostnameOf(decode(a.value.stdout))
    else None
  }

  /** `_query_tailscale(name)`: the address and the hostname, each independently absent. */
  function QueryTailscale(name: string, procs: Processes, decode: string -> SelfStatus): (Option<string>, Option<string>) {
    (TailscaleIp(Run(procs, TailscaleIpArgv(name), QUERY_TIMEOUT)),
     TailscaleHostname(Run(procs, TailscaleStatusArgv(name), QUERY_TIMEOUT), decode))
  }

  /** A DNS name ending in dots loses exactly those dots. */
  lemma DnsNameTrimmed(host: string, dots: nat, hostName: Option<string>)
    requires host != "" && host[|host| - 1] != '.'
    ensures HostnameOf(SelfNode(Some(host + seq(dots, _ => '.')), hostName)) == Some(host)
  {
    TrimDots(host, dots);
  }

  lemma {:induction false} TrimDots(host: string, dots: nat)
    requires host != "" && host[|host| - 1] != '.'
    ensures TrimEndChar(host + seq(dots, _ => '.'), '.') == host
  {
    if dots == 0 {
      assert host + seq(0, _ => '.') == host;
    } else {
      var s := host + seq(dots, _ => '.');
      assert s[..|s| - 1] == host + seq(dots - 1, _ => '.');
      TrimDots(host, dots - 1);
    }
  }

  // ------------------------------------------------------------ _query_uptime

  function UptimeArgv(name: string): seq<string> {
    ["systemctl", "show", "container@" + name + ".service", "--property=ActiveEnterTimestamp", "--no-pager"]
  }

  /** `_query_uptime(name)`: "since " and the timestamp `systemctl` printed, when there is one. */
  function QueryUptime(name: string, procs: Processes): (r: Option<string>)
    ensures r.Some? ==> exists t :: t != "" && Stripped(t) && r.value == "since " + t
  {
    var a := Run(procs, UptimeArgv(name), QUERY_TIMEOUT);
    if a.Done? && a.value.Success() then
      match PropertyValue(a.value.stdout, "ActiveEnterTimestamp=")
      case Some(t) => if t != "" then Some("since " + t) else None
      case None => None
    else None
  }

  /** A successful one-line answer gives "since " and the timestamp; a failed or timed-out query gives nothing. */
  lemma QueryUptimeCases(name: string, procs: Processes, t: string)
    ensures var a := Run(procs, UptimeArgv(name), QUERY_TIMEOUT);
            && (!(a.Done? && a.value.Success()) ==> QueryUptime(name, procs).None?)
            && (a.Done? && a.value.Success() && a.value.stdout == "ActiveEnterTimestamp=" + t && t != "" && Stripped(t) ==>
                  QueryUptime(name, procs) == Some("since " + t))
  {
    var a := Run(procs, UptimeArgv(name), QUERY_TIMEOUT);
    if a.Done? && a.value.Success() && a.value.stdout == "ActiveEnterTimestamp=" + t && t != "" && Stripped(t) {
      var key := "ActiveEnterTimestamp=";
      assert Free(key[..|key| - 1], '=');
      PropertyOfLine(key, t);
      StripFixesStripped(t);
    }
  }

  // ------------------------------------------------------------ _query_storage

  /** `_workspace_dataset(owner, name)` queried for its three figures. */
  function StorageQueryArgv(owner: string, name: string): seq<string> {
    ["zfs", "get", "-Hp", "-o", "property,value", "used,quota,available", Zfs.WorkspaceDataset(owner, name)]
  }

  /** Used, quota and available space, each human-readable. */
  datatype StorageFigures = StorageFigures(used: Option<string>, quota: Option<string>, available: Option<string>)

  /** `_query_storage(owner, name)`: all three figures from a successful query, none otherwise. */
  function StorageOf(owner: string, name: string, procs: Processes): (r: StorageFigures)
    ensures var a := Run(procs, StorageQueryArgv(owner, name), QUERY_TIMEOUT);
            && (r.used.Some? <==> a.Done? && a.value.Success())
            && (r.used.Some? <==> r.quota.Some?) && (r.quota.Some? <==> r.available.Some?)
  {
    var a := Run(procs, StorageQueryArgv(owner, name), QUERY_TIMEOUT);
    if a.TimeoutError? || !a.value.Success() then StorageFigures(None, None, None)
    else
      var props := PropsOf(SplitLines(Strip(a.value.stdout)));
      StorageFigures(Some(HumanSizeOf(GetOrZero(props, "used"))),
                     Some(HumanSizeOf(GetOrZero(props, "quota"))),
                     Some(HumanSizeOf(GetOrZero(props, "available"))))
  }

  /** `_query_storage(owner, name)`: the query, the line loop and `_human_size` on each figure. */
  method QueryStorage(owner: string, name: string, procs: Processes) returns (r: StorageFigures)
    ensures r == StorageOf(owner, name, procs)
  {
    var a := Run(procs, StorageQueryArgv(owner, name), QUERY_TIMEOUT);
    if a.TimeoutError? {
      return StorageFigures(None, None, None);
    }
    if !a.value.Success() {
      return StorageFigures(None, None, None);
    }
    var props := ParseProperties(a.value.stdout);
    var used := HumanSize(GetOrZero(props, "used"));
    var quota := HumanSize(GetOrZero(props, "quota"));
    var available := HumanSize(GetOrZero(props, "available"));
    r := StorageFigures(Some(used), Some(quota), Some(available));
  }

  /** A successful query missing a figure reports it as "0", and `zfs`'s "none" quota stays "none". */
  lemma StorageDefaults(owner: string, name: string, procs: Processes)
    requires var a := Run(procs, StorageQueryArgv(owner, name), QUERY_TIMEOUT);
             a.Done? && a.value.Success()
    ensures var a := Run(procs, StorageQueryArgv(owner, name), QUERY_TIMEOUT);
            var props := PropsOf(SplitLines(Strip(a.value.stdout)));
            var r := StorageOf(owner, name, procs);
            && ("used" !in props ==> r.used == Some("0"))
            && ("quota" !in props ==> r.quota == Some("0"))
            && ("available" !in props ==> r.available == Some("0"))
            && ("quota" in props && props["quota"] == "none" ==> r.quota == Some("none"))
  {
    var a := Run(procs, StorageQueryArgv(owner, name), QUERY_TIMEOUT);
    var props := PropsOf(SplitLines(Strip(a.value.stdout)));
    HumanSizePassThrough("0");
    HumanSizePassThrough("none");
  }

  // ------------------------------------------------------------ query_container

  /** The record for a container whose on-disk owner is someone else: only the state and the refusal. */
  function Foreign(name: string, state: string): ContainerInfo {
    ContainerInfo(name, true, state, None, [], None, None, None, None, None, None, Some(FOREIGN))
  }

  /** The Tailscale address and hostname and the uptime: asked only of a running container. */
  function LiveFacets(name: string, running: bool, procs: Processes, decode: string -> SelfStatus): (r: (Option<string>, Option<string>, Option<string>))
    ensures !running ==> r == (None, None, None)
  {
    if running then
      var tailscale := QueryTailscale(name, procs, decode);
      (tailscale.0, tailscale.1, QueryUptime(name, procs))
    else (None, None, None)
  }

  /** The record for a container in `state`, once every facet and the owner have been read. */
  function Gathered(name: string, owner: string, state: string, procs: Processes, files: Files, decode: string -> SelfStatus): ContainerInfo {
    var modules := QueryModules(name, procs, files);
    var storage := StorageOf(owner, name, procs);
    var live := LiveFacets(name, state == "running", procs, decode);
    var actual := GetContainerOwner(name, procs, files);
    if Given(actual) && actual.value != owner then Foreign(name, state)
    else ContainerInfo(name, true, state, actual, modules, live.0, live.1, live.2,
                       storage.used, storage.quota, storage.available, None)
  }

  /** `query_container(name, owner)`, with the facets evaluated in the order the source awaits them. */
  function QueryContainerOf(name: string, owner: string, procs: Processes, files: Files, decode: string -> SelfStatus): ContainerInfo {
    var state := QueryState(name, procs);
    if state == NOT_FOUND then Bare(name, false, NOT_FOUND)
    else Gathered(name, owner, state, procs, files, decode)
  }

  /** `query_container(name, owner)`: the state first, then the facets, then the ownership check. */
  method QueryContainer(name: string, owner: string, procs: Processes, files: Files, decode: string -> SelfStatus)
    returns (info: ContainerInfo)
    ensures info == QueryContainerOf(name, owner, procs, files, decode)
  {
    var state := QueryState(name, procs);
    if state == NOT_FOUND {
      return Bare(name, false, NOT_FOUND);
    }
    var running := state == "running";
    var modules := QueryModules(name, procs, files);
    var storage := QueryStorage(owner, name, procs);
    var ip: Option<string> := None;
    var hostname: Option<string> := None;
    var uptime: Option<string> := None;
    if running {
      var tailscale := QueryTailscale(name, procs, decode);
      ip, hostname := tailscale.0, tailscale.1;
      uptime := QueryUptime(name, procs);
    }
    assert (ip, hostname, uptime) == LiveFacets(name, running, procs, decode);
    var actual := GetContainerOwner(name, procs, files);
    if Given(actual) && actual.value != owner {
      return Foreign(name, state);
    }
    info := ContainerInfo(name, true, state, actual, modules, ip, hostname, uptime,
                          storage.used, storage.quota, storage.available, None);
  }

  /** A container that is not found is reported missing and nothing else is queried into the record. */
  lemma QueryNotFound(name: string, owner: string, procs: Processes, files: Files, decode: string -> SelfStatus)
    requires QueryState(name, procs) == NOT_FOUND
    ensures var info := QueryContainerOf(name, owner, procs, files, decode);
            && !info.present && info.state == NOT_FOUND && info.name == name
            && Summary(info) == "Container '" + name + "' does not exist."
  {
  }

  /** Tailscale and uptime are asked only of a running container; a stopped one never reports them. */
  lemma QueryLiveFacets(name: string, owner: string, procs: Processes, files: Files, decode: string -> SelfStatus)
    ensures var info := QueryContainerOf(name, owner, procs, files, decode);
            && (info.state != "running" ==> info.tailscaleIp.None? && info.tailscaleHostname.None? && info.uptime.None?)
            && (info.present ==> info.state == QueryState(name, procs))
  {
    var state := QueryState(name, procs);
    if state != NOT_FOUND {
      GatheredLiveFacets(name, owner, state, procs, files, decode);
    }
  }

  lemma GatheredLiveFacets(name: string, owner: string, state: string, procs: Processes, files: Files, decode: string -> SelfStatus)
    ensures var info := Gathered(name, owner, state, procs, files, decode);
            && info.present && info.state == state
            && (state != "running" ==> info.tailscaleIp.None? && info.tailscaleHostname.None? && info.uptime.None?)
  {
  }

  /**
   * When the closure names another owner, the record holds only the name,
   * the state and the refusal; otherwise it holds every facet, the owner
   * found (if any) and no error.
   */
  lemma QueryOwnership(name: string, owner: string, procs: Processes, files: Files, decode: string -> SelfStatus)
    requires QueryState(name, procs) != NOT_FOUND
    ensures var info := QueryContainerOf(name, owner, procs, files, decode);
            var actual := GetContainerOwner(name, procs, files);
            && info.present
            && (actual.Some? && actual.value != owner ==> info == Foreign(name, QueryState(name, procs)))
            && (actual.None? || actual.value == owner ==>
                  info.error.None? && info.owner == actual
                  && info.modules == QueryModules(name, procs, files)
                  && info.storageUsed == StorageOf(owner, name, procs).used)
  {
  }

  /** The refusal shows in the summary as its last line, after the name, the state and the modules fallback. */
  lemma ForeignSummary(name: string, state: string)
    ensures SummaryLines(Foreign(name, state))
            == ["Container: " + name, "State: " + state, NO_MODULES, "Note: " + FOREIGN]
  {
  }
}
