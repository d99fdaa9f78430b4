/**
 * `agent/tools/workloads.py`: running and stopped containers, and who owns
 * them.  `machinectl` answers are taken already decoded from JSON; the
 * host's files are a map from path to text.
 */
module Workloads {
  import opened Common
  import opened Text
  import opened Cli

  const CONF_DIR: string := "/etc/nixos-containers"
  const OWNER_QUERY_TIMEOUT: nat := 10
  const MACHINECTL_TIMEOUT: nat := 15
  const LIST_TIMEOUT: nat := 10

  /** `Workload`; `class_` is `kind`. */
  datatype Workload = Workload(name: string, kind: string, service: string, state: string, addresses: seq<string>) {
    predicate IsRunning() {
      state == "running"
    }

    predicate IsContainer() {
      kind == "container"
    }

    predicate IsVm() {
      kind == "vm"
    }
  }

  // ------------------------------------------------------------ line lists

  /** `[f(x) for x in xs]`. */
  function Map(f: string -> string, xs: seq<string>): (r: seq<string>)
    ensures |r| == |xs|
    ensures forall k :: 0 <= k < |r| ==> r[k] == f(xs[k])
  {
    if xs == [] then [] else [f(xs[0])] + Map(f, xs[1..])
  }

  lemma {:induction false} MapAppend(f: string -> string, a: seq<string>, b: seq<string>)
    ensures Map(f, a + b) == Map(f, a) + Map(f, b)
  {
    if a == [] {
      assert a + b == b;
    } else {
      assert (a + b)[1..] == a[1..] + b;
      MapAppend(f, a[1..], b);
    }
  }

  /** Each line stripped. */
  function StripAll(lines: seq<string>): seq<string> {
    Map(Strip, lines)
  }

  /** The non-empty strings, in order. */
  function DropEmpty(xs: seq<string>): (r: seq<string>)
    ensures |r| <= |xs|
  {
    if xs == [] then [] else (if xs[0] == "" then [] else [xs[0]]) + DropEmpty(xs[1..])
  }

  /** `[l.strip() for l in lines if l.strip()]`. */
  function NonBlank(lines: seq<string>): seq<string> {
    DropEmpty(StripAll(lines))
  }

  /** Dropping empty strings works piece by piece: on a concatenation it is the concatenation of the two results. */
  lemma {:induction false} DropEmptyAppend(a: seq<string>, b: seq<string>)
    ensures DropEmpty(a + b) == DropEmpty(a) + DropEmpty(b)
  {
    if a == [] {
      assert a + b == b;
    } else {
      assert (a + b)[0] == a[0] && (a + b)[1..] == a[1..] + b;
      DropEmptyAppend(a[1..], b);
      var head := if a[0] == "" then [] else [a[0]];
      assert DropEmpty(a + b) == head + (DropEmpty(a[1..]) + DropEmpty(b));
      assert DropEmpty(a) == head + DropEmpty(a[1..]);
    }
  }

  /** A string survives exactly when it is non-empty and present. */
  lemma {:induction false} DropEmptyMembers(xs: seq<string>, x: string)
    ensures x in DropEmpty(xs) <==> x != "" && x in xs
  {
    if xs != [] {
      DropEmptyMembers(xs[1..], x);
      assert xs == [xs[0]] + xs[1..];
    }
  }

  /** Every listed value is stripped and non-empty. */
  lemma NonBlankStripped(lines: seq<string>)
    ensures forall k :: 0 <= k < |NonBlank(lines)| ==> NonBlank(lines)[k] != "" && Stripped(NonBlank(lines)[k])
  {
    var r := NonBlank(lines);
    forall k | 0 <= k < |r| ensures r[k] != "" && Stripped(r[k]) {
      DropEmptyMembers(StripAll(lines), r[k]);
      var j :| 0 <= j < |lines| && StripAll(lines)[j] == r[k];
      StripShape(lines[j]);
    }
  }

  /** A value is listed exactly when it is the stripped form of some line and not empty. */
  lemma NonBlankMembers(lines: seq<string>, x: string)
    ensures x in NonBlank(lines) <==> x != "" && exists j :: 0 <= j < |lines| && Strip(lines[j]) == x
  {
    DropEmptyMembers(StripAll(lines), x);
    if x in StripAll(lines) {
      var j :| 0 <= j < |lines| && StripAll(lines)[j] == x;
    }
  }

  /** The comprehension works line by line, in order. */
  lemma NonBlankAppend(lines: seq<string>, more: seq<string>)
    ensures NonBlank(lines + more) == NonBlank(lines) + NonBlank(more)
  {
    MapAppend(Strip, lines, more);
    DropEmptyAppend(StripAll(lines), StripAll(more));
  }

  /** `_parse_addresses(raw)`. */
  function ParseAddresses(raw: string): seq<string> {
    NonBlank(SplitLines(Strip(raw)))
  }

  // ------------------------------------------------------------ _parse_machine

  /** `entry.get(key, default)` on a decoded `machinectl` entry. */
  function Get(entry: map<string, string>, key: string, default: string): (v: string)
    ensures key in entry ==> v == entry[key]
    ensures key !in entry ==> v == default
  {
    if key in entry then entry[key] else default
  }

  /** `_parse_machine(entry)`: the name is required, everything else has a default. */
  function ParseMachine(entry: map<string, string>): (r: Result<Workload, string>)
    ensures r.Failure? <==> "machine" !in entry
    ensures r.Success? ==>
              && r.value.name == entry["machine"]
              && r.value.kind == Get(entry, "class", "container")
              && r.value.service == Get(entry, "service", "nspawn")
              && r.value.state == Get(entry, "state", "running")
              && r.value.addresses == (if Get(entry, "addresses", "") == "" then [] else ParseAddresses(entry["addresses"]))
  {
    if "machine" !in entry then Failure("Missing 'machine' key in machinectl entry")
    else
      var raw := Get(entry, "addresses", "");
      var addresses := if raw != "" then ParseAddresses(raw) else [];
      Success(Workload(entry["machine"], Get(entry, "class", "container"), Get(entry, "service", "nspawn"),
                       Get(entry, "state", "running"), addresses))
  }

  /** An entry naming only the machine parses to a running nspawn container with no address. */
  lemma ParseMachineDefaults(name: string)
    ensures ParseMachine(map["machine" := name]) == Success(Workload(name, "container", "nspawn", "running", []))
  {
  }

  // ------------------------------------------------------------ multi-line regex search

  /** A pattern tried at the start of a string, without its `^`: the captured group, or no match. */
  type Matcher = string -> Option<string>

  /** `SYSTEM_PATH=(.+)$`: `.+` takes the rest of the line, and `$` holds before the "\n" or at the end. */
  function SystemPathAt(s: string): Option<string> {
    if !StartsWith(s, "SYSTEM_PATH=") then None
    else
      var v := BeforeFirst(s[12..], '\n');
      if v == "" then None else Some(v)
  }

  /** `export\s+KEY="([^"]*)"`: `\s+` takes the whole whitespace run, as the key does not start with whitespace. */
  function ExportAt(key: string, s: string): Option<string> {
    if !StartsWith(s, "export") then None
    else
      var t := s[6..];
      var u := TrimStart(t);
      var open := key + "=\"";
      if |u| == |t| || !StartsWith(u, open) then None
      else
        var v := u[|open|..];
        var q := IndexOf(v, '"');
        if q < 0 then None else Some(v[..q])
  }

  function OwnerAt(s: string): Option<string> {
    ExportAt("VOXNIX_OWNER", s)
  }

  function ModulesAt(s: string): Option<string> {
    ExportAt("VOXNIX_MODULES", s)
  }

  /** `^` in multi-line mode: the start of the text, or just after a "\n". */
  predicate LineStart(text: string, p: nat) {
    p <= |text| && (p == 0 || text[p - 1] == '\n')
  }

  /** The pattern matches at position `q`. */
  predicate Hit(m: Matcher, text: string, q: nat) {
    LineStart(text, q) && m(text[q..]).Some?
  }

  /** `re.search(pattern, text, re.MULTILINE)` from position `p`: the group of the leftmost match. */
  function Search(m: Matcher, text: string, p: nat): Option<string>
    requires p <= |text|
    decreases |text| - p
  {
    if Hit(m, text, p) then m(text[p..])
    else if p == |text| then None
    else Search(m, text, p + 1)
  }

  /** The search finds nothing exactly when no position from `p` on matches, and otherwise the group at the leftmost match. */
  lemma {:induction false} SearchSpec(m: Matcher, text: string, p: nat)
    requires p <= |text|
    ensures var r := Search(m, text, p);
            && (r.None? <==> forall q :: p <= q <= |text| ==> !Hit(m, text, q))
            && (r.Some? ==> exists q :: p <= q <= |text| && Hit(m, text, q) && r == m(text[q..])
                                        && forall q' :: p <= q' < q ==> !Hit(m, text, q'))
    decreases |text| - p
  {
    if !Hit(m, text, p) && p < |text| {
      SearchSpec(m, text, p + 1);
    }
  }

  /** A match on the first line is the one found. */
  lemma SearchFirstLine(m: Matcher, text: string)
    requires m(text).Some?
    ensures Search(m, text, 0) == m(text)
  {
    assert text[0..] == text;
  }

  lemma SystemPathLine(path: string, rest: string)
    requires path != "" && Free(path, '\n')
    ensures SystemPathAt("SYSTEM_PATH=" + path + "\n" + rest) == Some(path)
  {
    var text := "SYSTEM_PATH=" + path + "\n" + rest;
    assert text[..12] == "SYSTEM_PATH=";
    var v := text[12..];
    assert v == path + ['\n'] + rest;
    IndexOfAfterFree(path, '\n', rest);
    assert v[..|path|] == path;
  }

  lemma ExportLine(key: string, value: string, rest: string)
    requires key != "" && !IsSpace(key[0]) && Free(value, '"')
    ensures ExportAt(key, "export " + key + "=\"" + value + "\"" + rest) == Some(value)
  {
    var open := key + "=\"";
    var text := "export " + key + "=\"" + value + "\"" + rest;
    assert text[..6] == "export";
    var t := text[6..];
    var w := open + (value + "\"" + rest);
    assert t == [' '] + w;
    assert w[0] == key[0];
    assert TrimStart(t) == w by {
      assert t[0] == ' ' && t[1] == w[0];
      SkipSpaceAt(t, 0, 1);
      assert t[1..] == w;
    }
    assert w[..|open|] == open;
    var v := w[|open|..];
    assert v == value + ['"'] + rest;
    IndexOfAfterFree(value, '"', rest);
    assert v[..|value|] == value;
  }

  /** A text whose first line is `SYSTEM_PATH=<path>` gives that path. */
  lemma SystemPathFirstLine(path: string, rest: string)
    requires path != "" && Free(path, '\n')
    ensures Search(SystemPathAt, "SYSTEM_PATH=" + path + "\n" + rest, 0) == Some(path)
  {
    SystemPathLine(path, rest);
    SearchFirstLine(SystemPathAt, "SYSTEM_PATH=" + path + "\n" + rest);
  }

  lemma OwnerLineText(value: string, rest: string)
    ensures "export " + "VOXNIX_OWNER" + "=\"" + value + "\"" + rest == "export VOXNIX_OWNER=\"" + value + "\"" + rest
  {
  }

  lemma OwnerLine(value: string, rest: string)
    requires Free(value, '"')
    ensures OwnerAt("export VOXNIX_OWNER=\"" + value + "\"" + rest) == Some(value)
  {
    assert !IsSpace("VOXNIX_OWNER"[0]);
    ExportLine("VOXNIX_OWNER", value, rest);
    OwnerLineText(value, rest);
  }

  /** A text whose first line is `export VOXNIX_OWNER="<value>"` gives that value. */
  lemma OwnerFirstLine(value: string, rest: string)
    requires Free(value, '"')
    ensures Search(OwnerAt, "export VOXNIX_OWNER=\"" + value + "\"" + rest, 0) == Some(value)
  {
    OwnerLine(value, rest);
    SearchFirstLine(OwnerAt, "export VOXNIX_OWNER=\"" + value + "\"" + rest);
  }

  // ------------------------------------------------------------ owner lookup

  /** `_NIXOS_CONTAINERS_CONF_DIR / f"{name}.conf"`. */
  function ConfPath(name: string): string {
    PathStr(PathDiv(ParsePath(CONF_DIR), name + ".conf"))
  }

  /** `Path(system_path) / "etc" / "set-environment"`. */
  function SetEnvironmentPath(systemPath: string): string {
    PathStr(PathDiv(PathDiv(ParsePath(systemPath), "etc"), "set-environment"))
  }

  /** The system closure a container's conf file names, if the file is there and has a `SYSTEM_PATH=` line. */
  function SystemPathOf(confPath: string, files: Files): Option<string> {
    if confPath !in files then None
    else
      match Search(SystemPathAt, files[confPath], 0)
      case None => None
      case Some(sp) => Some(Strip(sp))
  }

  /** `_read_owner_from_system_path(name)`. */
  function ReadOwnerFromSystemPath(name: string, files: Files): (r: Option<string>)
    ensures r.Some? ==> r.value != ""
  {
    match SystemPathOf(ConfPath(name), files)
    case None => None
    case Some(sp) =>
      var envPath := SetEnvironmentPath(sp);
      if envPath !in files then None
      else
        match Search(OwnerAt, files[envPath], 0)
        case None => None
        case Some(o) => if o == "" then None else Some(o)
  }

  /**
   * The owner is found exactly when the conf file exists and names a
   * system path, that closure's `set-environment` exists, and its first
   * `export VOXNIX_OWNER="..."` line holds a non-empty value; a missing
   * piece or an empty value gives no owner.
   */
  lemma ReadOwnerFound(name: string, files: Files, owner: string)
    ensures ReadOwnerFromSystemPath(name, files) == Some(owner) <==>
              && SystemPathOf(ConfPath(name), files).Some?
              && var envPath := SetEnvironmentPath(SystemPathOf(ConfPath(name), files).value);
              && envPath in files
              && Search(OwnerAt, files[envPath], 0) == Some(owner)
              && owner != ""
  {
  }

  /** Files laid out the way the container build writes them give back the owner recorded in them. */
  lemma ReadOwnerOfStoredFiles(name: string, files: Files, systemPath: string, owner: string, confRest: string, envRest: string)
    requires systemPath != "" && Free(systemPath, '\n') && Stripped(systemPath)
    requires owner != "" && Free(owner, '"')
    requires ConfPath(name) in files && files[ConfPath(name)] == "SYSTEM_PATH=" + systemPath + "\n" + confRest
    requires SetEnvironmentPath(systemPath) in files
    requires files[SetEnvironmentPath(systemPath)] == "export VOXNIX_OWNER=\"" + owner + "\"" + envRest
    ensures ReadOwnerFromSystemPath(name, files) == Some(owner)
  {
    StoredSystemPath(ConfPath(name), files, systemPath, confRest);
    OwnerFirstLine(owner, envRest);
    ReadOwnerFound(name, files, owner);
  }

  lemma StoredSystemPath(confPath: string, files: Files, systemPath: string, confRest: string)
    requires systemPath != "" && Free(systemPath, '\n') && Stripped(systemPath)
    requires confPath in files && files[confPath] == "SYSTEM_PATH=" + systemPath + "\n" + confRest
    ensures SystemPathOf(confPath, files) == Some(systemPath)
  {
    SystemPathFirstLine(systemPath, confRest);
    StripFixesStripped(systemPath);
  }

  /** The live query. */
  function OwnerArgv(name: string): seq<string> {
    ["nixos-container", "run", name, "--", "sh", "-c", "echo $VOXNIX_OWNER"]
  }

  /** What the live query contributes: a stripped, non-empty owner from a successful run, else nothing. */
  function LiveOwner(a: Attempt<CommandResult>): (r: Option<string>)
    ensures r.Some? <==> a.Done? && a.value.Success() && Strip(a.value.stdout) != ""
    ensures r.Some? ==> r.value == Strip(a.value.stdout)
  {
    if a.Done? && a.value.Success() && a.value.stdout != "" && Strip(a.value.stdout) != "" then
      Some(Strip(a.value.stdout))
    else
      None
  }

  /** `get_container_owner(name)`: a timed-out query is caught and falls through. */
  function GetContainerOwner(name: string, procs: Processes, files: Files): (r: Option<string>)
    ensures r.Some? ==> r.value != ""
  {
    match LiveOwner(Run(procs, OwnerArgv(name), OWNER_QUERY_TIMEOUT))
    case Some(o) => Some(o)
    case None => ReadOwnerFromSystemPath(name, files)
  }

  /**
   * A live answer wins and the files are never consulted; without one
   * (failure, empty output or timeout) the answer is the on-disk lookup.
   */
  lemma OwnerLookupOrder(name: string, procs: Processes, files: Files, otherFiles: Files)
    ensures var live := LiveOwner(Run(procs, OwnerArgv(name), OWNER_QUERY_TIMEOUT));
            && (live.Some? ==> GetContainerOwner(name, procs, files) == live
                               && GetContainerOwner(name, procs, otherFiles) == live)
            && (live.None? ==> GetContainerOwner(name, procs, files) == ReadOwnerFromSystemPath(name, files))
            && (procs(OwnerArgv(name)).Hung? ==> GetContainerOwner(name, procs, files) == ReadOwnerFromSystemPath(name, files))
  {
  }

  // ------------------------------------------------------------ list_workloads

  /** What `json.loads` made of `machinectl`'s output. */
  datatype Decoded =
    | NotJson(error: string)
    | JsonList(entries: seq<map<string, string>>)
    | NotAList(typeName: string)

  /** The exceptions `list_workloads` lets out. */
  datatype Raised = WorkloadError(message: string) | Timeout(message: string)

  function MachinectlArgv(): seq<string> {
    ["machinectl", "list", "--output=json", "--no-pager"]
  }

  function ListArgv(): seq<string> {
    ["nixos-container", "list"]
  }

  /** The names of a list of workloads. */
  function Names(ws: seq<Workload>): set<string> {
    if ws == [] then {} else {ws[0].name} + Names(ws[1..])
  }

  /** No two workloads share a name. */
  predicate DistinctNames(ws: seq<Workload>) {
    ws == [] || (ws[0].name !in Names(ws[1..]) && DistinctNames(ws[1..]))
  }

  lemma {:induction false} NamesMember(ws: seq<Workload>, n: string)
    ensures n in Names(ws) <==> exists k :: 0 <= k < |ws| && ws[k].name == n
  {
    if ws != [] {
      NamesMember(ws[1..], n);
      if exists k :: 0 <= k < |ws| && ws[k].name == n {
        var k :| 0 <= k < |ws| && ws[k].name == n;
        if k > 0 { assert ws[1..][k - 1] == ws[k]; }
      }
      if exists k :: 0 <= k < |ws[1..]| && ws[1..][k].name == n {
        var k :| 0 <= k < |ws[1..]| && ws[1..][k].name == n;
        assert ws[k + 1] == ws[1..][k];
      }
    }
  }

  /** `running[w.name] = w` on an insertion-ordered dict: a known name keeps its place and takes the new value. */
  function Upsert(ws: seq<Workload>, w: Workload): (r: seq<Workload>)
    ensures Names(r) == Names(ws) + {w.name}
    ensures DistinctNames(ws) ==> DistinctNames(r)
    ensures w in r
    ensures DistinctNames(ws) && w.name in Names(ws) ==>
              |r| == |ws| && forall k :: 0 <= k < |ws| ==> r[k] == (if ws[k].name == w.name then w else ws[k])
    ensures w.name !in Names(ws) ==> r == ws + [w]
  {
    if ws == [] then
      assert [w][1..] == [];
      [w]
    else if ws[0].name == w.name then
      assert ([w] + ws[1..])[1..] == ws[1..];
      if DistinctNames(ws) then OthersNamedElse(ws); [w] + ws[1..] else [w] + ws[1..]
    else
      var rest := Upsert(ws[1..], w);
      assert ([ws[0]] + rest)[1..] == rest;
      UpsertBehind(ws, w, rest);
      [ws[0]] + rest
  }

  /** In a list of distinct names, no later workload shares the first one's name. */
  lemma OthersNamedElse(ws: seq<Workload>)
    requires ws != [] && DistinctNames(ws)
    ensures forall k :: 0 < k < |ws| ==> ws[k].name != ws[0].name
  {
    NamesMember(ws[1..], ws[0].name);
    assert forall k :: 0 < k < |ws| ==> ws[k] == ws[1..][k - 1];
  }

  /** The step of `Upsert` past a workload of another name, given what the tail's upsert `rest` is. */
  lemma UpsertBehind(ws: seq<Workload>, w: Workload, rest: seq<Workload>)
    requires ws != [] && ws[0].name != w.name
    requires DistinctNames(ws[1..]) && w.name in Names(ws[1..]) ==>
               |rest| == |ws[1..]| && forall k :: 0 <= k < |ws[1..]| ==> rest[k] == (if ws[1..][k].name == w.name then w else ws[1..][k])
    requires w.name !in Names(ws[1..]) ==> rest == ws[1..] + [w]
    ensures DistinctNames(ws) && w.name in Names(ws) ==>
              |[ws[0]] + rest| == |ws| && forall k :: 0 <= k < |ws| ==> ([ws[0]] + rest)[k] == (if ws[k].name == w.name then w else ws[k])
    ensures w.name !in Names(ws) ==> [ws[0]] + rest == ws + [w]
  {
    var tail := ws[1..];
    var r := [ws[0]] + rest;
    if w.name !in Names(ws) {
      assert rest == tail + [w];
      assert ws == [ws[0]] + tail;
    } else if DistinctNames(ws) {
      assert w.name in Names(tail) && DistinctNames(tail);
      forall k | 0 <= k < |ws| ensures r[k] == (if ws[k].name == w.name then w else ws[k]) {
        if k > 0 {
          assert r[k] == rest[k - 1];
          assert ws[k] == tail[k - 1];
        }
      }
    }
  }

  /** `running.get(n)`: the first workload named `n`. */
  function Lookup(ws: seq<Workload>, n: string): (r: Option<Workload>)
    ensures r.Some? <==> n in Names(ws)
    ensures r.Some? ==> r.value in ws && r.value.name == n
  {
    if ws == [] then None
    else if ws[0].name == n then Some(ws[0])
    else Lookup(ws[1..], n)
  }

  /** Assigning by name changes what that one name looks up to, and nothing else. */
  lemma {:induction false} UpsertLookup(ws: seq<Workload>, w: Workload, n: string)
    ensures Lookup(Upsert(ws, w), n) == (if n == w.name then Some(w) else Lookup(ws, n))
  {
    if ws != [] && ws[0].name != w.name {
      UpsertLookup(ws[1..], w, n);
    }
  }

  /** The workload parsed from the last entry whose machine name is `n`. */
  function LastMachine(entries: seq<map<string, string>>, n: string): (r: Option<Workload>)
    ensures r.Some? <==> n in MachineNames(entries)
    ensures r.Some? ==> r.value.name == n
  {
    if entries == [] then None
    else
      match LastMachine(entries[1..], n)
      case Some(w) => Some(w)
      case None =>
        if "machine" in entries[0] && entries[0]["machine"] == n then Some(ParseMachine(entries[0]).value) else None
  }

  /** The machine names the entries carry. */
  function MachineNames(entries: seq<map<string, string>>): set<string> {
    if entries == [] then {}
    else (if "machine" in entries[0] then {entries[0]["machine"]} else {}) + MachineNames(entries[1..])
  }

  /** Every entry carries a machine name. */
  predicate AllNamed(entries: seq<map<string, string>>) {
    forall k :: 0 <= k < |entries| ==> "machine" in entries[k]
  }

  /** The `for entry in raw` loop from the state `acc`: the first entry without a name raises. */
  function RunningFrom(acc: seq<Workload>, entries: seq<map<string, string>>): Result<seq<Workload>, string>
    decreases |entries|
  {
    if entries == [] then Success(acc)
    else
      match ParseMachine(entries[0])
      case Failure(e) => Failure(e)
      case Success(w) => RunningFrom(Upsert(acc, w), entries[1..])
  }

  /**
   * The loop raises exactly when some entry has no machine name; otherwise
   * the running workloads are keyed by name: one per machine name, and
   * nothing else.
   */
  lemma {:induction false} RunningKeyed(acc: seq<Workload>, entries: seq<map<string, string>>)
    requires DistinctNames(acc)
    decreases |entries|
    ensures RunningFrom(acc, entries).Failure? <==> !AllNamed(entries)
    ensures RunningFrom(acc, entries).Success? ==>
              DistinctNames(RunningFrom(acc, entries).value)
              && Names(RunningFrom(acc, entries).value) == Names(acc) + MachineNames(entries)
    ensures RunningFrom(acc, entries).Success? ==>
              forall n :: Lookup(RunningFrom(acc, entries).value, n) ==
                (if n in MachineNames(entries) then LastMachine(entries, n) else Lookup(acc, n))
  {
    RunningNames(acc, entries);
    RunningLatest(acc, entries);
  }

  /** Whether the loop raises, and the names of what it collects. */
  lemma {:induction false} RunningNames(acc: seq<Workload>, entries: seq<map<string, string>>)
    requires DistinctNames(acc)
    decreases |entries|
    ensures RunningFrom(acc, entries).Failure? <==> !AllNamed(entries)
    ensures RunningFrom(acc, entries).Success? ==>
              DistinctNames(RunningFrom(acc, entries).value)
              && Names(RunningFrom(acc, entries).value) == Names(acc) + MachineNames(entries)
  {
    if entries != [] {
      AllNamedCons(entries);
      if "machine" in entries[0] {
        RunningNames(Upsert(acc, ParseMachine(entries[0]).value), entries[1..]);
      }
    }
  }

  /** What each name looks up to once the loop is done: the last entry of that name wins. */
  lemma {:induction false} RunningLatest(acc: seq<Workload>, entries: seq<map<string, string>>)
    decreases |entries|
    ensures RunningFrom(acc, entries).Success? ==>
              forall n :: Lookup(RunningFrom(acc, entries).value, n) ==
                (if n in MachineNames(entries) then LastMachine(entries, n) else Lookup(acc, n))
  {
    if entries != [] && "machine" in entries[0] {
      var w := ParseMachine(entries[0]).value;
      var next := Upsert(acc, w);
      RunningLatest(next, entries[1..]);
      if RunningFrom(next, entries[1..]).Success? {
        LookupStep(acc, entries, w, RunningFrom(next, entries[1..]).value);
      }
    }
  }

  /** Every entry is named exactly when the first one is and every later one is. */
  lemma AllNamedCons(entries: seq<map<string, string>>)
    requires entries != []
    ensures AllNamed(entries) <==> "machine" in entries[0] && AllNamed(entries[1..])
  {
    var tail := entries[1..];
    if "machine" in entries[0] && AllNamed(tail) {
      forall k | 0 <= k < |entries| ensures "machine" in entries[k] {
        if k > 0 { assert entries[k] == tail[k - 1]; }
      }
    }
    if AllNamed(entries) {
      forall k | 0 <= k < |tail| ensures "machine" in tail[k] {
        assert tail[k] == entries[k + 1];
      }
    }
  }

  /** One loop step on what names look up to: the entry's workload `w` is assigned, then the tail's result `r` is reached. */
  lemma LookupStep(acc: seq<Workload>, entries: seq<map<string, string>>, w: Workload, r: seq<Workload>)
    requires entries != [] && ParseMachine(entries[0]) == Success(w)
    requires forall n :: Lookup(r, n) ==
               (if n in MachineNames(entries[1..]) then LastMachine(entries[1..], n) else Lookup(Upsert(acc, w), n))
    ensures forall n :: Lookup(r, n) ==
              (if n in MachineNames(entries) then LastMachine(entries, n) else Lookup(acc, n))
  {
    forall n ensures Lookup(r, n) == (if n in MachineNames(entries) then LastMachine(entries, n) else Lookup(acc, n)) {
      UpsertLookup(acc, w, n);
    }
  }

  /** The configured names: a failed or empty `nixos-container list` gives none, and a timeout is not caught. */
  function ConfiguredNames(a: Attempt<CommandResult>): Result<seq<string>, Raised> {
    match a
    case TimeoutError(m) => Failure(Timeout(m))
    case Done(r) =>
      if !r.Success() || r.stdout == "" then Success([]) else Success(NonBlank(SplitLines(r.stdout)))
  }

  /** The entry a configured but not running container gets. */
  function StoppedWorkload(name: string): Workload {
    Workload(name, "container", "nspawn", "stopped", [])
  }

  /** `[Workload(n, ..., state="stopped") for n in all_nixos_names if n not in running]`. */
  function Stopped(names: seq<string>, running: set<string>): (r: seq<Workload>)
    ensures forall k :: 0 <= k < |r| ==> r[k].name in names && r[k].name !in running && r[k] == StoppedWorkload(r[k].name)
    ensures forall n :: n in names && n !in running ==> StoppedWorkload(n) in r
  {
    if names == [] then []
    else (if names[0] in running then [] else [StoppedWorkload(names[0])]) + Stopped(names[1..], running)
  }

  /** A running container whose live-or-disk owner is `owner`. */
  predicate RunningOwned(w: Workload, owner: string, procs: Processes, files: Files) {
    w.IsRunning() && w.IsContainer() && GetContainerOwner(w.name, procs, files) == Some(owner)
  }

  /** A container in any other state whose on-disk owner is `owner`. */
  predicate StoppedOwned(w: Workload, owner: string, files: Files) {
    !w.IsRunning() && w.IsContainer() && ReadOwnerFromSystemPath(w.name, files) == Some(owner)
  }

  /** `[w for w in ws if keep(w)]`. */
  function KeepIf(ws: seq<Workload>, keep: Workload -> bool): (r: seq<Workload>)
    ensures |r| <= |ws|
  {
    if ws == [] then []
    else (if keep(ws[0]) then [ws[0]] else []) + KeepIf(ws[1..], keep)
  }

  /** A workload is kept exactly when it is in the input and passes the test. */
  lemma {:induction false} KeepIfMembers(ws: seq<Workload>, keep: Workload -> bool)
    ensures forall w :: w in KeepIf(ws, keep) <==> w in ws && keep(w)
  {
    if ws != [] {
      KeepIfMembers(ws[1..], keep);
      assert ws == [ws[0]] + ws[1..];
    }
  }

  /** Filtering one more workload appends it exactly when it passes. */
  lemma {:induction false} KeepIfSnoc(ws: seq<Workload>, w: Workload, keep: Workload -> bool)
    ensures KeepIf(ws + [w], keep) == KeepIf(ws, keep) + (if keep(w) then [w] else [])
  {
    if ws == [] {
      assert [w][1..] == [];
    } else {
      var t := ws + [w];
      assert t[0] == ws[0] && t[1..] == ws[1..] + [w];
      KeepIfSnoc(ws[1..], w, keep);
      var head := if keep(ws[0]) then [ws[0]] else [];
      var last := if keep(w) then [w] else [];
      assert KeepIf(t, keep) == head + (KeepIf(ws[1..], keep) + last);
      assert KeepIf(ws, keep) == head + KeepIf(ws[1..], keep);
    }
  }

  /** `[w for w in ws if RunningOwned(w)]`. */
  function KeepRunningOwned(ws: seq<Workload>, owner: string, procs: Processes, files: Files): seq<Workload> {
    KeepIf(ws, w => RunningOwned(w, owner, procs, files))
  }

  /** `[w for w in ws if StoppedOwned(w)]`. */
  function KeepStoppedOwned(ws: seq<Workload>, owner: string, files: Files): seq<Workload> {
    KeepIf(ws, w => StoppedOwned(w, owner, files))
  }

  /** A workload is kept exactly when it is in the input and a running container of `owner`. */
  lemma KeepRunningOwnedMembers(ws: seq<Workload>, owner: string, procs: Processes, files: Files)
    ensures forall w :: w in KeepRunningOwned(ws, owner, procs, files) <==> w in ws && RunningOwned(w, owner, procs, files)
  {
    KeepIfMembers(ws, w => RunningOwned(w, owner, procs, files));
  }

  /** A workload is kept exactly when it is in the input and a stopped container of `owner`. */
  lemma KeepStoppedOwnedMembers(ws: seq<Workload>, owner: string, files: Files)
    ensures forall w :: w in KeepStoppedOwned(ws, owner, files) <==> w in ws && StoppedOwned(w, owner, files)
  {
    KeepIfMembers(ws, w => StoppedOwned(w, owner, files));
  }

  /**
   * The owner filter: running containers whose live-or-disk owner is
   * `owner`, then the other containers whose on-disk owner is `owner`.
   */
  function OwnedBy(ws: seq<Workload>, owner: string, procs: Processes, files: Files): seq<Workload> {
    KeepRunningOwned(ws, owner, procs, files) + KeepStoppedOwned(ws, owner, files)
  }

  /** `list(running.values()) + stopped`. */
  function Merged(running: seq<Workload>, names: seq<string>): seq<Workload> {
    running + Stopped(names, Names(running))
  }

  /** The running workloads, or why the listing failed. */
  function RunningOf(procs: Processes, decode: string -> Decoded): Result<seq<Workload>, Raised> {
    match Run(procs, MachinectlArgv(), MACHINECTL_TIMEOUT)
    case TimeoutError(_) => Failure(WorkloadError("machinectl timed out after 15s — is systemd-machined responsive?"))
    case Done(r) =>
      if !r.Success() then Failure(WorkloadError("machinectl failed (exit " + IntToString(r.returncode) + "): " + r.stderr))
      else
        match decode(r.stdout)
        case NotJson(e) => Failure(WorkloadError("Failed to parse machinectl output: " + e))
        case NotAList(t) => Failure(WorkloadError("Expected a list from machinectl, got " + t))
        case JsonList(entries) =>
          match RunningFrom([], entries)
          case Failure(e) => Failure(WorkloadError(e))
          case Success(ws) => Success(ws)
  }

  /** `list_workloads(owner=owner)`. */
  function ListWorkloadsOf(owner: Option<string>, procs: Processes, files: Files, decode: string -> Decoded): Result<seq<Workload>, Raised> {
    match RunningOf(procs, decode)
    case Failure(e) => Failure(e)
    case Success(running) =>
      match ConfiguredNames(Run(procs, ListArgv(), LIST_TIMEOUT))
      case Failure(e) => Failure(e)
      case Success(names) =>
        var all := Merged(running, names);
        if owner.None? then Success(all) else Success(OwnedBy(all, owner.value, procs, files))
  }

  /** The `for entry in raw: running[w.name] = w` loop. */
  method CollectRunning(entries: seq<map<string, string>>) returns (r: Result<seq<Workload>, string>)
    ensures r == RunningFrom([], entries)
  {
    var running: seq<Workload> := [];
    var i := 0;
    while i < |entries|
      invariant 0 <= i <= |entries|
      invariant RunningFrom(running, entries[i..]) == RunningFrom([], entries)
    {
      assert entries[i..][1..] == entries[i + 1..];
      var w := ParseMachine(entries[i]);
      if w.Failure? {
        return Failure(w.error);
      }
      running := Upsert(running, w.value);
      i := i + 1;
    }
    assert entries[i..] == [];
    return Success(running);
  }

  /** The loop over the running containers and their resolved owners. */
  method FilterRunning(all: seq<Workload>, owner: string, procs: Processes, files: Files) returns (filtered: seq<Workload>)
    ensures filtered == KeepRunningOwned(all, owner, procs, files)
  {
    filtered := [];
    var i := 0;
    while i < |all|
      invariant 0 <= i <= |all|
      invariant filtered == KeepRunningOwned(all[..i], owner, procs, files)
    {
      var w := all[i];
      assert all[..i + 1] == all[..i] + [w];
      KeepIfSnoc(all[..i], w, v => RunningOwned(v, owner, procs, files));
      if RunningOwned(w, owner, procs, files) {
        filtered := filtered + [w];
      }
      i := i + 1;
    }
    assert all[..i] == all;
  }

  /** The loop over the other containers and their on-disk owners. */
  method FilterStopped(all: seq<Workload>, owner: string, files: Files) returns (filtered: seq<Workload>)
    ensures filtered == KeepStoppedOwned(all, owner, files)
  {
    filtered := [];
    var i := 0;
    while i < |all|
      invariant 0 <= i <= |all|
      invariant filtered == KeepStoppedOwned(all[..i], owner, files)
    {
      var w := all[i];
      assert all[..i + 1] == all[..i] + [w];
      KeepIfSnoc(all[..i], w, v => StoppedOwned(v, owner, files));
      if StoppedOwned(w, owner, files) {
        filtered := filtered + [w];
      }
      i := i + 1;
    }
    assert all[..i] == all;
  }

  /** `list_workloads(owner=owner)`. */
  method ListWorkloads(owner: Option<string>, procs: Processes, files: Files, decode: string -> Decoded)
    returns (r: Result<seq<Workload>, Raised>)
    ensures r == ListWorkloadsOf(owner, procs, files, decode)
  {
    var mres := Run(procs, MachinectlArgv(), MACHINECTL_TIMEOUT);
    if mres.TimeoutError? {
      return Failure(WorkloadError("machinectl timed out after 15s — is systemd-machined responsive?"));
    }
    if !mres.value.Success() {
      return Failure(WorkloadError("machinectl failed (exit " + IntToString(mres.value.returncode) + "): " + mres.value.stderr));
    }
    var raw := decode(mres.value.stdout);
    if raw.NotJson? {
      return Failure(WorkloadError("Failed to parse machinectl output: " + raw.error));
    }
    if raw.NotAList? {
      return Failure(WorkloadError("Expected a list from machinectl, got " + raw.typeName));
    }
    var running := CollectRunning(raw.entries);
    if running.Failure? {
      return Failure(WorkloadError(running.error));
    }
    assert RunningOf(procs, decode) == Success(running.value);
    var names := ConfiguredNames(Run(procs, ListArgv(), LIST_TIMEOUT));
    if names.Failure? {
      return Failure(names.error);
    }
    var all := running.value + Stopped(names.value, Names(running.value));
    assert all == Merged(running.value, names.value);
    if owner.None? {
      return Success(all);
    }
    var fromRunning := FilterRunning(all, owner.value, procs, files);
    var fromStopped := FilterStopped(all, owner.value, files);
    return Success(fromRunning + fromStopped);
  }

  /**
   * The unfiltered listing: the running workloads, one per machine name,
   * then every configured container that is not running, as a stopped
   * nspawn container; no name is both running and stopped.
   */
  lemma ListingMerge(entries: seq<map<string, string>>, running: seq<Workload>, names: seq<string>)
    requires RunningFrom([], entries) == Success(running)
    ensures DistinctNames(running) && Names(running) == MachineNames(entries)
    ensures var all := Merged(running, names);
            && all[..|running|] == running
            && (forall k :: |running| <= k < |all| ==>
                  all[k] == StoppedWorkload(all[k].name) && all[k].name in names && all[k].name !in Names(running))
            && (forall n :: n in names && n !in Names(running) ==> StoppedWorkload(n) in all)
  {
    RunningKeyed([], entries);
    MergedShape(running, names);
  }

  lemma MergedShape(running: seq<Workload>, names: seq<string>)
    ensures var all := Merged(running, names);
            && all[..|running|] == running
            && (forall k :: |running| <= k < |all| ==>
                  all[k] == StoppedWorkload(all[k].name) && all[k].name in names && all[k].name !in Names(running))
            && (forall n :: n in names && n !in Names(running) ==> StoppedWorkload(n) in all)
  {
    var stopped := Stopped(names, Names(running));
    var all := running + stopped;
    assert all[..|running|] == running;
    assert forall k :: |running| <= k < |all| ==> all[k] == stopped[k - |running|];
  }

  /** When `nixos-container list` fails or prints nothing, only the running workloads are listed. */
  lemma ListFailureKeepsRunning(running: seq<Workload>, a: Attempt<CommandResult>)
    requires a.Done? && (!a.value.Success() || a.value.stdout == "")
    ensures ConfiguredNames(a) == Success([])
    ensures Merged(running, []) == running
  {
    assert running + [] == running;
  }

  /**
   * `machinectl` timing out, failing, printing something that is not JSON
   * or a JSON value that is not a list raises `WorkloadError`, with or
   * without an owner filter.
   */
  lemma MachinectlErrors(owner: Option<string>, procs: Processes, files: Files, decode: string -> Decoded)
    requires var m := Run(procs, MachinectlArgv(), MACHINECTL_TIMEOUT);
             m.TimeoutError? || !m.value.Success() || !decode(m.value.stdout).JsonList?
    ensures ListWorkloadsOf(owner, procs, files, decode).Failure?
    ensures ListWorkloadsOf(owner, procs, files, decode).error.WorkloadError?
  {
  }

  /**
   * The filtered listing holds exactly the containers the owner owns:
   * running ones by the live-or-disk lookup, others by the disk lookup,
   * running ones first; VMs and workloads without a resolved owner never
   * appear.
   */
  lemma FilterOwned(owner: string, all: seq<Workload>, procs: Processes, files: Files, w: Workload)
    ensures var mine := OwnedBy(all, owner, procs, files);
            && (w in mine <==>
                  w in all && w.IsContainer()
                  && (if w.IsRunning() then GetContainerOwner(w.name, procs, files) else ReadOwnerFromSystemPath(w.name, files)) == Some(owner))
            && (w in mine ==> !w.IsVm())
    ensures var mine := OwnedBy(all, owner, procs, files);
            var k := |KeepRunningOwned(all, owner, procs, files)|;
            && (forall i :: 0 <= i < k ==> mine[i].IsRunning())
            && (forall i :: k <= i < |mine| ==> !mine[i].IsRunning())
  {
    var a := KeepRunningOwned(all, owner, procs, files);
    var b := KeepStoppedOwned(all, owner, files);
    KeepRunningOwnedMembers(all, owner, procs, files);
    KeepStoppedOwnedMembers(all, owner, files);
    OwnedMembers(a, b, all, owner, procs, files, w);
    RunningBeforeStopped(a, b);
  }

  lemma OwnedMembers(a: seq<Workload>, b: seq<Workload>, all: seq<Workload>, owner: string, procs: Processes, files: Files, w: Workload)
    requires forall v :: v in a <==> v in all && RunningOwned(v, owner, procs, files)
    requires forall v :: v in b <==> v in all && StoppedOwned(v, owner, files)
    ensures w in a + b <==>
              w in all && w.IsContainer()
              && (if w.IsRunning() then GetContainerOwner(w.name, procs, files) else ReadOwnerFromSystemPath(w.name, files)) == Some(owner)
    ensures w in a + b ==> !w.IsVm()
    ensures forall v :: v in a ==> v.IsRunning()
    ensures forall v :: v in b ==> !v.IsRunning()
  {
  }

  lemma RunningBeforeStopped(a: seq<Workload>, b: seq<Workload>)
    requires forall v :: v in a ==> v.IsRunning()
    requires forall v :: v in b ==> !v.IsRunning()
    ensures forall i :: 0 <= i < |a| ==> (a + b)[i].IsRunning()
    ensures forall i :: |a| <= i < |a + b| ==> !(a + b)[i].IsRunning()
  {
    forall i | 0 <= i < |a|
      ensures (a + b)[i].IsRunning()
    {
      assert (a + b)[i] == a[i] && a[i] in a;
    }
    forall i | |a| <= i < |a + b|
      ensures !(a + b)[i].IsRunning()
    {
      assert (a + b)[i] == b[i - |a|] && b[i - |a|] in b;
    }
  }
}
