/**
 * `agent/tools/diagnostics.py`: the fixed, read-only health and status
 * queries the agent may run.  Each command's answer comes from the
 * `Processes` oracle; a timed-out command is an `Attempt` that did not finish.
 */
module Diagnostics {
  import opened Common
  import opened Text
  import opened Cli

  const DEFAULT_LOG_LINES: int := 50
  const MAX_LOG_LINES: int := 200
  const DIAG_TIMEOUT: nat := 15

  /** `DiagnosticResult`. */
  datatype DiagnosticResult = DiagnosticResult(success: bool, output: string, error: Option<string>)

  // ------------------------------------------------------------ check_host_health

  /** One line of the checklist and whether that check passed. */
  datatype Check = Check(line: string, ok: bool)

  /** Every checklist line opens with one of these two marks. */
  const OK_MARK := "OK: "
  const FAIL_MARK := "FAIL: "

  function WhichArgv(): seq<string> {
    ["which", "extra-container"]
  }

  function MachinesArgv(): seq<string> {
    ["machinectl", "list", "--no-pager"]
  }

  function TemplateArgv(): seq<string> {
    ["systemctl", "list-unit-files", "container@.service", "--no-pager"]
  }

  function ZfsVersionArgv(): seq<string> {
    ["zfs", "version"]
  }

  /** 1. Is `extra-container` on the PATH?  The first line of `which` names where. */
  function ExtraContainerCheck(a: Attempt<CommandResult>): (c: Check)
    ensures c.ok <==> a.Done? && a.value.Success()
  {
    if a.TimeoutError? then Check(FAIL_MARK + "extra-container check timed out", false)
    else if a.value.Success() then Check(OK_MARK + "extra-container found at " + BeforeFirst(a.value.stdout, '\n'), true)
    else Check(FAIL_MARK + "extra-container not found on PATH", false)
  }

  /** 2. Does `machinectl` answer? */
  function MachinectlCheck(a: Attempt<CommandResult>): (c: Check)
    ensures c.ok <==> a.Done? && a.value.Success()
  {
    if a.TimeoutError? then Check(FAIL_MARK + "machinectl timed out — systemd-machined may be stuck", false)
    else if a.value.Success() then Check(OK_MARK + "machinectl is responsive", true)
    else Check(FAIL_MARK + "machinectl returned exit " + IntToString(a.value.returncode), false)
  }

  /** 3. Is the `container@.service` template installed?  Success alone is not enough: the listing must name it. */
  function TemplateCheck(a: Attempt<CommandResult>): (c: Check)
    ensures c.ok <==> a.Done? && a.value.Success() && Contains(a.value.stdout, "container@.service")
  {
    if a.TimeoutError? then Check(FAIL_MARK + "systemctl check timed out", false)
    else if a.value.Success() && Contains(a.value.stdout, "container@.service") then
      Check(OK_MARK + "container@.service template found", true)
    else Check(FAIL_MARK + "container@.service template not found — is boot.enableContainers = true set?", false)
  }

  /** 4. Does `zfs version` answer?  The first line of its output, or "unknown" when it printed nothing. */
  function ZfsCheck(a: Attempt<CommandResult>): (c: Check)
    ensures c.ok <==> a.Done? && a.value.Success()
  {
    if a.TimeoutError? then Check(FAIL_MARK + "zfs version check timed out", false)
    else if a.value.Success() then
      var version := if a.value.stdout != "" then BeforeFirst(a.value.stdout, '\n') else "unknown";
      Check(OK_MARK + "ZFS available (" + version + ")", true)
    else Check(FAIL_MARK + "zfs command failed — ZFS may not be installed or loaded", false)
  }

  /** The four checks, in the order the source runs them, on the four commands' outcomes. */
  function ChecksFrom(which: Attempt<CommandResult>, machines: Attempt<CommandResult>,
                      template: Attempt<CommandResult>, zfs: Attempt<CommandResult>): (cs: seq<Check>)
    ensures |cs| == 4
  {
    [ExtraContainerCheck(which), MachinectlCheck(machines), TemplateCheck(template), ZfsCheck(zfs)]
  }

  function HealthChecks(procs: Processes): seq<Check> {
    ChecksFrom(Run(procs, WhichArgv(), DIAG_TIMEOUT), Run(procs, MachinesArgv(), DIAG_TIMEOUT),
               Run(procs, TemplateArgv(), DIAG_TIMEOUT), Run(procs, ZfsVersionArgv(), DIAG_TIMEOUT))
  }

  function CheckLines(cs: seq<Check>): (ls: seq<string>)
    ensures |ls| == |cs| && forall k :: 0 <= k < |cs| ==> ls[k] == cs[k].line
  {
    if cs == [] then [] else [cs[0].line] + CheckLines(cs[1..])
  }

  predicate AllOk(cs: seq<Check>) {
    forall k :: 0 <= k < |cs| ==> cs[k].ok
  }

  function HealthSummary(ok: bool): string {
    if ok then "All checks passed." else "Some checks failed — see details above."
  }

  /** The result reported for a list of checks: their lines, a blank line, then the verdict. */
  function HealthReport(cs: seq<Check>): DiagnosticResult {
    DiagnosticResult(AllOk(cs), Join(CheckLines(cs), "\n") + "\n\n" + HealthSummary(AllOk(cs)), None)
  }

  /** What `check_host_health()` returns. */
  function HostHealthOf(procs: Processes): DiagnosticResult {
    HealthReport(HealthChecks(procs))
  }

  lemma FourChecks(cs: seq<Check>)
    requires |cs| == 4
    ensures CheckLines(cs) == [cs[0].line, cs[1].line, cs[2].line, cs[3].line]
    ensures AllOk(cs) <==> cs[0].ok && cs[1].ok && cs[2].ok && cs[3].ok
  {
  }

  /** The rest of `check_host_health()` once the four checks are in: one line each, `all_ok` cleared on any failure. */
  method Tally(c1: Check, c2: Check, c3: Check, c4: Check) returns (r: DiagnosticResult)
    ensures r == HealthReport([c1, c2, c3, c4])
  {
    var checks: seq<string> := [];
    var allOk := true;
    checks := checks + [c1.line];
    if !c1.ok {
      allOk := false;
    }
    checks := checks + [c2.line];
    if !c2.ok {
      allOk := false;
    }
    checks := checks + [c3.line];
    if !c3.ok {
      allOk := false;
    }
    checks := checks + [c4.line];
    if !c4.ok {
      allOk := false;
    }
    assert checks == [c1.line, c2.line, c3.line, c4.line];
    FourChecks([c1, c2, c3, c4]);
    var output := Join(checks, "\n");
    var summary := if allOk then "All checks passed." else "Some checks failed — see details above.";
    r := DiagnosticResult(allOk, output + "\n\n" + summary, None);
  }

  /** `check_host_health()`: run the four checks in order and tally them. */
  method CheckHostHealth(procs: Processes) returns (r: DiagnosticResult)
    ensures r == HostHealthOf(procs)
  {
    var c1 := ExtraContainerCheck(Run(procs, WhichArgv(), DIAG_TIMEOUT));
    var c2 := MachinectlCheck(Run(procs, MachinesArgv(), DIAG_TIMEOUT));
    var c3 := TemplateCheck(Run(procs, TemplateArgv(), DIAG_TIMEOUT));
    var c4 := ZfsCheck(Run(procs, ZfsVersionArgv(), DIAG_TIMEOUT));
    r := Tally(c1, c2, c3, c4);
  }

  /** The host is healthy exactly when all four commands finish successfully and the unit listing names the template. */
  lemma HostHealthSuccess(procs: Processes)
    ensures var which, machines, template, zfs :=
              Run(procs, WhichArgv(), DIAG_TIMEOUT), Run(procs, MachinesArgv(), DIAG_TIMEOUT),
              Run(procs, TemplateArgv(), DIAG_TIMEOUT), Run(procs, ZfsVersionArgv(), DIAG_TIMEOUT);
            HostHealthOf(procs).success <==>
              (which.Done? && which.value.Success()) && (machines.Done? && machines.value.Success()) &&
              (template.Done? && template.value.Success() && Contains(template.value.stdout, "container@.service")) &&
              (zfs.Done? && zfs.value.Success())
  {
    FourChecks(HealthChecks(procs));
  }

  /** A checklist line opens with the OK mark when its check passed and with the FAIL mark when it did not. */
  predicate Marked(c: Check) {
    (c.ok ==> StartsWith(c.line, OK_MARK)) && (!c.ok ==> StartsWith(c.line, FAIL_MARK))
  }

  /** On a marked line, the mark alone tells whether the check passed. */
  lemma MarkTellsOutcome(c: Check)
    requires Marked(c)
    ensures StartsWith(c.line, OK_MARK) <==> c.ok
    ensures StartsWith(c.line, FAIL_MARK) <==> !c.ok
  {
    if c.ok {
      assert c.line[0] == 'O';
      DiffersAt(c.line, FAIL_MARK, 0);
    } else {
      assert c.line[0] == 'F';
      DiffersAt(c.line, OK_MARK, 0);
    }
  }

  lemma MarkedLine(mark: string, rest: string, ok: bool)
    requires mark == (if ok then OK_MARK else FAIL_MARK)
    ensures Marked(Check(mark + rest, ok))
  {
    StartsWithPrefix(mark, rest);
  }

  lemma ExtraContainerMarked(a: Attempt<CommandResult>)
    ensures Marked(ExtraContainerCheck(a))
  {
    if a.TimeoutError? {
      MarkedLine(FAIL_MARK, "extra-container check timed out", false);
    } else if a.value.Success() {
      MarkedLine(OK_MARK, "extra-container found at " + BeforeFirst(a.value.stdout, '\n'), true);
    } else {
      MarkedLine(FAIL_MARK, "extra-container not found on PATH", false);
    }
  }

  lemma MachinectlMarked(a: Attempt<CommandResult>)
    ensures Marked(MachinectlCheck(a))
  {
    if a.TimeoutError? {
      MarkedLine(FAIL_MARK, "machinectl timed out — systemd-machined may be stuck", false);
    } else if a.value.Success() {
      MarkedLine(OK_MARK, "machinectl is responsive", true);
    } else {
      MarkedLine(FAIL_MARK, "machinectl returned exit " + IntToString(a.value.returncode), false);
    }
  }

  lemma TemplateMarked(a: Attempt<CommandResult>)
    ensures Marked(TemplateCheck(a))
  {
    if a.TimeoutError? {
      MarkedLine(FAIL_MARK, "systemctl check timed out", false);
    } else if a.value.Success() && Contains(a.value.stdout, "container@.service") {
      MarkedLine(OK_MARK, "container@.service template found", true);
    } else {
      MarkedLine(FAIL_MARK, "container@.service template not found — is boot.enableContainers = true set?", false);
    }
  }

  lemma ZfsMarked(a: Attempt<CommandResult>)
    ensures Marked(ZfsCheck(a))
  {
    if a.TimeoutError? {
      MarkedLine(FAIL_MARK, "zfs version check timed out", false);
    } else if a.value.Success() {
      var version := if a.value.stdout != "" then BeforeFirst(a.value.stdout, '\n') else "unknown";
      MarkedLine(OK_MARK, "ZFS available (" + version + ")", true);
    } else {
      MarkedLine(FAIL_MARK, "zfs command failed — ZFS may not be installed or loaded", false);
    }
  }

  /** Every line of the checklist carries the mark of its outcome. */
  lemma ChecksMarked(which: Attempt<CommandResult>, machines: Attempt<CommandResult>,
                     template: Attempt<CommandResult>, zfs: Attempt<CommandResult>)
    ensures forall k :: 0 <= k < 4 ==> Marked(ChecksFrom(which, machines, template, zfs)[k])
  {
    ExtraContainerMarked(which);
    MachinectlMarked(machines);
    TemplateMarked(template);
    ZfsMarked(zfs);
  }

  /** A report on four checks is their four lines in order, a blank line, and the verdict. */
  lemma ReportOutput(cs: seq<Check>)
    requires |cs| == 4
    ensures HealthReport(cs).output ==
              cs[0].line + "\n" + cs[1].line + "\n" + cs[2].line + "\n" + cs[3].line + "\n\n" +
              HealthSummary(HealthReport(cs).success)
  {
    FourChecks(cs);
    var ls := [cs[0].line, cs[1].line, cs[2].line, cs[3].line];
    assert ls[1..][1..][1..] == [cs[3].line];
    assert ls[1..][1..] == [cs[2].line, cs[3].line];
    assert ls[1..] == [cs[1].line, cs[2].line, cs[3].line];
    assert Join(ls[1..][1..][1..], "\n") == cs[3].line;
    assert Join(ls[1..][1..], "\n") == cs[2].line + "\n" + cs[3].line;
    assert Join(ls[1..], "\n") == cs[1].line + "\n" + (cs[2].line + "\n" + cs[3].line);
    var summary := HealthSummary(HealthReport(cs).success);
    calc {
      HealthReport(cs).output;
      Join(ls, "\n") + "\n\n" + summary;
      cs[0].line + "\n" + (cs[1].line + "\n" + (cs[2].line + "\n" + cs[3].line)) + "\n\n" + summary;
      { ConcatAssoc4(cs[0].line, cs[1].line, cs[2].line, cs[3].line, "\n"); }
      cs[0].line + "\n" + cs[1].line + "\n" + cs[2].line + "\n" + cs[3].line + "\n\n" + summary;
    }
  }

  /** Regrouping four lines joined by a separator, stated on its own so `ReportOutput` needs no string reasoning for it. */
  lemma ConcatAssoc4(a: string, b: string, c: string, d: string, sep: string)
    ensures a + sep + (b + sep + (c + sep + d)) == a + sep + b + sep + c + sep + d
  {
  }

  // ------------------------------------------------------------ get_container_logs

  /** `min(lines, 200)`: the number of journal lines actually asked for. */
  function LogCount(lines: int): (n: int)
    ensures n <= MAX_LOG_LINES
    ensures n == lines || n == MAX_LOG_LINES
    ensures lines <= MAX_LOG_LINES ==> n == lines
  {
    if lines < MAX_LOG_LINES then lines else MAX_LOG_LINES
  }

  /** `journalctl -M<name>`: the container's own journal. */
  function MachineJournalArgv(name: string, n: int): seq<string> {
    ["journalctl", "-M" + name, "-n" + IntToString(n), "--no-pager", "-o", "short-iso"]
  }

  /** `journalctl -u container@<name>.service`: the host's journal of the container's unit. */
  function HostJournalArgv(name: string, n: int): seq<string> {
    ["journalctl", "-u", "container@" + name + ".service", "-n" + IntToString(n), "--no-pager", "-o", "short-iso"]
  }

  /** The machine journal is good enough only when it succeeded and printed something. */
  predicate Answered(a: Attempt<CommandResult>) {
    a.Done? && a.value.Success() && a.value.stdout != ""
  }

  /** The fallback chain of `get_container_logs`, on the outcomes of its two commands. */
  function LogsFrom(name: string, machine: Attempt<CommandResult>, host: Attempt<CommandResult>): (r: DiagnosticResult)
    ensures r.success <==> r.error.None?
    ensures !r.success ==> r.output == ""
    ensures r.success <==> Answered(machine) || (host.Done? && host.value.Success())
  {
    if Answered(machine) then DiagnosticResult(true, machine.value.stdout, None)
    else if host.TimeoutError? then DiagnosticResult(false, "", Some("journalctl timed out querying logs for '" + name + "'."))
    else if host.value.Success() && host.value.stdout != "" then
      DiagnosticResult(true, "(from host journal for container@" + name + ".service)\n" + host.value.stdout, None)
    else if host.value.Success() then
      DiagnosticResult(true, "No log entries found for container '" + name + "'.", None)
    else DiagnosticResult(false, "", Some("Could not retrieve logs for container '" + name + "': " + host.value.stderr))
  }

  /** `get_container_logs(name, lines)`. */
  function ContainerLogs(name: string, lines: int, procs: Processes): DiagnosticResult {
    var n := LogCount(lines);
    LogsFrom(name, Run(procs, MachineJournalArgv(name, n), DIAG_TIMEOUT), Run(procs, HostJournalArgv(name, n), DIAG_TIMEOUT))
  }

  /** A machine journal with entries is returned as it is, whatever the host journal would have said. */
  lemma LogsPreferMachine(name: string, machine: Attempt<CommandResult>, host: Attempt<CommandResult>)
    requires Answered(machine)
    ensures LogsFrom(name, machine, host) == DiagnosticResult(true, machine.value.stdout, None)
  {
  }

  /** Otherwise the answer depends on the host journal alone: an empty or failed machine journal is passed over. */
  lemma LogsFallBack(name: string, m1: Attempt<CommandResult>, m2: Attempt<CommandResult>, host: Attempt<CommandResult>)
    requires !Answered(m1) && !Answered(m2)
    ensures LogsFrom(name, m1, host) == LogsFrom(name, m2, host)
  {
  }

  /** The host journal's cases once the machine journal is passed over. */
  lemma LogsFromHost(name: string, machine: Attempt<CommandResult>, host: Attempt<CommandResult>)
    requires !Answered(machine)
    ensures var r := LogsFrom(name, machine, host);
            (host.TimeoutError? ==> r.error == Some("journalctl timed out querying logs for '" + name + "'.")) &&
            (Answered(host) ==> r.output == "(from host journal for container@" + name + ".service)\n" + host.value.stdout) &&
            (host.Done? && host.value.Success() && host.value.stdout == "" ==>
               r.output == "No log entries found for container '" + name + "'.") &&
            (host.Done? && !host.value.Success() ==>
               r.error == Some("Could not retrieve logs for container '" + name + "': " + host.value.stderr))
  {
  }

  /** Both journal queries ask for the capped line count: at most 200 lines, and the default of 50 is left alone. */
  lemma LogsLineCap(name: string, lines: int)
    ensures MachineJournalArgv(name, LogCount(lines))[2] == "-n" + IntToString(if lines < 200 then lines else 200)
    ensures HostJournalArgv(name, LogCount(lines))[3] == "-n" + IntToString(if lines < 200 then lines else 200)
    ensures LogCount(DEFAULT_LOG_LINES) == 50
  {
  }

  // ------------------------------------------------------------ get_container_status

  function MachineStatusArgv(name: string): seq<string> {
    ["machinectl", "status", name, "--no-pager"]
  }

  function UnitStatusArgv(name: string): seq<string> {
    ["systemctl", "status", "container@" + name + ".service", "--no-pager", "-l"]
  }

  /** `result.stdout or result.stderr`. */
  function StatusText(c: CommandResult): string {
    OrElse(c.stdout, c.stderr)
  }

  /** The fallback chain of `get_container_status`, on the outcomes of its two commands. */
  function StatusFrom(name: string, machine: Attempt<CommandResult>, unit: Attempt<CommandResult>): (r: DiagnosticResult)
    ensures r.success <==> r.error.None?
    ensures !r.success ==> r.output == ""
    ensures r.success <==> (machine.Done? && machine.value.Success()) || (unit.Done? && StatusText(unit.value) != "")
  {
    if machine.Done? && machine.value.Success() then DiagnosticResult(true, machine.value.stdout, None)
    else if unit.TimeoutError? then DiagnosticResult(false, "", Some("Status query timed out for container '" + name + "'."))
    else if StatusText(unit.value) != "" then DiagnosticResult(true, StatusText(unit.value), None)
    else DiagnosticResult(false, "", Some("Container '" + name + "' not found in machinectl or systemd."))
  }

  /** `get_container_status(name)`. */
  function ContainerStatus(name: string, procs: Processes): DiagnosticResult {
    StatusFrom(name, Run(procs, MachineStatusArgv(name), DIAG_TIMEOUT), Run(procs, UnitStatusArgv(name), DIAG_TIMEOUT))
  }

  /** The unit's status is reported whenever it printed anything, whatever its exit code (an inactive unit exits 3). */
  lemma StatusAnyExitCode(name: string, machine: Attempt<CommandResult>, unit: CommandResult)
    requires !(machine.Done? && machine.value.Success())
    ensures var r := StatusFrom(name, machine, Done(unit));
            (unit.stdout != "" ==> r == DiagnosticResult(true, unit.stdout, None)) &&
            (unit.stdout == "" && unit.stderr != "" ==> r == DiagnosticResult(true, unit.stderr, None)) &&
            (unit.stdout == "" && unit.stderr == "" ==>
               r.error == Some("Container '" + name + "' not found in machinectl or systemd."))
  {
  }

  // ------------------------------------------------------------ get_tailscale_status

  /** `name or "host"`. */
  function TailscaleTarget(name: Option<string>): (t: string)
    ensures Given(name) ==> t == name.value
    ensures !Given(name) ==> t == "host"
  {
    if Given(name) then name.value else "host"
  }

  function TailscaleStatusArgv(name: Option<string>): seq<string> {
    if Given(name) then ["nixos-container", "run", name.value, "--", "tailscale", "status"]
    else ["tailscale", "status"]
  }

  /** `result.stderr or result.stdout or "No output"`. */
  function FailureText(c: CommandResult): (t: string)
    ensures t != ""
  {
    OrElse(OrElse(c.stderr, c.stdout), "No output")
  }

  /** What `get_tailscale_status` makes of its one command. */
  function TailscaleFrom(target: string, a: Attempt<CommandResult>): (r: DiagnosticResult)
    ensures r.success <==> a.Done? && a.value.Success()
    ensures r.success <==> r.error.None?
    ensures a.Done? ==> r.output != ""
  {
    if a.TimeoutError? then DiagnosticResult(false, "", Some("Tailscale status query timed out for " + target + "."))
    else if a.value.Success() then DiagnosticResult(true, OrElse(a.value.stdout, "(no output)"), None)
    else
      var errorOutput := FailureText(a.value);
      DiagnosticResult(false, errorOutput, Some("Tailscale status query failed for " + target + ": " + errorOutput))
  }

  /** `get_tailscale_status(name)`. */
  function TailscaleStatus(name: Option<string>, procs: Processes): DiagnosticResult {
    TailscaleFrom(TailscaleTarget(name), Run(procs, TailscaleStatusArgv(name), DIAG_TIMEOUT))
  }

  /** No name and an empty name both mean the host: the same command and the same answer. */
  lemma TailscaleEmptyNameIsHost(procs: Processes)
    ensures TailscaleStatus(Some(""), procs) == TailscaleStatus(None, procs)
    ensures TailscaleStatusArgv(None) == ["tailscale", "status"]
  {
  }

  /** A failed query reports stderr, else stdout, else "No output", and the error message ends with that same text. */
  lemma TailscaleFailureOutput(target: string, c: CommandResult)
    requires !c.Success()
    ensures var r := TailscaleFrom(target, Done(c));
            (c.stderr != "" ==> r.output == c.stderr) &&
            (c.stderr == "" && c.stdout != "" ==> r.output == c.stdout) &&
            (c.stderr == "" && c.stdout == "" ==> r.output == "No output") &&
            r.error == Some("Tailscale status query failed for " + target + ": " + r.output)
  {
  }

  /** A successful query reports its stdout, or "(no output)" when it printed nothing. */
  lemma TailscaleSuccessOutput(target: string, c: CommandResult)
    requires c.Success()
    ensures var r := TailscaleFrom(target, Done(c));
            (c.stdout != "" ==> r.output == c.stdout) && (c.stdout == "" ==> r.output == "(no output)")
  {
  }

  // ------------------------------------------------------------ get_service_status

  /** The host services the agent may inspect. */
  const ALLOWED_SERVICES: seq<string> :=
    ["voxnix-agent", "tailscaled", "nix-daemon", "systemd-machined", "systemd-networkd", "sshd"]

  function ServiceStatusArgv(service: string): seq<string> {
    ["systemctl", "status", service + ".service", "--no-pager", "-l"]
  }

  /** The refusal for a service outside the allowlist, which names the allowed ones in sorted order. */
  function NotAllowedMessage(service: string): string {
    "Service '" + service + "' is not in the allowed diagnostic list. " +
    "Allowed: " + Join(Sort(ALLOWED_SERVICES), ", ") + "."
  }

  /** What `get_service_status` makes of its one command, for an allowed service. */
  function ServiceFrom(service: string, a: Attempt<CommandResult>): (r: DiagnosticResult)
    ensures r.success <==> r.error.None?
    ensures !r.success ==> r.output == ""
    ensures r.success <==> a.Done? && StatusText(a.value) != ""
  {
    if a.TimeoutError? then DiagnosticResult(false, "", Some("Status query timed out for service '" + service + "'."))
    else if StatusText(a.value) != "" then DiagnosticResult(true, StatusText(a.value), None)
    else DiagnosticResult(false, "", Some("No status information available for '" + service + "'."))
  }

  /** `get_service_status(service_name)`. */
  function ServiceStatus(service: string, procs: Processes): (r: DiagnosticResult)
    ensures service !in ALLOWED_SERVICES ==> r == DiagnosticResult(false, "", Some(NotAllowedMessage(service)))
  {
    if service !in ALLOWED_SERVICES then DiagnosticResult(false, "", Some(NotAllowedMessage(service)))
    else ServiceFrom(service, Run(procs, ServiceStatusArgv(service), DIAG_TIMEOUT))
  }

  /** A service outside the allowlist is refused before any command runs: the answer is the same whatever the host would say. */
  lemma ServiceRefusedWithoutRunning(service: string, p1: Processes, p2: Processes)
    requires service !in ALLOWED_SERVICES
    ensures ServiceStatus(service, p1) == ServiceStatus(service, p2)
    ensures !ServiceStatus(service, p1).success
  {
  }

  /** For an allowed service the status text is reported whenever there is one, whatever the exit code. */
  lemma ServiceAnyExitCode(service: string, c: CommandResult)
    ensures var r := ServiceFrom(service, Done(c));
            (c.stdout != "" ==> r == DiagnosticResult(true, c.stdout, None)) &&
            (c.stdout == "" && c.stderr != "" ==> r == DiagnosticResult(true, c.stderr, None)) &&
            (c.stdout == "" && c.stderr == "" ==>
               r.error == Some("No status information available for '" + service + "'."))
  {
  }

  /** The refusal lists the allowlist sorted: nix-daemon, sshd, systemd-machined, systemd-networkd, tailscaled, voxnix-agent. */
  lemma AllowedSortedOrder()
    ensures Sort(ALLOWED_SERVICES) ==
            ["nix-daemon", "sshd", "systemd-machined", "systemd-networkd", "tailscaled", "voxnix-agent"]
  {
    SortedAllowed();
    SameAllowed();
    SortedPermutationUnique(Sort(ALLOWED_SERVICES),
      ["nix-daemon", "sshd", "systemd-machined", "systemd-networkd", "tailscaled", "voxnix-agent"]);
  }

  lemma SortedAllowed()
    ensures Sorted(["nix-daemon", "sshd", "systemd-machined", "systemd-networkd", "tailscaled", "voxnix-agent"])
  {
    LexLeByFirst("nix-daemon", "sshd");
    LexLeByFirst("systemd-networkd", "tailscaled");
    LexLeByFirst("tailscaled", "voxnix-agent");
    SshdBeforeSystemd();
    MachinedBeforeNetworkd();
    Chain6("nix-daemon", "sshd", "systemd-machined", "systemd-networkd", "tailscaled", "voxnix-agent");
  }

  lemma Chain6(a: string, b: string, c: string, d: string, e: string, f: string)
    requires LexLe(a, b) && LexLe(b, c) && LexLe(c, d) && LexLe(d, e) && LexLe(e, f)
    ensures Sorted([a, b, c, d, e, f])
  {
    SortedOfChained([a, b, c, d, e, f]);
  }

  lemma SameAllowed()
    ensures multiset(ALLOWED_SERVICES) ==
            multiset(["nix-daemon", "sshd", "systemd-machined", "systemd-networkd", "tailscaled", "voxnix-agent"])
  {
  }

  lemma SshdBeforeSystemd()
    ensures LexLe("sshd", "systemd-machined")
  {
    var a, b := "sshd", "systemd-machined";
    assert a[0] == b[0] && a[1..] == "shd" && b[1..] == "ystemd-machined";
    LexLeByFirst("shd", "ystemd-machined");
  }

  lemma MachinedBeforeNetworkd()
    ensures LexLe("systemd-machined", "systemd-networkd")
  {
    var a, b := "systemd-machined", "systemd-networkd";
    LexLeByFirst(a[8..], b[8..]);
    assert LexLe(a[7..], b[7..]);
    assert LexLe(a[6..], b[6..]);
    assert LexLe(a[5..], b[5..]);
    assert LexLe(a[4..], b[4..]);
    assert LexLe(a[3..], b[3..]);
    assert LexLe(a[2..], b[2..]);
    assert LexLe(a[1..], b[1..]);
  }
}
