/**
 * `agent/tools/zfs.py`, the read side: `get_user_storage_info`, which parses
 * the tab-separated output of `zfs get -Hp`, and `_human_size`, which turns a
 * raw byte count into a short human-readable size.
 *
 * Python divides the byte count by 1024 in floating point and formats with
 * `.1f`; the model divides exactly, on `real`, and rounds half to even, which
 * is what Python does whenever the count is below 2^53.
 */
module ZfsStorage {
  import opened Common
  import opened Text
  import opened Cli
  import opened Zfs

  // ------------------------------------------------------------ _human_size

  /** The unit letters, one per power of 1024. */
  const UNITS := "BKMGTP"

  function Pow1024(k: nat): (p: nat)
    ensures p >= 1
  {
    if k == 0 then 1 else 1024 * Pow1024(k - 1)
  }

  /** The power of 1024 `_human_size` settles on: the first `k` with `n < 1024^(k+1)`, or 5 (petabytes). */
  function UnitIndex(n: int): (k: nat)
    ensures k <= 5
    ensures k < 5 ==> n < Pow1024(k + 1)
    ensures forall j :: 1 <= j <= k ==> n >= Pow1024(j)
  {
    UnitFrom(n, 0)
  }

  function UnitFrom(n: int, i: nat): (k: nat)
    requires i <= 5
    requires forall j :: 1 <= j <= i ==> n >= Pow1024(j)
    ensures i <= k <= 5
    ensures k < 5 ==> n < Pow1024(k + 1)
    ensures forall j :: 1 <= j <= k ==> n >= Pow1024(j)
    decreases 5 - i
  {
    if i == 5 || n < Pow1024(i + 1) then i else UnitFrom(n, i + 1)
  }

  /** The unit is determined by the two bounds of `UnitIndex`. */
  lemma UnitIndexUnique(n: int, k: nat)
    requires k <= 5
    requires k < 5 ==> n < Pow1024(k + 1)
    requires forall j :: 1 <= j <= k ==> n >= Pow1024(j)
    ensures k == UnitIndex(n)
  {
    var u := UnitIndex(n);
  }

  /** Rounding to the nearest integer, ties to the even one. */
  function RoundHalfEven(x: real): (m: nat)
    requires x >= 0.0
    ensures m as real - 0.5 <= x <= m as real + 0.5
    ensures x - x.Floor as real == 0.5 ==> m % 2 == 0
    ensures x - x.Floor as real != 0.5 ==> m as real - 0.5 < x < m as real + 0.5
  {
    var f := x.Floor;
    var frac := x - f as real;
    if frac < 0.5 then f
    else if frac > 0.5 then f + 1
    else if f % 2 == 0 then f
    else f + 1
  }

  /** Python's `f"{v:.1f}"` for `v >= 0`. */
  function Fixed1(v: real): string
    requires v >= 0.0
  {
    var m := RoundHalfEven(v * 10.0);
    NatToString(m / 10) + "." + [DigitChar(m % 10)]
  }

  /** `Fixed1(v)` writes the tenths nearest to `v`, `m / 10`, ties going to the even tenth. */
  lemma Fixed1Nearest(v: real)
    requires v >= 0.0
    ensures var m := RoundHalfEven(v * 10.0);
            && Fixed1(v) == NatToString(m / 10) + "." + [DigitChar(m % 10)]
            && m as real / 10.0 - 0.05 <= v <= m as real / 10.0 + 0.05
  {
  }

  /** The size for a byte count that `int()` accepted. */
  function ScaledSize(n: int): string {
    if n < 1024 then IntToString(n) + "B"
    else
      var k := UnitIndex(n);
      var v := n as real / Pow1024(k) as real;
      assert v >= 0.0 by {
        DivNonNegative(n as real, Pow1024(k) as real);
      }
      Fixed1(v) + [UNITS[k]]
  }

  lemma DivNonNegative(x: real, p: real)
    requires x >= 0.0 && p > 0.0
    ensures x / p >= 0.0
  {
  }

  lemma DivBelow(x: real, p: real, b: real)
    requires p > 0.0
    ensures x / p < b <==> x < b * p
  {
    var q := x / p;
    assert q * p == x;
  }

  /** The values `_human_size` passes through unchanged ("" becomes "0"). */
  predicate Sentinel(raw: string) {
    raw == "none" || raw == "0" || raw == "-" || raw == ""
  }

  /** `_human_size(raw)`. */
  function HumanSizeOf(raw: string): string {
    if Sentinel(raw) then (if raw == "" then "0" else raw)
    else
      match PythonInt(raw)
      case None => raw
      case Some(n) => ScaledSize(n)
  }

  /** The loop `_human_size` runs: divide by 1024 until the value drops below 1024, at most up to petabytes. */
  method HumanSize(raw: string) returns (r: string)
    ensures r == HumanSizeOf(raw)
  {
    if Sentinel(raw) {
      return if raw == "" then "0" else raw;
    }
    var parsed := PythonInt(raw);
    if parsed.None? {
      return raw;
    }
    var n := parsed.value;
    HumanSizeOfParsed(raw, n);
    var size: real := n as real;
    var i: nat := 0;
    ScaleStart(n);
    while i < 5
      invariant i <= 5
      invariant size == n as real / Pow1024(i) as real
      invariant forall j :: 1 <= j <= i ==> n >= Pow1024(j)
    {
      ScaleBound(n, i);
      if size < 1024.0 {
        if i == 0 {
          return IntToString(n) + "B";
        }
        ScaledAt(n, i);
        return Fixed1(size) + [UNITS[i]];
      }
      ScaleStep(n, i);
      size := size / 1024.0;
      i := i + 1;
    }
    ScaledAt(n, 5);
    r := Fixed1(size) + "P";
  }

  lemma HumanSizeOfParsed(raw: string, n: int)
    requires !Sentinel(raw) && PythonInt(raw) == Some(n)
    ensures HumanSizeOf(raw) == ScaledSize(n)
  {
  }

  /** The unit where the loop stops gives the size `ScaledSize` writes. */
  lemma ScaledAt(n: int, i: nat)
    requires 1 <= i <= 5
    requires i < 5 ==> n < Pow1024(i + 1)
    requires forall j :: 1 <= j <= i ==> n >= Pow1024(j)
    ensures n as real / Pow1024(i) as real >= 0.0
    ensures ScaledSize(n) == Fixed1(n as real / Pow1024(i) as real) + [UNITS[i]]
  {
    assert n >= Pow1024(1);
    UnitIndexUnique(n, i);
    DivNonNegative(n as real, Pow1024(i) as real);
  }

  /** The scaled value is below 1024 exactly when the count is below the next power. */
  lemma ScaleBound(n: int, i: nat)
    ensures n as real / Pow1024(i) as real < 1024.0 <==> n < Pow1024(i + 1)
  {
    var p := Pow1024(i) as real;
    assert Pow1024(i + 1) as real == 1024.0 * p;
    DivBelow(n as real, p, 1024.0);
  }

  lemma ScaleStart(n: int)
    ensures n as real / Pow1024(0) as real == n as real
  {
    assert Pow1024(0) as real == 1.0;
  }

  lemma ScaleStep(n: int, i: nat)
    ensures n as real / Pow1024(i) as real / 1024.0 == n as real / Pow1024(i + 1) as real
  {
    var p := Pow1024(i) as real;
    assert Pow1024(i + 1) as real == p * 1024.0;
  }

  /** "none", "0" and "-" pass through, "" becomes "0", and anything `int()` rejects comes back unchanged. */
  lemma HumanSizePassThrough(raw: string)
    ensures raw == "none" || raw == "0" || raw == "-" ==> HumanSizeOf(raw) == raw
    ensures HumanSizeOf("") == "0"
    ensures PythonInt(raw).None? && raw != "" ==> HumanSizeOf(raw) == raw
  {
  }

  /** A count written in decimal is scaled: below 1024 it is written in bytes unchanged. */
  lemma HumanSizeOfCount(n: int)
    requires n != 0
    ensures HumanSizeOf(IntToString(n)) == ScaledSize(n)
    ensures n < 1024 ==> HumanSizeOf(IntToString(n)) == IntToString(n) + "B"
  {
    CountNotSentinel(n);
    PythonIntOfString(n);
  }

  /** The decimal text of a non-zero count is none of the pass-through values. */
  lemma CountNotSentinel(n: int)
    requires n != 0
    ensures !Sentinel(IntToString(n))
  {
    var s := IntToString(n);
    if n < 0 {
      assert s[0] == '-' && |s| >= 2;
      assert s != "none" by {
        assert "none"[0] == 'n';
      }
    } else {
      var d := NatToString(n);
      assert IsDigit(d[0]);
      if n < 10 {
        assert d == [DigitChar(n)];
      } else {
        assert |d| >= 2;
      }
      assert d != "none" && d != "-" by {
        assert "none"[0] == 'n' && "-"[0] == '-';
      }
    }
  }

  /**
   * From a kibibyte on, the unit is the largest power of 1024 not above the
   * count (petabytes at most), and the value written is the count divided by
   * that power, to one decimal.
   */
  lemma ScaledUnit(n: int)
    requires n >= 1024
    ensures var k := UnitIndex(n);
            && 1 <= k <= 5
            && Pow1024(k) <= n
            && (k < 5 ==> n < Pow1024(k + 1))
            && ScaledSize(n) == Fixed1(n as real / Pow1024(k) as real) + [UNITS[k]]
  {
    var k := UnitIndex(n);
    assert n >= Pow1024(1);
  }

  /** 512 bytes, 1280 (a tie, rounded to even), and one gibibyte. */
  lemma HumanSizeExamples()
    ensures ScaledSize(512) == "512B"
    ensures ScaledSize(1280) == "1.2K"
    ensures ScaledSize(1073741824) == "1.0G"
  {
    BytesExample();
    TieExample();
    GibibyteExample();
  }

  lemma BytesExample()
    ensures ScaledSize(512) == "512B"
  {
    assert NatToString(512) == NatToString(51) + "2";
    assert NatToString(51) == NatToString(5) + "1";
  }

  lemma TieExample()
    ensures ScaledSize(1280) == "1.2K"
  {
    UnitIndexUnique(1280, 1);
    assert 1280 as real / 1024.0 * 10.0 == 12.5;
    assert RoundHalfEven(12.5) == 12;
  }

  lemma GibibyteExample()
    ensures ScaledSize(1073741824) == "1.0G"
  {
    assert Pow1024(3) == 1073741824;
    UnitIndexUnique(1073741824, 3);
    assert RoundHalfEven(1073741824 as real / 1073741824 as real * 10.0) == 10;
  }

  // ------------------------------------------------------------ get_user_storage_info

  /** `ZfsQuotaInfo`. */
  datatype ZfsQuotaInfo = ZfsQuotaInfo(success: bool, owner: string, quota: string, used: string, available: string,
                                       message: string, error: Option<string>)

  /** The `zfs get` invocation. */
  function StorageArgv(owner: string): seq<string> {
    ["zfs", "get", "-Hp", "-o", "property,value", "quota,used,available", UserDataset(owner)]
  }

  /** A property line's key and value. */
  datatype Prop = Prop(key: string, value: string)

  /** One output line read as `key<TAB>value`: split at the first tab, both halves stripped; a line without a tab gives nothing. */
  function Entry(line: string): Option<Prop> {
    if IndexOf(line, '\t') < 0 then None
    else Some(Prop(Strip(BeforeFirst(line, '\t')), Strip(AfterFirst(line, '\t'))))
  }

  /** What each line gives. */
  function Entries(lines: seq<string>): (es: seq<Option<Prop>>)
    ensures |es| == |lines|
  {
    seq(|lines|, k requires 0 <= k < |lines| => Entry(lines[k]))
  }

  /** The dict filled from the entries in order, a later entry overriding an earlier one with the same key. */
  function Assign(es: seq<Option<Prop>>): map<string, string> {
    if es == [] then map[]
    else
      var props := Assign(es[..|es| - 1]);
      match es[|es| - 1]
      case None => props
      case Some(e) => props[e.key := e.value]
  }

  /** The `props` dict `get_user_storage_info` builds from the lines of its output. */
  function PropsOf(lines: seq<string>): map<string, string> {
    Assign(Entries(lines))
  }

  lemma {:induction false} AssignKeys(es: seq<Option<Prop>>, key: string)
    ensures key in Assign(es) <==> exists i :: 0 <= i < |es| && es[i].Some? && es[i].value.key == key
  {
    if es != [] {
      var init := es[..|es| - 1];
      AssignKeys(init, key);
      if key in Assign(init) {
        var i :| 0 <= i < |init| && init[i].Some? && init[i].value.key == key;
        assert es[i] == init[i];
      }
      if exists i :: 0 <= i < |es| && es[i].Some? && es[i].value.key == key {
        var i :| 0 <= i < |es| && es[i].Some? && es[i].value.key == key;
        if i < |init| {
          assert init[i] == es[i];
        }
      }
    }
  }

  lemma {:induction false} AssignLastWins(es: seq<Option<Prop>>, i: nat)
    requires i < |es| && es[i].Some?
    requires forall j :: i < j < |es| ==> es[j].None? || es[j].value.key != es[i].value.key
    ensures es[i].value.key in Assign(es)
    ensures Assign(es)[es[i].value.key] == es[i].value.value
  {
    var init := es[..|es| - 1];
    if i < |es| - 1 {
      assert init[i] == es[i];
      forall j | i < j < |init|
        ensures init[j].None? || init[j].value.key != init[i].value.key
      {
        assert init[j] == es[j];
      }
      AssignLastWins(init, i);
    }
  }

  /** Lines without a tab are skipped; a key is present exactly when some line gives it. */
  lemma PropsKeys(lines: seq<string>, key: string)
    ensures key in PropsOf(lines) <==>
              exists i :: 0 <= i < |lines| && Entry(lines[i]).Some? && Entry(lines[i]).value.key == key
  {
    var es := Entries(lines);
    AssignKeys(es, key);
    if key in PropsOf(lines) {
      var i :| 0 <= i < |es| && es[i].Some? && es[i].value.key == key;
      assert Entry(lines[i]) == es[i];
    }
    if exists i :: 0 <= i < |lines| && Entry(lines[i]).Some? && Entry(lines[i]).value.key == key {
      var i :| 0 <= i < |lines| && Entry(lines[i]).Some? && Entry(lines[i]).value.key == key;
      assert es[i] == Entry(lines[i]);
    }
  }

  /** The value recorded for a key is the one on the last line that gives it. */
  lemma PropsLastWins(lines: seq<string>, i: nat)
    requires i < |lines| && Entry(lines[i]).Some?
    requires forall j :: i < j < |lines| ==> Entry(lines[j]).None? || Entry(lines[j]).value.key != Entry(lines[i]).value.key
    ensures Entry(lines[i]).value.key in PropsOf(lines)
    ensures PropsOf(lines)[Entry(lines[i]).value.key] == Entry(lines[i]).value.value
  {
    var es := Entries(lines);
    assert es[i] == Entry(lines[i]);
    forall j | i < j < |es|
      ensures es[j].None? || es[j].value.key != es[i].value.key
    {
      assert es[j] == Entry(lines[j]);
    }
    AssignLastWins(es, i);
  }

  lemma AssignPrefix(es: seq<Option<Prop>>, i: nat)
    requires i < |es|
    ensures Assign(es[..i + 1]) == if es[i].Some? then Assign(es[..i])[es[i].value.key := es[i].value.value] else Assign(es[..i])
  {
    assert es[..i + 1][..i] == es[..i];
  }

  /** One turn of the loop over the lines: a line with a tab sets its key, any other line changes nothing. */
  lemma PropsPrefix(lines: seq<string>, i: nat)
    requires i < |lines|
    ensures var line := lines[i];
            Assign(Entries(lines)[..i + 1])
            == if IndexOf(line, '\t') >= 0 then Assign(Entries(lines)[..i])[Strip(BeforeFirst(line, '\t')) := Strip(AfterFirst(line, '\t'))]
               else Assign(Entries(lines)[..i])
  {
    var es := Entries(lines);
    AssignPrefix(es, i);
    assert es[i] == Entry(lines[i]);
  }

  lemma PropsStep(lines: seq<string>, i: nat, before: map<string, string>, after: map<string, string>)
    requires i < |lines| && before == Assign(Entries(lines)[..i])
    requires after == if IndexOf(lines[i], '\t') >= 0 then before[Strip(BeforeFirst(lines[i], '\t')) := Strip(AfterFirst(lines[i], '\t'))]
                       else before
    ensures after == Assign(Entries(lines)[..i + 1])
  {
    PropsPrefix(lines, i);
  }

  /** The loop of `get_user_storage_info` that fills `props`. */
  method ParseProperties(stdout: string) returns (props: map<string, string>)
    ensures props == PropsOf(SplitLines(Strip(stdout)))
  {
    var lines := SplitLines(Strip(stdout));
    ghost var es := Entries(lines);
    props := map[];
    var i := 0;
    while i < |lines|
      invariant i <= |lines|
      invariant props == Assign(es[..i])
    {
      var line := lines[i];
      ghost var before := props;
      if IndexOf(line, '\t') >= 0 {
        props := props[Strip(BeforeFirst(line, '\t')) := Strip(AfterFirst(line, '\t'))];
      }
      PropsStep(lines, i, before, props);
      i := i + 1;
    }
    assert es[..i] == es;
  }

  /** `props.get(key, "0")`. */
  function GetOrZero(props: map<string, string>, key: string): string {
    if key in props then props[key] else "0"
  }

  /** `get_user_storage_info(owner)` once `zfs get` has answered. */
  function StorageInfoOf(owner: string, r: CommandResult): ZfsQuotaInfo {
    if !r.Success() then
      ZfsQuotaInfo(false, owner, "unknown", "unknown", "unknown",
                   "Failed to query storage for user '" + owner + "'.", Some(OrElse(r.stderr, r.stdout)))
    else
      var props := PropsOf(SplitLines(Strip(r.stdout)));
      var quota := HumanSizeOf(GetOrZero(props, "quota"));
      var used := HumanSizeOf(GetOrZero(props, "used"));
      var available := HumanSizeOf(GetOrZero(props, "available"));
      ZfsQuotaInfo(true, owner, quota, used, available,
                   "Storage for user '" + owner + "': used " + used + " of " + quota + " quota (" + available + " available).",
                   None)
  }

  /** `get_user_storage_info(owner)`: the query, then the parse; a timeout is not caught. */
  method GetUserStorageInfo(owner: string, reply: ProcessReply) returns (r: Attempt<ZfsQuotaInfo>)
    ensures reply.Hung? <==> r.TimeoutError?
    ensures r.TimeoutError? ==> r.message == TimeoutMessage(StorageArgv(owner), 10)
    ensures r.Done? ==> r.value == StorageInfoOf(owner, RunCommand(StorageArgv(owner), 10, reply).value)
  {
    var result := RunCommand(StorageArgv(owner), 10, reply);
    if result.TimeoutError? {
      return TimeoutError(result.message);
    }
    var res := result.value;
    if !res.Success() {
      return Done(ZfsQuotaInfo(false, owner, "unknown", "unknown", "unknown",
                               "Failed to query storage for user '" + owner + "'.", Some(OrElse(res.stderr, res.stdout))));
    }
    var props := ParseProperties(res.stdout);
    var quota := HumanSize(GetOrZero(props, "quota"));
    var used := HumanSize(GetOrZero(props, "used"));
    var available := HumanSize(GetOrZero(props, "available"));
    r := Done(ZfsQuotaInfo(true, owner, quota, used, available,
                           "Storage for user '" + owner + "': used " + used + " of " + quota + " quota (" + available + " available).",
                           None));
  }

  /** A failed query reports "unknown" for every figure, and the error is stderr, else stdout. */
  lemma StorageFailure(owner: string, r: CommandResult)
    requires !r.Success()
    ensures var info := StorageInfoOf(owner, r);
            && !info.success && info.quota == "unknown" && info.used == "unknown" && info.available == "unknown"
            && info.error == Some(if r.stderr != "" then r.stderr else r.stdout)
  {
  }

  /** A successful query missing a property reports it as "0". */
  lemma StorageMissingDefaults(owner: string, r: CommandResult)
    requires r.Success()
    ensures var props := PropsOf(SplitLines(Strip(r.stdout)));
            var info := StorageInfoOf(owner, r);
            && info.success && info.error.None?
            && ("quota" !in props ==> info.quota == "0")
            && ("used" !in props ==> info.used == "0")
            && ("available" !in props ==> info.available == "0")
  {
  }
}
