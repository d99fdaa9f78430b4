/**
 * `agent/nix_gen/models.py`: the container-name rule shared by every tool,
 * and the field validators of `ContainerSpec`.
 *
 * The name pattern `^[a-z0-9](?:[a-z0-9-]*[a-z0-9])?$` is modelled twice: as
 * the automaton `Scan` that reads the name one character at a time, and as
 * the shape `NameShape` it must have; `ScanAccepts` proves the two agree.
 * `re.match` anchors at the start only, and Python's `$` also matches just
 * before a single trailing newline, so a name followed by one "\n" passes.
 */
module Models {
  import opened Common
  import opened Text

  const MAX_NAME_LENGTH: nat := 11

  /** `[a-z0-9]`. */
  predicate NameChar(c: char) {
    'a' <= c <= 'z' || '0' <= c <= '9'
  }

  /** `[a-z0-9-]`. */
  predicate InnerChar(c: char) {
    NameChar(c) || c == '-'
  }

  /** The whole-string form of the pattern: a name character at each end, name characters or hyphens between. */
  predicate NameShape(s: string) {
    |s| >= 1 && NameChar(s[0]) && NameChar(s[|s| - 1])
    && forall k :: 0 < k < |s| - 1 ==> InnerChar(s[k])
  }

  /** What the pattern, anchored by `re.match` and `$`, accepts: the shape, optionally followed by one "\n". */
  predicate MatchesName(s: string) {
    NameShape(s) || (|s| >= 2 && s[|s| - 1] == '\n' && NameShape(s[..|s| - 1]))
  }

  /** States of the matcher: nothing read; last read a name character; last read a hyphen; read the final "\n". */
  datatype ScanState = Start | AfterChar | AfterHyphen | AfterNewline | Reject

  function Next(q: ScanState, c: char): ScanState {
    match q
    case Start => if NameChar(c) then AfterChar else Reject
    case AfterChar => if NameChar(c) then AfterChar else if c == '-' then AfterHyphen else if c == '\n' then AfterNewline else Reject
    case AfterHyphen => if NameChar(c) then AfterChar else if c == '-' then AfterHyphen else Reject
    case AfterNewline => Reject
    case Reject => Reject
  }

  /** The state after reading `s` from `q`. */
  function Scan(q: ScanState, s: string): ScanState
    decreases |s|
  {
    if s == "" then q else Scan(Next(q, s[0]), s[1..])
  }

  predicate Accepting(q: ScanState) {
    q == AfterChar || q == AfterNewline
  }

  /** `_CONTAINER_NAME_RE.match(s)` succeeds. */
  predicate PatternMatches(s: string) {
    Accepting(Scan(Start, s))
  }

  /** Reading a string of inner characters after a name character or hyphen. */
  lemma {:induction false} ScanInner(q: ScanState, s: string)
    requires q == AfterChar || q == AfterHyphen
    requires forall k :: 0 <= k < |s| ==> InnerChar(s[k])
    ensures Scan(q, s) == (if s == "" then q else if NameChar(s[|s| - 1]) then AfterChar else AfterHyphen)
    decreases |s|
  {
    if s != "" {
      ScanInner(Next(q, s[0]), s[1..]);
      if |s| > 1 {
        assert s[1..][|s[1..]| - 1] == s[|s| - 1];
      }
    }
  }

  /** Once rejected, always rejected. */
  lemma {:induction false} ScanRejectStays(s: string)
    ensures Scan(Reject, s) == Reject
    decreases |s|
  {
    if s != "" {
      ScanRejectStays(s[1..]);
    }
  }

  /** After the final "\n", one more character rejects. */
  lemma ScanAfterNewline(s: string)
    ensures Scan(AfterNewline, s) == (if s == "" then AfterNewline else Reject)
  {
    if s != "" {
      ScanRejectStays(s[1..]);
    }
  }

  /**
   * A run from a name character or hyphen ends accepting exactly when the rest
   * is inner characters ending with a name character, or that followed by one "\n".
   */
  lemma {:induction false} ScanTail(q: ScanState, s: string)
    requires q == AfterChar || q == AfterHyphen
    ensures Accepting(Scan(q, s)) <==>
              (s == "" && q == AfterChar)
              || ((forall k :: 0 <= k < |s| ==> InnerChar(s[k])) && s != "" && NameChar(s[|s| - 1]))
              || (|s| >= 1 && s[|s| - 1] == '\n' && (forall k :: 0 <= k < |s| - 1 ==> InnerChar(s[k]))
                  && (if |s| == 1 then q == AfterChar else NameChar(s[|s| - 2])))
    decreases |s|
  {
    if s != "" {
      var c := s[0];
      var t := s[1..];
      if InnerChar(c) {
        ScanTail(Next(q, c), t);
        forall k | 0 <= k < |t| ensures t[k] == s[k + 1] { }
        if |t| >= 1 {
          assert t[|t| - 1] == s[|s| - 1];
        }
        if |t| >= 2 {
          assert t[|t| - 2] == s[|s| - 2];
        }
        if (forall k :: 0 <= k < |t| ==> InnerChar(t[k])) {
          assert forall k :: 0 <= k < |s| ==> InnerChar(s[k]) by {
            forall k | 0 <= k < |s| ensures InnerChar(s[k]) {
              if k > 0 { assert s[k] == t[k - 1]; }
            }
          }
        }
        if |t| >= 1 && (forall k :: 0 <= k < |t| - 1 ==> InnerChar(t[k])) {
          assert forall k :: 0 <= k < |s| - 1 ==> InnerChar(s[k]) by {
            forall k | 0 <= k < |s| - 1 ensures InnerChar(s[k]) {
              if k > 0 { assert s[k] == t[k - 1]; }
            }
          }
        }
      } else if c == '\n' && q == AfterChar {
        ScanAfterNewline(t);
        if t != "" {
          assert !InnerChar(s[0]);
          assert s[|s| - 1] != '\n' || !(forall k :: 0 <= k < |s| - 1 ==> InnerChar(s[k]));
        }
      } else {
        assert Next(q, c) == Reject;
        ScanRejectStays(t);
        assert !InnerChar(s[0]);
        if |s| >= 2 && s[|s| - 1] == '\n' {
          assert 0 < |s| - 1;
        }
      }
    }
  }

  /** The automaton accepts exactly the names the pattern describes. */
  lemma ScanAccepts(s: string)
    ensures PatternMatches(s) <==> MatchesName(s)
  {
    if s != "" {
      var t := s[1..];
      if NameChar(s[0]) {
        ScanTail(AfterChar, t);
        forall k | 0 <= k < |t| ensures t[k] == s[k + 1] { }
        if |t| >= 1 {
          assert t[|t| - 1] == s[|s| - 1];
        }
        if |t| >= 2 {
          assert t[|t| - 2] == s[|s| - 2];
        }
        var u := s[..|s| - 1];
        if |s| >= 2 {
          assert |u| >= 1 && u[0] == s[0];
          if |u| >= 1 { assert u[|u| - 1] == s[|s| - 2]; }
        }
        if NameShape(s) {
          assert forall k :: 0 <= k < |t| ==> InnerChar(t[k]) by {
            forall k | 0 <= k < |t| ensures InnerChar(t[k]) {
              assert t[k] == s[k + 1];
            }
          }
        }
        if |s| >= 2 && s[|s| - 1] == '\n' && NameShape(u) {
          assert forall k :: 0 <= k < |t| - 1 ==> InnerChar(t[k]) by {
            forall k | 0 <= k < |t| - 1 ensures InnerChar(t[k]) {
              assert t[k] == u[k + 1];
            }
          }
        }
        if |t| >= 1 && t[|t| - 1] == '\n' && (forall k :: 0 <= k < |t| - 1 ==> InnerChar(t[k]))
           && (if |t| == 1 then true else NameChar(t[|t| - 2])) {
          assert NameShape(u) by {
            forall k | 0 < k < |u| - 1 ensures InnerChar(u[k]) {
              assert u[k] == t[k - 1];
            }
          }
        }
      } else {
        assert Next(Start, s[0]) == Reject;
        ScanRejectStays(t);
        if |s| >= 2 {
          assert s[..|s| - 1][0] == s[0];
        }
      }
    }
  }

  // ------------------------------------------------------------ validate_container_name

  function InvalidNameMessage(name: string): string {
    "Container name '" + name + "' is invalid. Must be lowercase alphanumeric with hyphens, "
    + "no leading/trailing hyphens (e.g. 'my-dev')."
  }

  function TooLongMessage(name: string): string {
    "Container name '" + name + "' is too long (" + NatToString(|name|) + " chars). Must be "
    + NatToString(MAX_NAME_LENGTH) + " characters or fewer."
  }

  /** `validate_container_name(name)`: the error message, or `None` for a valid name. */
  function ValidateContainerName(name: string): (err: Option<string>)
    ensures err.None? <==> name != "" && PatternMatches(name) && |name| <= MAX_NAME_LENGTH
  {
    if name == "" then Some("Container name must not be empty.")
    else if !PatternMatches(name) then Some(InvalidNameMessage(name))
    else if |name| > MAX_NAME_LENGTH then Some(TooLongMessage(name))
    else None
  }

  /** A name is valid exactly when it has the name shape (perhaps with one trailing "\n") and at most 11 characters. */
  lemma ValidNameIff(name: string)
    ensures ValidateContainerName(name).None? <==> MatchesName(name) && |name| <= MAX_NAME_LENGTH
  {
    ScanAccepts(name);
  }

  /** The checks run in order: empty first, then the pattern, then the length. */
  lemma CheckOrder(name: string)
    ensures name == "" ==> ValidateContainerName(name) == Some("Container name must not be empty.")
    ensures name != "" && !MatchesName(name) ==> ValidateContainerName(name) == Some(InvalidNameMessage(name))
    ensures MatchesName(name) && |name| > MAX_NAME_LENGTH ==> ValidateContainerName(name) == Some(TooLongMessage(name))
  {
    ScanAccepts(name);
  }

  /** Interior hyphens are allowed, consecutive ones too, but not at either end. */
  lemma HyphenPlacement()
    ensures MatchesName("a--b")
    ensures !MatchesName("-ab") && !MatchesName("ab-")
  {
    assert "a--b"[0] == 'a' && "a--b"[3] == 'b';
    assert !NameShape("ab-"[..2] + "-"[..0] + "-") by {
      assert "ab-"[2] == '-';
    }
  }

  /** The "$" quirk: one trailing newline is accepted, and counts toward the length. */
  lemma TrailingNewlineAccepted()
    ensures ValidateContainerName("dev\n").None?
    ensures ValidateContainerName("abcdefghijk\n").Some?
  {
    assert NameShape("dev\n"[..3]) by {
      assert "dev\n"[..3] == "dev";
    }
    ValidNameIff("dev\n");
    assert |"abcdefghijk\n"| > MAX_NAME_LENGTH;
  }

  /** Eleven characters pass and twelve are too long. */
  lemma LengthBoundary()
    ensures ValidateContainerName("abcdefghijk").None?
    ensures ValidateContainerName("abcdefghijkl") == Some(TooLongMessage("abcdefghijkl"))
  {
    ElevenPasses();
    TwelveTooLong();
  }

  lemma ElevenPasses()
    ensures ValidateContainerName("abcdefghijk").None?
  {
    ValidNameIff("abcdefghijk");
  }

  lemma TwelveTooLong()
    ensures ValidateContainerName("abcdefghijkl") == Some(TooLongMessage("abcdefghijkl"))
  {
    assert PatternMatches("abcdefghijkl");
  }

  /** A long name with hyphens reports its length, not the pattern. */
  lemma LongHyphenatedName()
    ensures ValidateContainerName("my-dev-container") == Some(TooLongMessage("my-dev-container"))
  {
    var name := "my-dev-container";
    assert MatchesName(name) by {
      assert NameShape(name);
    }
    CheckOrder(name);
  }

  // ------------------------------------------------------------ ContainerSpec

  /** `ContainerSpec`. */
  datatype ContainerSpec = ContainerSpec(name: string, owner: string, modules: seq<string>,
                                         workspacePath: Option<string>, tailscaleAuthKey: Option<string>)

  /** `ContainerSpec.validate_name`: the name back, or the `ValueError` message. */
  function ValidateName(v: string): Result<string, string> {
    if v == "" then Failure("Container name must not be empty")
    else if !PatternMatches(v) then
      Failure("Container name '" + v + "' is invalid. Must be lowercase alphanumeric with hyphens, "
              + "no leading/trailing hyphens (e.g. 'my-dev-container')")
    else if |v| > MAX_NAME_LENGTH then
      Failure("Container name '" + v + "' is too long (" + NatToString(|v|) + " chars). Must be "
              + NatToString(MAX_NAME_LENGTH) + " characters or fewer — the network interface name is derived "
              + "from the container name and Linux enforces a 15-character interface name limit.")
    else Success(v)
  }

  /** The validator and the standalone check accept exactly the same names, and the validator keeps the name. */
  lemma ValidateNameAgrees(v: string)
    ensures ValidateName(v).Success? <==> ValidateContainerName(v).None?
    ensures ValidateName(v).Success? ==> ValidateName(v).value == v
  {
  }

  /** `ContainerSpec.validate_owner`. */
  function ValidateOwner(v: string): (r: Result<string, string>)
    ensures r.Failure? <==> v == ""
    ensures r.Success? ==> r.value == v
  {
    if v == "" then Failure("Owner must not be empty") else Success(v)
  }

  /** The distinct elements of `v`: Python's `set(v)`. */
  function Elements(v: seq<string>): set<string> {
    set m | m in v
  }

  /** No element occurs twice. */
  predicate Distinct(v: seq<string>) {
    forall i, j :: 0 <= i < j < |v| ==> v[i] != v[j]
  }

  lemma {:induction false} ElementsCard(v: seq<string>)
    ensures |Elements(v)| <= |v|
    ensures |Elements(v)| == |v| <==> Distinct(v)
  {
    if v != [] {
      var t := v[..|v| - 1];
      var x := v[|v| - 1];
      ElementsCard(t);
      assert Elements(v) == Elements(t) + {x};
      if x in Elements(t) {
        var i :| 0 <= i < |t| && t[i] == x;
        assert v[i] == v[|v| - 1];
        assert Elements(v) == Elements(t);
      } else {
        assert |Elements(v)| == |Elements(t)| + 1;
        if Distinct(t) {
          forall i, j | 0 <= i < j < |v| ensures v[i] != v[j] {
            if j == |v| - 1 {
              assert v[i] == t[i];
            } else {
              assert v[i] == t[i] && v[j] == t[j];
            }
          }
        }
      }
      if Distinct(v) {
        forall i, j | 0 <= i < j < |t| ensures t[i] != t[j] {
          assert t[i] == v[i] && t[j] == v[j];
        }
      }
    }
  }

  /** The modules that occur more than once, each once, in order of first occurrence. */
  function Duplicated(v: seq<string>, seen: set<string>): (d: seq<string>)
    ensures forall m :: m in d <==> m in v && m !in seen && multiset(v)[m] > 1
    ensures Distinct(d)
  {
    if v == [] then []
    else
      var m := v[0];
      assert v == [m] + v[1..];
      assert multiset(v) == multiset{m} + multiset(v[1..]);
      var rest := Duplicated(v[1..], seen + {m});
      if m !in seen && m in v[1..] then
        assert m !in rest;
        [m] + rest
      else rest
  }

  /** `ContainerSpec.validate_modules`. */
  function ValidateModules(v: seq<string>): (r: Result<seq<string>, string>)
  {
    if v == [] then Failure("At least one module must be specified")
    else if |v| != |Elements(v)| then Failure("Duplicate modules: " + Join(Duplicated(v, {}), ", "))
    else Success(v)
  }

  /** Modules are accepted exactly when the list is non-empty and no module repeats; the duplicates named are the repeated ones. */
  lemma ValidateModulesIff(v: seq<string>)
    ensures ValidateModules(v).Success? <==> v != [] && Distinct(v)
    ensures ValidateModules(v).Success? ==> ValidateModules(v).value == v
    ensures v != [] && !Distinct(v) ==>
              ValidateModules(v) == Failure("Duplicate modules: " + Join(Duplicated(v, {}), ", "))
              && forall m :: m in Duplicated(v, {}) <==> multiset(v)[m] > 1
  {
    ElementsCard(v);
    forall m | multiset(v)[m] > 1 ensures m in v {
      assert m in multiset(v);
    }
  }

  /** The messages of the failing validations, in field order. */
  function FailureMessages(n: Result<string, string>, o: Result<string, string>, m: Result<seq<string>, string>): (errs: seq<string>)
    ensures errs == [] <==> n.Success? && o.Success? && m.Success?
    ensures |errs| == (if n.Failure? then 1 else 0) + (if o.Failure? then 1 else 0) + (if m.Failure? then 1 else 0)
    ensures n.Failure? ==> errs[0] == n.error
    ensures o.Failure? ==> errs[if n.Failure? then 1 else 0] == o.error
    ensures m.Failure? ==> errs[|errs| - 1] == m.error
  {
    (if n.Failure? then [n.error] else []) + (if o.Failure? then [o.error] else []) + (if m.Failure? then [m.error] else [])
  }

  /** Building a `ContainerSpec`: every field is validated and every failing field's message is reported, in field order. */
  function MakeSpec(name: string, owner: string, modules: seq<string>,
                    workspacePath: Option<string>, tailscaleAuthKey: Option<string>): (r: Result<ContainerSpec, seq<string>>)
    ensures r.Success? <==> ValidateName(name).Success? && ValidateOwner(owner).Success? && ValidateModules(modules).Success?
    ensures r.Success? ==> r.value == ContainerSpec(name, owner, modules, workspacePath, tailscaleAuthKey)
    ensures r.Failure? ==> r.error != []
    ensures r.Failure? ==> |r.error| == (if ValidateName(name).Failure? then 1 else 0)
                                      + (if ValidateOwner(owner).Failure? then 1 else 0)
                                      + (if ValidateModules(modules).Failure? then 1 else 0)
    ensures r.Failure? && ValidateName(name).Failure? ==> r.error[0] == ValidateName(name).error
    ensures r.Failure? && ValidateOwner(owner).Failure? ==>
              r.error[if ValidateName(name).Failure? then 1 else 0] == ValidateOwner(owner).error
    ensures r.Failure? && ValidateModules(modules).Failure? ==> r.error[|r.error| - 1] == ValidateModules(modules).error
  {
    var errs := FailureMessages(ValidateName(name), ValidateOwner(owner), ValidateModules(modules));
    if errs == [] then Success(ContainerSpec(name, owner, modules, workspacePath, tailscaleAuthKey))
    else Failure(errs)
  }
}
