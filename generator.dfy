/**
 * `agent/nix_gen/generator.py`: the Nix expression handed to
 * `extra-container`, built from a validated `ContainerSpec`.
 *
 * The settings lookup behind `_resolve_flake_path` is a parameter
 * (`settingsPath`), standing for `get_settings().voxnix_flake_path`.
 */
module Generator {
  import opened Common
  import opened Text
  import opened Models

  // ------------------------------------------------------------ _resolve_flake_path

  /** `_resolve_flake_path(flake_path)`: a non-empty explicit path wins over the settings. */
  function ResolveFlakePath(flakePath: Option<string>, settingsPath: string): (r: string)
    ensures flakePath.Some? && flakePath.value != "" ==> r == flakePath.value
    ensures flakePath.None? || flakePath.value == "" ==> r == settingsPath
  {
    if flakePath.Some? && flakePath.value != "" then flakePath.value else settingsPath
  }

  /** `str(Path(resolved_path) / "nix" / "mkContainer.nix")`. */
  function MkContainerPath(resolved: string): string {
    PathStr(PathDiv(PathDiv(ParsePath(resolved), "nix"), "mkContainer.nix"))
  }

  /** Joining a plain segment onto a path appends it to the parts. */
  lemma DivPlain(p: PurePath, name: string)
    requires PlainSegment(name)
    ensures PathDiv(p, name) == PurePath(p.root, p.parts + [name])
  {
    ParsePlainSegment(name);
  }
  lemma DivTwiceParts(p: PurePath, a: string, b: string)
    requires PlainSegment(a) && PlainSegment(b)
    ensures PathDiv(PathDiv(p, a), b) == PurePath(p.root, p.parts + [a] + [b])
  {
    DivPlain(p, a);
    DivPlain(PathDiv(p, a), b);
  }
  lemma JoinTwo(segs: seq<string>, a: string, b: string)
    requires segs != []
    ensures Join(segs + [a] + [b], "/") == Join(segs, "/") + "/" + a + "/" + b
  {
    JoinAppend(segs, a, "/");
    JoinAppend(segs + [a], b, "/");
  }
  /** Two plain segments joined onto an absolute path. */
  lemma DivTwice(segs: seq<string>, a: string, b: string)
    requires segs != [] && PlainSegment(a) && PlainSegment(b)
    ensures PathStr(PathDiv(PathDiv(PurePath("/", segs), a), b)) == "/" + Join(segs, "/") + "/" + a + "/" + b
  {
    DivTwiceParts(PurePath("/", segs), a, b);
    var parts := segs + [a] + [b];
    RootedStr(parts);
    JoinTwo(segs, a, b);
    RootedJoinTwo(Join(segs, "/"), a, b);
  }

  lemma RootedJoinTwo(j: string, a: string, b: string)
    ensures "/" + (j + "/" + a + "/" + b) == "/" + j + "/" + a + "/" + b
  {
  }

  lemma RootedStr(parts: seq<string>)
    ensures PathStr(PurePath("/", parts)) == "/" + Join(parts, "/")
  {
  }

  lemma MkContainerSegments()
    ensures PlainSegment("nix") && PlainSegment("mkContainer.nix")
  {
    assert Free("nix", '/');
    assert Free("mkContainer.nix", '/');
  }

  lemma ImportPathClean(segs: seq<string>)
    requires segs != []
    requires forall k :: 0 <= k < |segs| ==> PlainSegment(segs[k])
    ensures PathStr(PathDiv(PathDiv(ParsePath("/" + Join(segs, "/")), "nix"), "mkContainer.nix"))
            == "/" + Join(segs, "/") + "/" + "nix" + "/" + "mkContainer.nix"
  {
    ParseCleanAbsolute(segs);
    MkContainerSegments();
    DivTwice(segs, "nix", "mkContainer.nix");
  }

  lemma ImportPathLiteral(root: string)
    ensures root + "/" + "nix" + "/" + "mkContainer.nix" == root + "/nix/mkContainer.nix"
  {
  }

  /** For an absolute flake root written without redundant slashes, the import path is the root + "/nix/mkContainer.nix". */
  lemma MkContainerPathClean(segs: seq<string>)
    requires segs != []
    requires forall k :: 0 <= k < |segs| ==> PlainSegment(segs[k])
    ensures MkContainerPath("/" + Join(segs, "/")) == "/" + Join(segs, "/") + "/nix/mkContainer.nix"
  {
    ImportPathClean(segs);
    ImportPathLiteral("/" + Join(segs, "/"));
  }

  // ------------------------------------------------------------ _nix_string

  /** Python's `s.replace(c, r)` for a one-character `c`. */
  function ReplaceChar(s: string, c: char, r: string): string {
    if s == "" then "" else (if s[0] == c then r else [s[0]]) + ReplaceChar(s[1..], c, r)
  }

  lemma {:induction false} ReplaceCharAppend(a: string, b: string, c: char, r: string)
    ensures ReplaceChar(a + b, c, r) == ReplaceChar(a, c, r) + ReplaceChar(b, c, r)
  {
    if a == "" {
      assert a + b == b;
    } else {
      assert (a + b)[1..] == a[1..] + b;
      ReplaceCharAppend(a[1..], b, c, r);
    }
  }

  /** The escaping `_nix_string` applies: three replaces, backslash first. */
  function Escape(s: string): string {
    ReplaceChar(ReplaceChar(ReplaceChar(s, '\\', "\\\\"), '"', "\\\""), '$', "\\$")
  }

  /** `_nix_string(value)`. */
  function NixString(value: string): string {
    "\"" + Escape(value) + "\""
  }

  /** The escape of one character. */
  function EscapeChar(c: char): string {
    if c == '\\' || c == '"' || c == '$' then ['\\', c] else [c]
  }

  /** The reference escaping: each character independently. */
  function EscapeEach(s: string): string {
    if s == "" then "" else EscapeChar(s[0]) + EscapeEach(s[1..])
  }

  lemma ReplaceCharOne(c: char, x: char, r: string)
    ensures ReplaceChar([c], x, r) == if c == x then r else [c]
  {
    assert [c][1..] == [];
  }

  lemma ReplaceCharPair(a: char, b: char, x: char, r: string)
    ensures ReplaceChar([a, b], x, r) == ReplaceChar([a], x, r) + ReplaceChar([b], x, r)
  {
    assert [a, b] == [a] + [b];
    ReplaceCharAppend([a], [b], x, r);
  }

  lemma EscapeOneChar(c: char)
    ensures Escape([c]) == EscapeChar(c)
  {
    ReplaceCharOne(c, '\\', "\\\\");
    if c == '\\' {
      ReplaceCharPair('\\', '\\', '"', "\\\"");
      ReplaceCharOne('\\', '"', "\\\"");
      ReplaceCharPair('\\', '\\', '$', "\\$");
      ReplaceCharOne('\\', '$', "\\$");
    } else {
      ReplaceCharOne(c, '"', "\\\"");
      if c == '"' {
        ReplaceCharPair('\\', '"', '$', "\\$");
        ReplaceCharOne('\\', '$', "\\$");
        ReplaceCharOne('"', '$', "\\$");
      } else {
        ReplaceCharOne(c, '$', "\\$");
      }
    }
  }

  /** The chained replaces escape each character independently: replacing backslashes first keeps the later escapes from being doubled. */
  lemma {:induction false} EscapeIsPerChar(s: string)
    ensures Escape(s) == EscapeEach(s)
  {
    if s != "" {
      var c := s[0];
      var t := s[1..];
      assert s == [c] + t;
      ReplaceCharAppend([c], t, '\\', "\\\\");
      var a1 := ReplaceChar([c], '\\', "\\\\");
      var b1 := ReplaceChar(t, '\\', "\\\\");
      ReplaceCharAppend(a1, b1, '"', "\\\"");
      var a2 := ReplaceChar(a1, '"', "\\\"");
      var b2 := ReplaceChar(b1, '"', "\\\"");
      ReplaceCharAppend(a2, b2, '$', "\\$");
      EscapeOneChar(c);
      EscapeIsPerChar(t);
    }
  }

  /**
   * Reading a string body back: every `\x` is read as `x`. Nix itself reads
   * `\n`, `\r` and `\t` as control characters, but the only escapes `Escape`
   * writes are `\\`, `\"` and `\$`, which Nix reads the same way, so the round
   * trip holds under either reading.
   */
  function Unescape(t: string): string
    decreases |t|
  {
    if t == "" then ""
    else if t[0] == '\\' && |t| >= 2 then [t[1]] + Unescape(t[2..])
    else [t[0]] + Unescape(t[1..])
  }

  /** A well-formed string body: every `\`, `"` and `$` is escaped by a preceding backslash. */
  predicate Escaped(t: string)
    decreases |t|
  {
    t == ""
    || (t[0] == '\\' && |t| >= 2 && Escaped(t[2..]))
    || (t[0] != '\\' && t[0] != '"' && t[0] != '$' && Escaped(t[1..]))
  }

  lemma {:induction false} EscapeEachRoundTrip(s: string)
    ensures Unescape(EscapeEach(s)) == s
    ensures Escaped(EscapeEach(s))
  {
    if s != "" {
      var e := EscapeEach(s);
      var rest := EscapeEach(s[1..]);
      EscapeEachRoundTrip(s[1..]);
      if s[0] == '\\' || s[0] == '"' || s[0] == '$' {
        assert e == ['\\', s[0]] + rest;
        assert e[2..] == rest;
      } else {
        assert e == [s[0]] + rest;
        assert e[1..] == rest;
      }
    }
  }

  /**
   * `_nix_string(s)` is `s` escaped and quoted: reading the body back gives
   * `s`, and no `"` or `$` in the body is left unescaped.
   */
  lemma NixStringRoundTrip(s: string)
    ensures var q := NixString(s);
            && |q| >= 2 && q[0] == '"' && q[|q| - 1] == '"'
            && Unescape(q[1..|q| - 1]) == s
            && Escaped(q[1..|q| - 1])
  {
    EscapeIsPerChar(s);
    EscapeEachRoundTrip(s);
    var q := NixString(s);
    assert q[1..|q| - 1] == Escape(s);
  }

  /** Characters that need no escape. */
  predicate Plain(s: string) {
    forall k :: 0 <= k < |s| ==> s[k] != '\\' && s[k] != '"' && s[k] != '$'
  }

  lemma {:induction false} EscapeEachPlain(s: string)
    requires Plain(s)
    ensures EscapeEach(s) == s
  {
    if s != "" {
      EscapeEachPlain(s[1..]);
      assert s == [s[0]] + s[1..];
    }
  }

  /** A string with no `\`, `"` or `$` is only wrapped in quotes. */
  lemma NixStringPlain(s: string)
    requires Plain(s)
    ensures NixString(s) == "\"" + s + "\""
  {
    EscapeIsPerChar(s);
    EscapeEachPlain(s);
  }

  // ------------------------------------------------------------ _nix_list

  function QuoteAll(items: seq<string>): (qs: seq<string>)
    ensures |qs| == |items|
    ensures forall k :: 0 <= k < |items| ==> qs[k] == NixString(items[k])
  {
    if items == [] then [] else [NixString(items[0])] + QuoteAll(items[1..])
  }

  /** `_nix_list(items)`. */
  function NixList(items: seq<string>): string {
    "[ " + Join(QuoteAll(items), " ") + " ]"
  }

  /** Two plain items are quoted and separated by one space, as in `[ "git" "fish" ]`; the empty list keeps both padding spaces. */
  lemma NixListExamples(x: string, y: string)
    requires Plain(x) && Plain(y)
    ensures NixList([x, y]) == "[ \"" + x + "\" \"" + y + "\" ]"
    ensures NixList([]) == "[  ]"
  {
    NixStringPlain(x);
    NixStringPlain(y);
    var qs := QuoteAll([x, y]);
    assert qs == [NixString(x), NixString(y)];
    assert Join(qs, " ") == NixString(x) + " " + NixString(y) by {
      assert qs[1..] == [NixString(y)];
    }
  }

  // ------------------------------------------------------------ generate_container_expr

  /** The optional fields, each on its own line inside the spec attribute set. */
  function OptionalFields(spec: ContainerSpec): string {
    (if Given(spec.workspacePath) then "\n    workspace = " + NixString(spec.workspacePath.value) + ";" else "")
    + (if Given(spec.tailscaleAuthKey) then "\n    tailscaleAuthKey = " + NixString(spec.tailscaleAuthKey.value) + ";" else "")
  }

  /** `generate_container_expr(spec, flake_path)`. */
  function GenerateContainerExpr(spec: ContainerSpec, flakePath: Option<string>, settingsPath: string): string {
    var mk := MkContainerPath(ResolveFlakePath(flakePath, settingsPath));
    "let\n  mkContainer = import " + mk + ";\n  spec = {\n    name = " + NixString(spec.name)
    + ";\n    owner = " + NixString(spec.owner) + ";\n    modules = " + NixList(spec.modules) + ";"
    + OptionalFields(spec) + "\n  };\nin\n  mkContainer spec\n"
  }

  /** The attribute-set entries of `spec`, in the order the template writes them. */
  function Fields(spec: ContainerSpec): seq<string> {
    ["name = " + NixString(spec.name), "owner = " + NixString(spec.owner), "modules = " + NixList(spec.modules)]
    + OptionalEntryList(spec)
  }

  /** The optional entries, workspace first. */
  function OptionalEntryList(spec: ContainerSpec): seq<string> {
    (if Given(spec.workspacePath) then ["workspace = " + NixString(spec.workspacePath.value)] else [])
    + (if Given(spec.tailscaleAuthKey) then ["tailscaleAuthKey = " + NixString(spec.tailscaleAuthKey.value)] else [])
  }

  /** The entries written one per line, four spaces in, each closed by ";". */
  function Lines(fields: seq<string>): string {
    if fields == [] then "" else "\n    " + fields[0] + ";" + Lines(fields[1..])
  }

  lemma {:induction false} LinesAppend(a: seq<string>, b: seq<string>)
    ensures Lines(a + b) == Lines(a) + Lines(b)
  {
    if a == [] {
      assert a + b == b;
    } else {
      assert (a + b)[1..] == a[1..] + b;
      LinesAppend(a[1..], b);
    }
  }

  lemma LinesOne(f: string)
    ensures Lines([f]) == "\n    " + f + ";"
  {
    assert [f][1..] == [];
  }

  /**
   * The expression is the fixed template around the spec's entries: the
   * import of mkContainer, then `name`, `owner`, `modules` and the optional
   * entries one per line, then the call.
   */
  lemma ExprLayout(spec: ContainerSpec, flakePath: Option<string>, settingsPath: string)
    ensures GenerateContainerExpr(spec, flakePath, settingsPath) ==
            "let\n  mkContainer = import " + MkContainerPath(ResolveFlakePath(flakePath, settingsPath)) + ";\n  spec = {"
            + Lines(Fields(spec)) + "\n  };\nin\n  mkContainer spec\n"
  {
    var ns := NixString(spec.name);
    var os := NixString(spec.owner);
    var ms := NixList(spec.modules);
    FieldLines(ns, os, ms, OptionalEntryList(spec));
    OptionalLines(spec);
    Assemble(MkContainerPath(ResolveFlakePath(flakePath, settingsPath)), ns, os, ms, OptionalFields(spec));
  }

  lemma FieldLines(ns: string, os: string, ms: string, opt: seq<string>)
    ensures Lines(["name = " + ns, "owner = " + os, "modules = " + ms] + opt)
            == ("\n    " + ("name = " + ns) + ";") + ("\n    " + ("owner = " + os) + ";")
               + ("\n    " + ("modules = " + ms) + ";") + Lines(opt)
  {
    LinesAppend(["name = " + ns, "owner = " + os, "modules = " + ms], opt);
    LinesThree("name = " + ns, "owner = " + os, "modules = " + ms);
  }

  lemma OptionalLines(spec: ContainerSpec)
    ensures Lines(OptionalEntryList(spec)) == OptionalFields(spec)
  {
    var w := if Given(spec.workspacePath) then ["workspace = " + NixString(spec.workspacePath.value)] else [];
    var t := if Given(spec.tailscaleAuthKey) then ["tailscaleAuthKey = " + NixString(spec.tailscaleAuthKey.value)] else [];
    var lw := if Given(spec.workspacePath) then "\n    workspace = " + NixString(spec.workspacePath.value) + ";" else "";
    var lt := if Given(spec.tailscaleAuthKey) then "\n    tailscaleAuthKey = " + NixString(spec.tailscaleAuthKey.value) + ";" else "";
    assert OptionalEntryList(spec) == w + t;
    assert OptionalFields(spec) == lw + lt;
    LinesAppend(w, t);
    LiteralSplits();
    if Given(spec.workspacePath) {
      EntryLine("workspace = ", NixString(spec.workspacePath.value), "\n    workspace = ");
    }
    if Given(spec.tailscaleAuthKey) {
      EntryLine("tailscaleAuthKey = ", NixString(spec.tailscaleAuthKey.value), "\n    tailscaleAuthKey = ");
    }
  }

  lemma EntryLine(key: string, v: string, lit: string)
    requires lit == "\n    " + key
    ensures Lines([key + v]) == lit + v + ";"
  {
    LinesOne(key + v);
  }

  /** The template text, regrouped entry by entry. */
  lemma Assemble(mk: string, ns: string, os: string, ms: string, opt: string)
    ensures "let\n  mkContainer = import " + mk + ";\n  spec = {\n    name = " + ns
            + ";\n    owner = " + os + ";\n    modules = " + ms + ";"
            + opt + "\n  };\nin\n  mkContainer spec\n"
            == "let\n  mkContainer = import " + mk + ";\n  spec = {"
               + (("\n    " + ("name = " + ns) + ";") + ("\n    " + ("owner = " + os) + ";")
                  + ("\n    " + ("modules = " + ms) + ";") + opt)
               + "\n  };\nin\n  mkContainer spec\n"
  {
    LiteralSplits();
  }

  lemma LinesThree(a: string, b: string, c: string)
    ensures Lines([a, b, c]) == ("\n    " + a + ";") + ("\n    " + b + ";") + ("\n    " + c + ";")
  {
    assert [a, b, c][1..] == [b, c];
    assert [b, c][1..] == [c];
    LinesOne(c);
  }

  lemma LiteralSplits()
    ensures ";\n  spec = {\n    name = " == ";\n  spec = {" + "\n    " + "name = "
    ensures ";\n    owner = " == ";" + "\n    " + "owner = "
    ensures ";\n    modules = " == ";" + "\n    " + "modules = "
    ensures "\n    workspace = " == "\n    " + "workspace = "
    ensures "\n    tailscaleAuthKey = " == "\n    " + "tailscaleAuthKey = "
  {
  }

  /**
   * A `workspace` entry is present exactly when the workspace path is set
   * and non-empty, a `tailscaleAuthKey` entry exactly when the key is, and
   * when both are, the workspace comes first.
   */
  lemma OptionalEntries(spec: ContainerSpec)
    ensures var fs := Fields(spec);
            && (exists k :: 0 <= k < |fs| && StartsWith(fs[k], "workspace = ")) <==> Given(spec.workspacePath)
    ensures var fs := Fields(spec);
            && (exists k :: 0 <= k < |fs| && StartsWith(fs[k], "tailscaleAuthKey = ")) <==> Given(spec.tailscaleAuthKey)
    ensures var fs := Fields(spec);
            Given(spec.workspacePath) && Given(spec.tailscaleAuthKey) ==>
              |fs| == 5 && StartsWith(fs[3], "workspace = ") && StartsWith(fs[4], "tailscaleAuthKey = ")
  {
    var fs := Fields(spec);
    var ws := "workspace = ";
    var ts := "tailscaleAuthKey = ";
    var w := if Given(spec.workspacePath) then [ws + NixString(spec.workspacePath.value)] else [];
    var t := if Given(spec.tailscaleAuthKey) then [ts + NixString(spec.tailscaleAuthKey.value)] else [];
    assert fs == ["name = " + NixString(spec.name), "owner = " + NixString(spec.owner), "modules = " + NixList(spec.modules)] + w + t;
    forall k | 0 <= k < |fs|
      ensures StartsWith(fs[k], ws) <==> (Given(spec.workspacePath) && k == 3)
      ensures StartsWith(fs[k], ts) <==> (Given(spec.tailscaleAuthKey) && k == |fs| - 1 && k >= 3)
    {
      if k < 3 {
        DiffersAt(fs[k], ws, 0);
        DiffersAt(fs[k], ts, 0);
      } else if k == 3 && Given(spec.workspacePath) {
        StartsWithPrefix(ws, NixString(spec.workspacePath.value));
        DiffersAt(fs[k], ts, 0);
        assert k != |fs| - 1 || !Given(spec.tailscaleAuthKey);
      } else {
        StartsWithPrefix(ts, NixString(spec.tailscaleAuthKey.value));
        DiffersAt(fs[k], ws, 0);
      }
    }
    if Given(spec.workspacePath) {
      assert StartsWith(fs[3], ws);
    }
    if Given(spec.tailscaleAuthKey) {
      assert StartsWith(fs[|fs| - 1], ts);
    }
  }
}
