/** src/ops/completions.rs: the shells, the version line every embedded
    completion script starts with, and the `--check` comparison of an installed
    script against the embedded one. The script bodies are not modelled; only
    their version headers are. */
module Completions {
  import opened Errors
  import opened Text
  import opened FileSystem

  datatype Shell = Zsh | Bash | Fish | PowerShell

  const U32_MAX: nat := 0xFFFF_FFFF
  const VERSION_PREFIX: string := "# templative-completions-version: "
  const COMPDEF_LINE: string := "#compdef templative"

  /** `shell_name`: the name the regenerate hint uses. */
  function ShellName(shell: Shell): (r: string)
    ensures shell == Zsh ==> r == "zsh"
    ensures shell == Bash ==> r == "bash"
    ensures shell == Fish ==> r == "fish"
    ensures shell == PowerShell ==> r == "powershell"
  {
    match shell
    case Zsh => "zsh"
    case Bash => "bash"
    case Fish => "fish"
    case PowerShell => "powershell"
  }

  /** Different shells have different names. */
  lemma ShellNameInjective(a: Shell, b: Shell)
    requires ShellName(a) == ShellName(b)
    ensures a == b
  {
  }

  /** The `VERSION` constant of each embedded script, a `u32`. */
  function Version(shell: Shell): (v: nat)
    ensures 0 < v <= U32_MAX
  {
    match shell
    case Zsh => 3
    case Bash => 3
    case Fish => 2
    case PowerShell => 3
  }

  /** The lines each embedded script starts with: the zsh script puts its
      `#compdef` line first. */
  function ScriptHeader(shell: Shell): (r: string)
    ensures EndsWith(r, VERSION_PREFIX + DecimalString(Version(shell)) + "\n")
    ensures StartsWith(r, COMPDEF_LINE) <==> shell == Zsh
  {
    var versionLine := VERSION_PREFIX + DecimalString(Version(shell)) + "\n";
    if shell == Zsh then COMPDEF_LINE + "\n" + versionLine
    else
      // The two header lines differ in their second character.
      assert versionLine[1] == ' ' != COMPDEF_LINE[1];
      versionLine
  }

  /** `str::parse::<u32>`: an optional '+', then one or more decimal digits
      whose value fits in 32 bits. */
  function ParseU32(s: string): (r: Option<nat>)
    ensures r.Some? ==> r.value <= U32_MAX
    ensures r.Some? ==> s != [] && s[0] != '-'
  {
    var digits := if |s| > 0 && s[0] == '+' then s[1..] else s;
    if digits != [] && AllDigits(digits) && DigitsValue(digits) <= U32_MAX then Some(DigitsValue(digits)) else None
  }

  /** Every 32-bit value reads back from its decimal form, with or without a
      leading '+'. */
  lemma ParseU32RoundTrip(n: nat)
    requires n <= U32_MAX
    ensures ParseU32(DecimalString(n)) == Some(n)
    ensures ParseU32("+" + DecimalString(n)) == Some(n)
  {
    DecimalStringValue(n);
    assert ("+" + DecimalString(n))[1..] == DecimalString(n);
  }

  /** Values past 32 bits are rejected. */
  lemma ParseU32RejectsOverflow(n: nat)
    requires n > U32_MAX
    ensures ParseU32(DecimalString(n)) == None
  {
    DecimalStringValue(n);
  }

  /** The index of the first line that starts with `prefix`, or `|lines|`. */
  function FirstPrefixed(lines: seq<string>, prefix: string): (k: nat)
    ensures k <= |lines|
    ensures forall j :: 0 <= j < k ==> !StartsWith(lines[j], prefix)
    ensures k < |lines| ==> StartsWith(lines[k], prefix)
  {
    if lines == [] || StartsWith(lines[0], prefix) then 0 else 1 + FirstPrefixed(lines[1..], prefix)
  }

  /** The number on the first line of `lines` that starts with `prefix`:
      what follows the prefix, trimmed and parsed; later lines are never
      looked at. */
  function ParseFirst(lines: seq<string>, prefix: string): (r: Option<nat>)
    ensures r.Some? ==> r.value <= U32_MAX
    ensures var k := FirstPrefixed(lines, prefix);
      && (k == |lines| ==> r.None?)
      && (k < |lines| ==> r == ParseU32(Trim(lines[k][|prefix|..])))
  {
    if lines == [] then None
    else if StartsWith(lines[0], prefix) then ParseU32(Trim(lines[0][|prefix|..]))
    else ParseFirst(lines[1..], prefix)
  }

  /** `parse_version`: the number on the first line that starts with the
      version prefix; nothing when no line does. */
  function ParseVersion(contents: string): (r: Option<nat>)
    ensures r.Some? ==> r.value <= U32_MAX
    ensures r.Some? ==> exists i :: 0 <= i < |Lines(contents)| && StartsWith(Lines(contents)[i], VERSION_PREFIX)
  {
    ParseFirst(Lines(contents), VERSION_PREFIX)
  }

  /** `str::lines` splits off a first line that holds no line break. */
  lemma LinesCons(line: string, rest: string)
    requires '\n' !in line
    ensures Lines(line + "\n" + rest) == [DropCarriageReturn(line)] + Lines(rest)
  {
    var s := line + "\n" + rest;
    assert forall i :: 0 <= i < |line| ==> s[i] == line[i];
    assert s[|line|] == '\n';
    assert IndexOf(s, '\n') == |line|;
    assert s[..|line|] == line && s[|line| + 1..] == rest;
  }

  /** A line made of the prefix and a number's digits gives that number. */
  lemma PrefixedLineParses(prefix: string, n: nat, more: seq<string>)
    requires n <= U32_MAX
    ensures ParseFirst([prefix + DecimalString(n)] + more, prefix) == Some(n)
  {
    var d := DecimalString(n);
    var line := prefix + d;
    assert line[..|prefix|] == prefix && line[|prefix|..] == d;
    assert StartsWith(line, prefix);
    assert FirstPrefixed([line] + more, prefix) == 0;
    DigitsAreNotWhitespace(d);
    assert Trim(d) == d;
    ParseU32RoundTrip(n);
  }

  lemma DigitsAreNotWhitespace(d: string)
    requires AllDigits(d)
    ensures forall i :: 0 <= i < |d| ==> !IsWhitespace(d[i])
  {
    forall i | 0 <= i < |d| ensures !IsWhitespace(d[i]) {
      assert IsDigit(d[i]);
    }
  }

  /** The digits of a version number hold no line break or carriage return. */
  lemma VersionLineShape(prefix: string, n: nat)
    requires '\n' !in prefix && (|prefix| == 0 || prefix[|prefix| - 1] != '\r')
    ensures '\n' !in prefix + DecimalString(n)
    ensures DropCarriageReturn(prefix + DecimalString(n)) == prefix + DecimalString(n)
  {
    var d := DecimalString(n);
    assert forall i :: 0 <= i < |d| ==> IsDigit(d[i]);
    assert (prefix + d)[|prefix + d| - 1] == d[|d| - 1];
  }

  /** A first line that does not start with the prefix is passed over. */
  lemma SkipLine(line: string, tail: string, prefix: string)
    requires '\n' !in line && !StartsWith(DropCarriageReturn(line), prefix)
    ensures ParseFirst(Lines(line + "\n" + tail), prefix) == ParseFirst(Lines(tail), prefix)
  {
    LinesCons(line, tail);
    assert (Lines(line + "\n" + tail))[1..] == Lines(tail);
  }

  /** A first line holding the prefix and a number's digits gives that
      number, whatever follows. */
  lemma VersionLineParses(prefix: string, n: nat, tail: string)
    requires n <= U32_MAX && '\n' !in prefix && (|prefix| == 0 || prefix[|prefix| - 1] != '\r')
    ensures ParseFirst(Lines(prefix + DecimalString(n) + "\n" + tail), prefix) == Some(n)
  {
    VersionLineShape(prefix, n);
    LinesCons(prefix + DecimalString(n), tail);
    PrefixedLineParses(prefix, n, Lines(tail));
  }

  lemma ConcatAssoc(a: string, b: string, c: string)
    ensures (a + b) + c == a + (b + c)
  {
  }

  /** The prefix is one line, not ending in a carriage return. */
  lemma PrefixShape()
    ensures '\n' !in VERSION_PREFIX && VERSION_PREFIX[|VERSION_PREFIX| - 1] != '\r'
  {
  }

  /** The `#compdef` line is not a version line. */
  lemma CompdefShape()
    ensures '\n' !in COMPDEF_LINE && !StartsWith(DropCarriageReturn(COMPDEF_LINE), VERSION_PREFIX)
  {
    assert COMPDEF_LINE[|COMPDEF_LINE| - 1] != '\r';
    assert |COMPDEF_LINE| < |VERSION_PREFIX|;
  }

  /** Each embedded script reads back as its own version, whatever follows
      its header. */
  lemma ScriptHeaderParses(shell: Shell, rest: string)
    ensures ParseVersion(ScriptHeader(shell) + rest) == Some(Version(shell))
  {
    var versionLine := VERSION_PREFIX + DecimalString(Version(shell)) + "\n";
    PrefixShape();
    VersionLineParses(VERSION_PREFIX, Version(shell), rest);
    ConcatAssoc(VERSION_PREFIX + DecimalString(Version(shell)), "\n", rest);
    if shell == Zsh {
      CompdefShape();
      ConcatAssoc(COMPDEF_LINE + "\n", versionLine, rest);
      ConcatAssoc(COMPDEF_LINE, "\n", versionLine + rest);
      SkipLine(COMPDEF_LINE, versionLine + rest, VERSION_PREFIX);
    }
  }

  /** A later version line does not rescue an unreadable first one. */
  lemma FirstVersionLineDecides(tail: string)
    ensures ParseVersion(VERSION_PREFIX + "x" + "\n" + tail) == None
  {
    PrefixShape();
    assert Trim("x") == "x";
    UnparsableLine(VERSION_PREFIX, "x", tail);
  }

  /** A first version line whose number does not parse gives `None`,
      whatever follows. */
  lemma UnparsableLine(prefix: string, word: string, tail: string)
    requires '\n' !in prefix + word && ParseU32(Trim(word)) == None
    requires |prefix + word| == 0 || (prefix + word)[|prefix + word| - 1] != '\r'
    ensures ParseFirst(Lines(prefix + word + "\n" + tail), prefix) == None
  {
    var line := prefix + word;
    LinesCons(line, tail);
    assert line[..|prefix|] == prefix && line[|prefix|..] == word;
  }

  /** The `--check` verdict on an installed version: the line printed when it
      matches, the error otherwise. */
  function CompareVersions(shell: Shell, path: Path, installed: Option<nat>): (r: Result<string>)
    ensures installed.None? ==> r == Err(Message("no version comment found in " + Display(path) + "; unable to verify"))
    ensures r.Ok? <==> installed == Some(Version(shell))
    ensures r.Ok? ==> r.value == "completion script is up to date (v" + DecimalString(Version(shell)) + ")"
    ensures installed.Some? && installed.value < Version(shell) ==>
      r == Err(Message("completion script is outdated (installed: v" + DecimalString(installed.value)
        + ", current: v" + DecimalString(Version(shell)) + ")\nre-run: templative completions "
        + ShellName(shell) + " > <path>"))
    ensures installed.Some? && installed.value > Version(shell) ==>
      r == Err(Message("completion script version v" + DecimalString(installed.value)
        + " is newer than current v" + DecimalString(Version(shell))
        + " (installed from a newer version of templative?)"))
  {
    var version := Version(shell);
    match installed
    case None => Err(Message("no version comment found in " + Display(path) + "; unable to verify"))
    case Some(v) =>
      if v < version then
        Err(Message("completion script is outdated (installed: v" + DecimalString(v) + ", current: v"
          + DecimalString(version) + ")\nre-run: templative completions " + ShellName(shell) + " > <path>"))
      else if v > version then
        Err(Message("completion script version v" + DecimalString(v) + " is newer than current v"
          + DecimalString(version) + " (installed from a newer version of templative?)"))
      else Ok("completion script is up to date (v" + DecimalString(v) + ")")
  }

  /** What `cmd_completions` prints on success. */
  datatype Output = Script(shell: Shell) | Line(text: string)

  /** `cmd_completions`: print the script, or check an installed one. The
      file's text comes through `utf8`, which fails on invalid UTF-8. */
  function CmdCompletions(shell: Shell, check: Option<Path>, nodes: map<Path, Node>, utf8: seq<byte> -> Option<string>)
    : (r: Result<Output>)
    ensures check.None? ==> r == Ok(Script(shell))
    ensures check.Some? ==> (r.Ok? <==>
      check.value in nodes && nodes[check.value].File? && utf8(nodes[check.value].bytes).Some?
      && ParseVersion(utf8(nodes[check.value].bytes).value) == Some(Version(shell)))
    ensures check.Some? && (check.value !in nodes || !nodes[check.value].File? || utf8(nodes[check.value].bytes).None?) ==>
      r == Err(Context("failed to read " + Display(check.value), External("io")))
  {
    match check
    case None => Ok(Script(shell))
    case Some(path) =>
      if path !in nodes || !nodes[path].File? || utf8(nodes[path].bytes).None? then
        Err(Context("failed to read " + Display(path), External("io")))
      else
        match CompareVersions(shell, path, ParseVersion(utf8(nodes[path].bytes).value))
        case Ok(line) => Ok(Line(line))
        case Err(e) => Err(e)
  }

  /** Checking a freshly written script of the same shell succeeds. */
  lemma CheckOwnScript(shell: Shell, path: Path, nodes: map<Path, Node>, utf8: seq<byte> -> Option<string>, rest: string)
    requires path in nodes && nodes[path].File? && utf8(nodes[path].bytes) == Some(ScriptHeader(shell) + rest)
    ensures CmdCompletions(shell, Some(path), nodes, utf8) == Ok(Line("completion script is up to date (v"
      + DecimalString(Version(shell)) + ")"))
  {
    ScriptHeaderParses(shell, rest);
  }
}
