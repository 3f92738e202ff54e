/** src/ops/list.rs: the status column of `templative list` and the layout of
    its table. What the file system and git report about each location comes
    in as a `Probe`; display width is a per-character oracle. A line's colour
    is recorded as a style, not rendered; the header's underlining is dropped. */
module List {
  import opened Errors
  import opened Text
  import opened Git
  import opened FileSystem
  import opened Persist
  import opened Registry

  datatype Style = Normal | Yellow | Blue | Red | RedThrough

  /** What `cmd_list` asks about one template's location. */
  datatype Probe = Probe(
    isUrl: bool,              // `is_git_url(location)`
    isSymlink: bool,          // `path.is_symlink()`
    pathExists: bool,         // `path.exists()`, following links
    isFile: bool,             // `path.is_file()`
    emptyCheck: Result<bool>, // `is_dir_empty(path)`
    hasGitDir: bool,          // `path.join(".git").exists()`
    cacheHasRepo: bool,       // for a URL: the cache path resolves and holds ".git"
    refExists: bool,          // `git::ref_exists(repo, ref)`
    refKind: RefKind)         // `git::classify_ref(repo, ref)`

  /** The six flags of a row, computed as in the source. */
  datatype Flags = Flags(isSym: bool, isBrokenSym: bool, isMissing: bool, isFile: bool, isEmpty: bool, hasNoGit: bool)

  function ComputeFlags(p: Probe): (f: Flags)
    // A URL is never inspected on disk.
    ensures p.isUrl ==> f == Flags(false, false, false, false, false, false)
    // A location is missing or a broken link, never both.
    ensures !(f.isMissing && f.isBrokenSym)
    ensures f.isFile ==> !f.isMissing && !f.isBrokenSym && !f.isSym
    ensures f.isEmpty ==> !f.isMissing && !f.isBrokenSym && !f.isFile
    ensures f.hasNoGit ==> !f.isMissing && !f.isBrokenSym && !f.isFile && !f.isEmpty && !p.hasGitDir
  {
    var isSym := !p.isUrl && p.isSymlink;
    var isBrokenSym := isSym && !p.pathExists;
    var isMissing := !p.isUrl && !isSym && !p.pathExists;
    var isFile := !p.isUrl && !isMissing && !isBrokenSym && !isSym && p.isFile;
    var isEmpty := !p.isUrl && !isMissing && !isBrokenSym && !isFile
      && (if p.emptyCheck.Ok? then p.emptyCheck.value else false);
    var hasNoGit := !p.isUrl && !isMissing && !isBrokenSym && !isFile && !isEmpty && !p.hasGitDir;
    Flags(isSym, isBrokenSym, isMissing, isFile, isEmpty, hasNoGit)
  }

  /** The ref a row shows: the pinned commit, else the git ref. */
  function ShownRef(t: Template): (r: Option<string>)
    ensures t.commit.Some? ==> r == t.commit
    ensures t.commit.None? ==> r == t.gitRef
  {
    if t.commit.Some? then t.commit else t.gitRef
  }

  /** The status text and style of one row: a blank status is exactly the
      unstyled one, and every other status is a parenthesised note. */
  function Status(t: Template, p: Probe): (r: (string, Style))
    ensures r.0 == "" <==> r.1 == Normal
    ensures r.0 != "" ==> r.0[0] == '(' && r.0[|r.0| - 1] == ')'
  {
    var f := ComputeFlags(p);
    if f.isMissing then ("(folder missing)", RedThrough)
    else if f.isBrokenSym then ("(symlink broken)", RedThrough)
    else if f.isEmpty then ("(folder empty)", Red)
    else if ShownRef(t).Some? then
      var refVal := ShownRef(t).value;
      var hasRepo := if p.isUrl then p.cacheHasRepo else p.hasGitDir;
      if !hasRepo then
        ((if t.commit.Some? then "(at git commit " + refVal + ")" else "(git ref " + refVal + ")"), Blue)
      else if !p.refExists then ("(git " + refVal + " missing)", Red)
      else if t.commit.Some? then ("(at git commit " + refVal + ")", Blue)
      else
        match p.refKind
        case Branch => ("(in git branch " + refVal + ")", Blue)
        case Tag => ("(at git tag " + refVal + ")", Blue)
        case Commit => ("(at git commit " + refVal + ")", Blue)
    else if f.isFile then ("(single file)", Blue)
    else if f.isSym then ("(symlink)", Blue)
    else if f.hasNoGit then ("(no git)", Yellow)
    else ("", Normal)
  }

  /** Struck-through red marks exactly the locations that are gone. */
  lemma StruckThroughIffGone(t: Template, p: Probe)
    ensures Status(t, p).1 == RedThrough <==> ComputeFlags(p).isMissing || ComputeFlags(p).isBrokenSym
  {
  }

  /** The location's own state comes first: a missing folder, then a broken
      link, then an empty folder; next, a ref without a repository to look in
      is shown as it is. */
  lemma StatusPrecedence(t: Template, p: Probe)
    ensures var f := ComputeFlags(p);
      && (f.isMissing ==> Status(t, p) == ("(folder missing)", RedThrough))
      && (f.isBrokenSym ==> Status(t, p) == ("(symlink broken)", RedThrough))
      && (!f.isMissing && !f.isBrokenSym && f.isEmpty ==> Status(t, p) == ("(folder empty)", Red))
      && (!f.isMissing && !f.isBrokenSym && !f.isEmpty && t.commit.None? && t.gitRef.Some?
          && !(if p.isUrl then p.cacheHasRepo else p.hasGitDir)
          ==> Status(t, p) == ("(git ref " + t.gitRef.value + ")", Blue))
  {
  }

  /** A URL is never reported as missing, broken, empty, a file, a link or
      without git: it shows its ref or nothing. */
  lemma UrlStatus(t: Template, p: Probe)
    requires p.isUrl
    ensures Status(t, p).1 in {Blue, Red, Normal}
    ensures ShownRef(t).None? ==> Status(t, p) == ("", Normal)
  {
  }

  /** A pinned commit is shown as a commit whatever `git_ref` says, unless the
      location is gone or empty, or the repository lacks it. */
  lemma CommitShownAsCommit(t: Template, p: Probe)
    requires t.commit.Some?
    requires var f := ComputeFlags(p); !f.isMissing && !f.isBrokenSym && !f.isEmpty
    ensures var hasRepo := if p.isUrl then p.cacheHasRepo else p.hasGitDir;
      Status(t, p) == (if hasRepo && !p.refExists then ("(git " + t.commit.value + " missing)", Red)
        else ("(at git commit " + t.commit.value + ")", Blue))
  {
  }

  /** A git ref that an existing repository does not have is red; one it has
      is labelled by its kind. */
  lemma RefLabelledByKind(t: Template, p: Probe)
    requires t.commit.None? && t.gitRef.Some?
    requires var f := ComputeFlags(p); !f.isMissing && !f.isBrokenSym && !f.isEmpty
    requires if p.isUrl then p.cacheHasRepo else p.hasGitDir
    ensures !p.refExists ==> Status(t, p) == ("(git " + t.gitRef.value + " missing)", Red)
    ensures p.refExists && p.refKind == Branch ==> Status(t, p) == ("(in git branch " + t.gitRef.value + ")", Blue)
    ensures p.refExists && p.refKind == Tag ==> Status(t, p) == ("(at git tag " + t.gitRef.value + ")", Blue)
    ensures p.refExists && p.refKind == Commit ==> Status(t, p) == ("(at git commit " + t.gitRef.value + ")", Blue)
  {
  }

  /** The statuses that follow the ref check apply only to unpinned
      templates, in the order file, link, no git. */
  lemma UnpinnedLocalStatus(t: Template, p: Probe)
    requires ShownRef(t).None?
    requires var f := ComputeFlags(p); !f.isMissing && !f.isBrokenSym && !f.isEmpty
    ensures var f := ComputeFlags(p);
      && (f.isFile ==> Status(t, p) == ("(single file)", Blue))
      && (!f.isFile && f.isSym ==> Status(t, p) == ("(symlink)", Blue))
      && (!f.isFile && !f.isSym && f.hasNoGit ==> Status(t, p) == ("(no git)", Yellow))
      && (!f.isFile && !f.isSym && !f.hasNoGit ==> Status(t, p) == ("", Normal))
  {
  }

  datatype Row = Row(name: string, desc: string, location: string, status: string, style: Style)

  function MakeRow(t: Template, p: Probe): (r: Row)
    ensures r.name == t.name && r.location == t.location
    ensures r.desc == (if t.description.Some? then t.description.value else "")
    ensures (r.status, r.style) == Status(t, p)
  {
    var (status, style) := Status(t, p);
    Row(t.name, if t.description.Some? then t.description.value else "", t.location, status, style)
  }

  /** `UnicodeWidthStr::width`: the sum of the characters' widths. */
  function Width(s: string, charWidth: char -> nat): nat
  {
    if s == [] then 0 else Width(s[..|s| - 1], charWidth) + charWidth(s[|s| - 1])
  }

  lemma {:induction false} WidthAppend(a: string, b: string, charWidth: char -> nat)
    ensures Width(a + b, charWidth) == Width(a, charWidth) + Width(b, charWidth)
    decreases |b|
  {
    if b != [] {
      assert (a + b)[..|a + b| - 1] == a + b[..|b| - 1];
      WidthAppend(a, b[..|b| - 1], charWidth);
    } else {
      assert a + b == a;
    }
  }

  lemma {:induction false} WidthSpaces(n: nat, charWidth: char -> nat)
    requires charWidth(' ') == 1
    ensures Width(Spaces(n), charWidth) == n
  {
    if n > 0 {
      assert Spaces(n) == Spaces(n - 1) + " ";
      WidthAppend(Spaces(n - 1), " ", charWidth);
      WidthSpaces(n - 1, charWidth);
    }
  }

  /** The `pad` closure: append spaces up to width `w`, none when the text is
      already as wide. */
  function Pad(s: string, w: nat, charWidth: char -> nat): (r: string)
    ensures IsPrefixOf(s, r)
  {
    var n := if w > Width(s, charWidth) then w - Width(s, charWidth) else 0;
    s + Spaces(n)
  }

  predicate IsPrefixOf(p: string, s: string)
  {
    |p| <= |s| && s[..|p|] == p
  }

  /** A padded cell is as wide as the wider of the text and the column. */
  lemma PadWidth(s: string, w: nat, charWidth: char -> nat)
    requires charWidth(' ') == 1
    ensures Width(Pad(s, w, charWidth), charWidth) == if Width(s, charWidth) >= w then Width(s, charWidth) else w
  {
    var n := if w > Width(s, charWidth) then w - Width(s, charWidth) else 0;
    WidthAppend(s, Spaces(n), charWidth);
    WidthSpaces(n, charWidth);
  }

  /** The widest of the cells and the header. */
  function ColumnWidth(cells: seq<string>, header: string, charWidth: char -> nat): (w: nat)
    ensures w >= Width(header, charWidth)
    ensures forall i :: 0 <= i < |cells| ==> w >= Width(cells[i], charWidth)
    ensures w == Width(header, charWidth) || exists i :: 0 <= i < |cells| && w == Width(cells[i], charWidth)
  {
    if cells == [] then Width(header, charWidth)
    else
      var rest := ColumnWidth(cells[1..], header, charWidth);
      assert forall i :: 1 <= i < |cells| ==> cells[i] == cells[1..][i - 1];
      var w0 := Width(cells[0], charWidth);
      if w0 > rest then w0 else rest
  }

  function Names(rows: seq<Row>): (r: seq<string>)
    ensures |r| == |rows| && forall i :: 0 <= i < |rows| ==> r[i] == rows[i].name
  {
    if rows == [] then [] else [rows[0].name] + Names(rows[1..])
  }

  function Statuses(rows: seq<Row>): (r: seq<string>)
    ensures |r| == |rows| && forall i :: 0 <= i < |rows| ==> r[i] == rows[i].status
  {
    if rows == [] then [] else [rows[0].status] + Statuses(rows[1..])
  }

  function Descriptions(rows: seq<Row>): (r: seq<string>)
    ensures |r| == |rows| && forall i :: 0 <= i < |rows| ==> r[i] == rows[i].desc
  {
    if rows == [] then [] else [rows[0].desc] + Descriptions(rows[1..])
  }

  function Locations(rows: seq<Row>): (r: seq<string>)
    ensures |r| == |rows| && forall i :: 0 <= i < |rows| ==> r[i] == rows[i].location
  {
    if rows == [] then [] else [rows[0].location] + Locations(rows[1..])
  }

  /** The four column widths. */
  datatype Widths = Widths(name: nat, status: nat, desc: nat, location: nat)

  function ColumnWidths(rows: seq<Row>, charWidth: char -> nat): Widths
  {
    Widths(ColumnWidth(Names(rows), "NAME", charWidth), ColumnWidth(Statuses(rows), "STATUS", charWidth),
      ColumnWidth(Descriptions(rows), "DESCRIPTION", charWidth), ColumnWidth(Locations(rows), "LOCATION", charWidth))
  }

  /** One printed line, with the style it is printed in. */
  datatype Line = Line(text: string, style: Style)

  function RenderRow(row: Row, ws: Widths, charWidth: char -> nat): (r: Line)
    ensures IsPrefixOf(row.name, r.text) && r.style == row.style
  {
    var cell := Pad(row.name, ws.name, charWidth);
    assert forall tail: string :: (cell + tail)[..|row.name|] == cell[..|row.name|];
    Line(Pad(row.name, ws.name, charWidth) + "  " + Pad(row.status, ws.status, charWidth) + "  "
      + Pad(row.desc, ws.desc, charWidth) + "  " + row.location, row.style)
  }

  function HeaderLine(ws: Widths, charWidth: char -> nat): Line
  {
    Line(Pad("NAME", ws.name, charWidth) + "  " + Pad("STATUS", ws.status, charWidth) + "  "
      + Pad("DESCRIPTION", ws.desc, charWidth) + "  " + "LOCATION", Normal)
  }

  function RenderRows(rows: seq<Row>, ws: Widths, charWidth: char -> nat): (r: seq<Line>)
    ensures |r| == |rows| && forall i :: 0 <= i < |rows| ==> r[i] == RenderRow(rows[i], ws, charWidth)
  {
    if rows == [] then [] else [RenderRow(rows[0], ws, charWidth)] + RenderRows(rows[1..], ws, charWidth)
  }

  function MakeRows(templates: seq<Template>, probe: Template -> Probe): (r: seq<Row>)
    ensures |r| == |templates| && forall i :: 0 <= i < |r| ==> r[i] == MakeRow(templates[i], probe(templates[i]))
  {
    if templates == [] then [] else [MakeRow(templates[0], probe(templates[0]))] + MakeRows(templates[1..], probe)
  }

  /** Each rendered line starts with its template's name and carries the
      style of its status. */
  lemma RenderedRows(templates: seq<Template>, probe: Template -> Probe, ws: Widths, charWidth: char -> nat)
    ensures var lines := RenderRows(MakeRows(templates, probe), ws, charWidth);
      forall i :: 0 <= i < |templates| ==>
        IsPrefixOf(templates[i].name, lines[i].text) && lines[i].style == Status(templates[i], probe(templates[i])).1
  {
    var rows := MakeRows(templates, probe);
    forall i | 0 <= i < |templates|
      ensures IsPrefixOf(templates[i].name, RenderRows(rows, ws, charWidth)[i].text)
      ensures RenderRows(rows, ws, charWidth)[i].style == Status(templates[i], probe(templates[i])).1
    {
      assert RenderRows(rows, ws, charWidth)[i] == RenderRow(rows[i], ws, charWidth);
    }
  }

  const EMPTY_HINT: string := "no templates available: use `templative add <FOLDER>` to add a template"

  /** What `cmd_list` prints for the loaded templates: a hint when there are
      none, otherwise the header and one line per template in name order. */
  function ListLines(templates: map<string, Template>, probe: Template -> Probe, charWidth: char -> nat): (r: seq<Line>)
    ensures templates == map[] ==> r == [Line(EMPTY_HINT, Normal)]
    ensures templates != map[] ==> |r| == |templates| + 1
    // After the header, one line per template in name order, starting with
    // its name and styled by its status.
    ensures templates != map[] ==> r[0].style == Normal && forall i :: 0 <= i < |templates| ==>
      IsPrefixOf(InNameOrder(templates)[i].name, r[i + 1].text)
      && r[i + 1].style == Status(InNameOrder(templates)[i], probe(InNameOrder(templates)[i])).1
  {
    if templates == map[] then [Line(EMPTY_HINT, Normal)]
    else
      var sorted := InNameOrder(templates);
      var rows := MakeRows(sorted, probe);
      var ws := ColumnWidths(rows, charWidth);
      RenderedRows(sorted, probe, ws, charWidth);
      [HeaderLine(ws, charWidth)] + RenderRows(rows, ws, charWidth)
  }

  /** Every cell of the first three columns is padded to exactly its column's
      width, so the columns line up. */
  lemma {:induction false} ColumnsAligned(rows: seq<Row>, charWidth: char -> nat, i: nat)
    requires charWidth(' ') == 1 && i < |rows|
    ensures var ws := ColumnWidths(rows, charWidth);
      && Width(Pad(rows[i].name, ws.name, charWidth), charWidth) == ws.name
      && Width(Pad(rows[i].status, ws.status, charWidth), charWidth) == ws.status
      && Width(Pad(rows[i].desc, ws.desc, charWidth), charWidth) == ws.desc
  {
    var ws := ColumnWidths(rows, charWidth);
    assert Names(rows)[i] == rows[i].name;
    assert Statuses(rows)[i] == rows[i].status;
    assert Descriptions(rows)[i] == rows[i].desc;
    PadWidth(rows[i].name, ws.name, charWidth);
    PadWidth(rows[i].status, ws.status, charWidth);
    PadWidth(rows[i].desc, ws.desc, charWidth);
  }

  /** The header cells are padded to the same widths. */
  lemma HeaderAligned(rows: seq<Row>, charWidth: char -> nat)
    requires charWidth(' ') == 1
    ensures var ws := ColumnWidths(rows, charWidth);
      && Width(Pad("NAME", ws.name, charWidth), charWidth) == ws.name
      && Width(Pad("STATUS", ws.status, charWidth), charWidth) == ws.status
      && Width(Pad("DESCRIPTION", ws.desc, charWidth), charWidth) == ws.desc
  {
    var ws := ColumnWidths(rows, charWidth);
    PadWidth("NAME", ws.name, charWidth);
    PadWidth("STATUS", ws.status, charWidth);
    PadWidth("DESCRIPTION", ws.desc, charWidth);
  }

  /** `cmd_list`: load the registry, then print its table. */
  method CmdList(fs: FileSystem, projectDir: Option<Path>, codec: Codec<RegistryData<Template>>,
                 probe: Template -> Probe, charWidth: char -> nat) returns (r: Result<seq<Line>>)
    requires fs.Valid()
    modifies fs
    ensures fs.Valid()
    ensures projectDir.None? ==> r.Err?
    ensures projectDir.Some? ==> var loaded := LoadFromPath(old(fs.nodes), RegistryPath(projectDir.value), codec);
      && (loaded.Err? ==> r == Err(loaded.error))
      && (r.Ok? ==> loaded.Ok? && r.value == ListLines(loaded.value.templates, probe, charWidth))
    // Listing succeeds exactly when the registry loads; the only change it can
    // make is writing a missing registry file.
    ensures r.Ok? <==> Loadable(old(fs.nodes), projectDir, codec)
    ensures r.Ok? ==> r.value == ListLines(Loaded(old(fs.nodes), projectDir, codec).templates, probe, charWidth)
    ensures r.Ok? ==> fs.nodes == AfterLoad(old(fs.nodes), projectDir, codec)
    ensures projectDir.Some? ==> OnlySaveTouched(old(fs.nodes), fs.nodes, RegistryPath(projectDir.value))
    ensures projectDir.Some? && RegistryPath(projectDir.value) in old(fs.nodes) ==> fs.nodes == old(fs.nodes)
  {
    var registry := Load(fs, projectDir, codec);
    if registry.Err? {
      return Err(registry.error);
    }
    r := Ok(ListLines(registry.value.templates, probe, charWidth));
  }
}
