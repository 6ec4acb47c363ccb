/**
 * One block document and its file path, as create_yaml_files builds them for a
 * single (family, size) pair: a hand-written YAML text and an os.path.join.
 */
module Blocks {
  import opened Ascii
  import opened Lines

  /** The directory every block file is written under. */
  const BasePath: string := "./blocks/public"

  /** The provider stamped into every model entry. */
  const Provider: string := "ollama"

  /** The `name` value: lower-cased family, a space, lower-cased size. */
  function DisplayName(family: string, size: string): string {
    Lower(family) + " " + Lower(size)
  }

  /** The `model` value: lower-cased family, a colon, lower-cased size. */
  function ModelId(family: string, size: string): string {
    Lower(family) + ":" + Lower(size)
  }

  /**
   * Lower-casing each placeholder, as the f-string does, gives the same
   * `name` and `model` values as lower-casing the joined text.
   */
  lemma NameFieldsLower(family: string, size: string)
    ensures DisplayName(family, size) == Lower(family + " " + size)
    ensures ModelId(family, size) == Lower(family + ":" + size)
  {
    LowerFixedIff(" ");
    LowerFixedIff(":");
    LowerAppend(family, " ");
    LowerAppend(family + " ", size);
    LowerAppend(family, ":");
    LowerAppend(family + ":", size);
  }

  /** The fixed part of the document, up to and including the `roles:` key. */
  function Header(family: string, size: string, version: string): string {
    Line("---")
    + Line("name: " + DisplayName(family, size))
    + Line("version: " + version)
    + Line("models:")
    + Line("- name: " + DisplayName(family, size))
    + Line("  provider: " + Provider)
    + Line("  model: " + ModelId(family, size))
    + Line("  roles:")
  }

  /** The list item appended for one role. */
  function RoleLine(role: string): string {
    Line("    - " + Lower(role))
  }

  /** The role items, one per role, in the order given. */
  function RoleLines(roles: seq<string>): (t: string)
    ensures roles == [] <==> t == []
    ensures roles != [] ==> t[|t| - 1] == '\n'
  {
    if roles == [] then "" else RoleLine(roles[0]) + RoleLines(roles[1..])
  }

  /** The whole document for one (family, size) pair. */
  function RenderBlock(family: string, size: string, roles: seq<string>, version: string): (doc: string)
  {
    Header(family, size, version) + RoleLines(roles)
  }

  /** The roles with each one lower-cased, as they appear in the document. */
  function LowerAll(roles: seq<string>): seq<string> {
    seq(|roles|, k requires 0 <= k < |roles| => Lower(roles[k]))
  }

  /** The fixed lines of the document: the `---` marker and the seven lines after it. */
  function HeaderLines(family: string, size: string, version: string): seq<string> {
    [ "---",
      "name: " + DisplayName(family, size),
      "version: " + version,
      "models:",
      "- name: " + DisplayName(family, size),
      "  provider: " + Provider,
      "  model: " + ModelId(family, size),
      "  roles:" ]
  }

  /** The list items, one `    - <role>` line per role, lower-cased and in order. */
  function RoleItems(roles: seq<string>): seq<string> {
    seq(|roles|, k requires 0 <= k < |roles| => "    - " + Lower(roles[k]))
  }

  /** The document described line by line: the fixed lines, then one list item per role. */
  function DocLines(family: string, size: string, roles: seq<string>, version: string): seq<string> {
    HeaderLines(family, size, version) + RoleItems(roles)
  }

  /** os.path.join of two POSIX path components. */
  function PathJoin(a: string, b: string): string {
    if |b| > 0 && b[0] == '/' then b
    else if a == [] || a[|a| - 1] == '/' then a + b
    else a + "/" + b
  }

  /** The file name of a block: family and size as written, joined by a dash. */
  function FileName(family: string, size: string): string {
    family + "-" + size + ".yaml"
  }

  /** The file a block is written to: the file name under BasePath, unless the family starts with '/'. */
  function BlockPath(family: string, size: string): (p: string)
    ensures (family == [] || family[0] != '/') ==> p == BasePath + "/" + FileName(family, size)
    ensures (family != [] && family[0] == '/') ==> p == FileName(family, size)
  {
    PathJoin(BasePath, FileName(family, size))
  }

  // ----- Role lines -----

  /** Appending a role appends its item: the loop that builds the text with `+=` meets RoleLines. */
  lemma {:induction false} RoleLinesSnoc(roles: seq<string>, role: string)
    ensures RoleLines(roles + [role]) == RoleLines(roles) + RoleLine(role)
  {
    if roles == [] {
      assert roles + [role] == [role];
    } else {
      assert (roles + [role])[1..] == roles[1..] + [role];
      RoleLinesSnoc(roles[1..], role);
    }
  }

  /** The role items are exactly the lines `    - <lower(role)>`, in order. */
  lemma {:induction false} RoleLinesAsLines(roles: seq<string>)
    ensures RoleLines(roles) == Unlines(RoleItems(roles))
  {
    if roles != [] {
      RoleLinesAsLines(roles[1..]);
      assert RoleItems(roles)[1..] == RoleItems(roles[1..]);
    }
  }

  /** Lower-casing the roles first does not change the role items. */
  lemma {:induction false} RoleLinesLowerAll(roles: seq<string>)
    ensures RoleLines(LowerAll(roles)) == RoleLines(roles)
  {
    if roles != [] {
      assert LowerAll(roles)[1..] == LowerAll(roles[1..]);
      LowerIdempotent(roles[0]);
      RoleLinesLowerAll(roles[1..]);
    }
  }

  // ----- The document -----

  /** The fixed part of the text is the fixed lines, each ended by a newline. */
  lemma HeaderIsUnlines(family: string, size: string, version: string)
    ensures Header(family, size, version) == Unlines(HeaderLines(family, size, version))
  {
    var fixed := HeaderLines(family, size, version);
    UnlinesEight(fixed[0], fixed[1], fixed[2], fixed[3], fixed[4], fixed[5], fixed[6], fixed[7]);
    assert fixed == [fixed[0], fixed[1], fixed[2], fixed[3], fixed[4], fixed[5], fixed[6], fixed[7]];
  }

  /** The rendered text is the document's lines, each ended by a newline, and nothing else. */
  lemma RenderBlockIsUnlines(family: string, size: string, roles: seq<string>, version: string)
    ensures RenderBlock(family, size, roles, version) == Unlines(DocLines(family, size, roles, version))
  {
    UnlinesAppend(HeaderLines(family, size, version), RoleItems(roles));
    HeaderIsUnlines(family, size, version);
    RoleLinesAsLines(roles);
  }

  /** Joining two newline-free pieces gives a newline-free piece. */
  lemma NoNewlineAppend(a: string, b: string)
    requires NoNewline(a) && NoNewline(b)
    ensures NoNewline(a + b)
  {
  }

  /** Lower-casing never introduces a newline. */
  lemma NoNewlineLower(s: string)
    requires NoNewline(s)
    ensures NoNewline(Lower(s))
  {
  }

  /** The fixed lines hold no newline when family, size and version hold none. */
  lemma HeaderLinesNoNewline(family: string, size: string, version: string)
    requires NoNewline(family) && NoNewline(size) && NoNewline(version)
    ensures forall k :: 0 <= k < |HeaderLines(family, size, version)| ==> NoNewline(HeaderLines(family, size, version)[k])
  {
    NoNewlineLower(family);
    NoNewlineLower(size);
    NoNewlineAppend(Lower(family), " ");
    NoNewlineAppend(Lower(family) + " ", Lower(size));
    NoNewlineAppend(Lower(family), ":");
    NoNewlineAppend(Lower(family) + ":", Lower(size));
    NoNewlineAppend("name: ", DisplayName(family, size));
    NoNewlineAppend("- name: ", DisplayName(family, size));
    NoNewlineAppend("  model: ", ModelId(family, size));
    NoNewlineAppend("version: ", version);
  }

  /** The role items hold no newline when the roles hold none. */
  lemma RoleItemsNoNewline(roles: seq<string>)
    requires forall k :: 0 <= k < |roles| ==> NoNewline(roles[k])
    ensures forall k :: 0 <= k < |RoleItems(roles)| ==> NoNewline(RoleItems(roles)[k])
  {
  }

  /**
   * When no input holds a newline, the document reads back as exactly
   * 8 + |roles| lines: `---`, the seven fixed lines in order, then one item per role.
   */
  lemma RenderBlockLines(family: string, size: string, roles: seq<string>, version: string)
    requires NoNewline(family) && NoNewline(size) && NoNewline(version)
    requires forall k :: 0 <= k < |roles| ==> NoNewline(roles[k])
    ensures SplitLines(RenderBlock(family, size, roles, version)) == DocLines(family, size, roles, version)
    ensures |SplitLines(RenderBlock(family, size, roles, version))| == 8 + |roles|
  {
    var h, items := HeaderLines(family, size, version), RoleItems(roles);
    RenderBlockIsUnlines(family, size, roles, version);
    HeaderLinesNoNewline(family, size, version);
    RoleItemsNoNewline(roles);
    assert forall k :: 0 <= k < |h + items| ==> (h + items)[k] == if k < |h| then h[k] else items[k - |h|];
    SplitUnlines(h + items);
  }

  /** The document opens with the `---` marker line and its last line is terminated. */
  lemma RenderBlockFrame(family: string, size: string, roles: seq<string>, version: string)
    ensures |RenderBlock(family, size, roles, version)| > 4
    ensures RenderBlock(family, size, roles, version)[..4] == "---\n"
    ensures RenderBlock(family, size, roles, version)[|RenderBlock(family, size, roles, version)| - 1] == '\n'
  {
  }

  /** The document depends only on the lower-cased family, size and roles; the version is kept verbatim. */
  lemma RenderBlockLowerInvariant(family: string, size: string, roles: seq<string>, version: string)
    ensures RenderBlock(Lower(family), Lower(size), LowerAll(roles), version) == RenderBlock(family, size, roles, version)
  {
    LowerIdempotent(family);
    LowerIdempotent(size);
    RoleLinesLowerAll(roles);
  }

  // ----- The path -----

  /** Equal texts whose first parts have equal length agree on both parts. */
  lemma ConcatCancel(a: string, b: string, q1: string, q2: string)
    requires a + q1 == b + q2
    requires |a| == |b|
    ensures a == b && q1 == q2
  {
    assert a == (a + q1)[..|a|];
    assert q1 == (a + q1)[|a|..];
  }

  /** File names of equally long families are equal only when both family and size are. */
  lemma FileNameCancel(f1: string, s1: string, f2: string, s2: string)
    requires |f1| == |f2|
    requires FileName(f1, s1) == FileName(f2, s2)
    ensures f1 == f2 && s1 == s2
  {
    var x := FileName(f1, s1);
    assert |s1| == |s2|;
    assert f1 == x[..|f1|];
    assert f2 == FileName(f2, s2)[..|f2|];
    assert s1 == x[|f1| + 1..|f1| + 1 + |s1|];
    assert s2 == FileName(f2, s2)[|f2| + 1..|f2| + 1 + |s2|];
  }

  /**
   * Unlike the document, the path keeps the case of family and size: lower-casing
   * them leaves the path unchanged exactly when neither has an upper-case letter.
   */
  lemma BlockPathCaseSensitive(family: string, size: string)
    ensures BlockPath(Lower(family), Lower(size)) == BlockPath(family, size)
        <==> IsLowerCase(family) && IsLowerCase(size)
  {
    LowerFixedIff(family);
    LowerFixedIff(size);
    var lf, ls := Lower(family), Lower(size);
    if BlockPath(lf, ls) == BlockPath(family, size) {
      assert (family == []) == (lf == []);
      assert family != [] ==> (family[0] == '/' <==> lf[0] == '/');
      if family == [] || family[0] != '/' {
        ConcatCancel(BasePath + "/", BasePath + "/", FileName(lf, ls), FileName(family, size));
      }
      FileNameCancel(lf, ls, family, size);
    }
  }

  /** A size label without a dash: the file name then splits back at its last dash. */
  predicate NoDash(s: string) {
    '-' !in s
  }

  /** If the file names agree and s1 is the shorter size, the dash before s1 falls inside s2. */
  lemma FileNameDashInSize(f1: string, s1: string, f2: string, s2: string)
    requires FileName(f1, s1) == FileName(f2, s2)
    requires |s1| < |s2|
    ensures !NoDash(s2)
  {
    var x := FileName(f1, s1);
    assert x[|f1|] == '-';
    assert x[|f2| + 1..|f2| + 1 + |s2|] == s2;
    assert s2[|f1| - |f2| - 1] == '-';
  }

  /** If the file names agree, a dash-free size is no longer than the other. */
  lemma FileNameSizeLength(f1: string, s1: string, f2: string, s2: string)
    requires NoDash(s2)
    requires FileName(f1, s1) == FileName(f2, s2)
    ensures |s2| <= |s1|
  {
    if |s1| < |s2| {
      FileNameDashInSize(f1, s1, f2, s2);
      assert false;
    }
  }

  /** With dash-free size labels, different (family, size) pairs get different file names. */
  lemma FileNameInjective(f1: string, s1: string, f2: string, s2: string)
    requires NoDash(s1) && NoDash(s2)
    requires FileName(f1, s1) == FileName(f2, s2)
    ensures f1 == f2 && s1 == s2
  {
    FileNameSizeLength(f1, s1, f2, s2);
    FileNameSizeLength(f2, s2, f1, s1);
    FileNameCancel(f1, s1, f2, s2);
  }

  /** With dash-free size labels, different (family, size) pairs are written to different paths. */
  lemma BlockPathInjective(f1: string, s1: string, f2: string, s2: string)
    requires NoDash(s1) && NoDash(s2)
    requires BlockPath(f1, s1) == BlockPath(f2, s2)
    ensures f1 == f2 && s1 == s2
  {
    var rel1 := f1 == [] || f1[0] != '/';
    var rel2 := f2 == [] || f2[0] != '/';
    if rel1 && rel2 {
      ConcatCancel(BasePath + "/", BasePath + "/", FileName(f1, s1), FileName(f2, s2));
    }
    FileNameInjective(f1, s1, f2, s2);
  }

  /** A dash inside a size label lets two different pairs share one path. */
  lemma BlockPathCollision()
    ensures BlockPath("a-b", "c") == BlockPath("a", "b-c")
  {
  }
}
