/**
 * create_yaml_files: for every (family, size) pair of the catalog, render the
 * block document, compute its path, try to write it and log the outcome.
 * The file system is an oracle: writeOk(k) tells whether the k-th write goes
 * through. The method records every write attempt and every log record.
 */
module GenBlocks {
  import opened Ascii
  import opened Lines
  import opened Blocks
  import opened Catalog

  datatype Option<T> = None | Some(value: T)

  /** One attempt to write a block file: the path, the text, and whether the write went through. */
  datatype Attempt = Attempt(path: string, content: string, ok: bool)

  /** A log record: a success names family, size and path; a failure names the path. */
  datatype LogEntry = Info(family: string, size: string, path: string) | Error(path: string)

  /** The write attempt for one entry. */
  function AttemptFor(e: Entry, version: string, ok: bool): Attempt {
    Attempt(BlockPath(e.family, e.size), RenderBlock(e.family, e.size, e.roles, version), ok)
  }

  /** The log record for one entry, given the outcome of its write. */
  function LogFor(e: Entry, ok: bool): LogEntry {
    if ok then Info(e.family, e.size, BlockPath(e.family, e.size)) else Error(BlockPath(e.family, e.size))
  }

  /** The attempts for a sequence of entries, the k-th write having outcome writeOk(k). */
  function Planned(es: seq<Entry>, version: string, writeOk: nat -> bool): (r: seq<Attempt>)
    ensures |r| == |es|
  {
    if es == [] then []
    else Planned(es[..|es| - 1], version, writeOk) + [AttemptFor(es[|es| - 1], version, writeOk(|es| - 1))]
  }

  /** The log records for a sequence of entries, the k-th write having outcome writeOk(k). */
  function Logged(es: seq<Entry>, writeOk: nat -> bool): (r: seq<LogEntry>)
    ensures |r| == |es|
  {
    if es == [] then []
    else Logged(es[..|es| - 1], writeOk) + [LogFor(es[|es| - 1], writeOk(|es| - 1))]
  }

  /** The k-th attempt and log record belong to the k-th entry and the k-th write. */
  lemma {:induction false} PlannedAt(es: seq<Entry>, version: string, writeOk: nat -> bool, k: nat)
    requires k < |es|
    ensures Planned(es, version, writeOk)[k] == AttemptFor(es[k], version, writeOk(k))
    ensures Logged(es, writeOk)[k] == LogFor(es[k], writeOk(k))
  {
    if k < |es| - 1 {
      PlannedAt(es[..|es| - 1], version, writeOk, k);
    }
  }

  /** Visiting one more entry adds its attempt and its log record, with the next write outcome. */
  lemma PlannedSnoc(es: seq<Entry>, e: Entry, version: string, writeOk: nat -> bool)
    ensures Planned(es + [e], version, writeOk) == Planned(es, version, writeOk) + [AttemptFor(e, version, writeOk(|es|))]
    ensures Logged(es + [e], writeOk) == Logged(es, writeOk) + [LogFor(e, writeOk(|es|))]
  {
    assert (es + [e])[..|es|] == es;
  }

  /**
   * Visiting size j of a family, after the entries before it, adds one attempt
   * (that size's document at that size's path, with the next write outcome)
   * and the matching log record.
   */
  lemma PlannedStep(before: seq<Entry>, family: Family, j: nat, version: string, writeOk: nat -> bool)
    requires j < |family.variants|
    ensures Planned(before + FamilyEntries(family)[..j + 1], version, writeOk)
         == Planned(before + FamilyEntries(family)[..j], version, writeOk)
            + [AttemptFor(Entry(family.name, family.variants[j].size, family.variants[j].roles), version, writeOk(|before| + j))]
    ensures Logged(before + FamilyEntries(family)[..j + 1], writeOk)
         == Logged(before + FamilyEntries(family)[..j], writeOk)
            + [LogFor(Entry(family.name, family.variants[j].size, family.variants[j].roles), writeOk(|before| + j))]
  {
    var es := FamilyEntries(family);
    assert before + es[..j + 1] == (before + es[..j]) + [es[j]];
    PlannedSnoc(before + es[..j], es[j], version, writeOk);
  }

  /**
   * Builds one document as the source does: the header, then `+=` one item
   * per role.
   */
  method RenderContent(family: string, size: string, roles: seq<string>, version: string)
    returns (content: string)
    ensures content == RenderBlock(family, size, roles, version)
  {
    content := Header(family, size, version);
    ghost var header := content;
    for r := 0 to |roles|
      invariant content == header + RoleLines(roles[..r])
    {
      RoleLinesSnoc(roles[..r], roles[r]);
      assert roles[..r + 1] == roles[..r] + [roles[r]];
      content := content + RoleLine(roles[r]);
    }
    assert roles[..|roles|] == roles;
  }

  /**
   * Handles one (family, size) pair: renders its document, joins its path,
   * writes the file (the write going through exactly when ok holds) and
   * produces the log record for the outcome.
   */
  method WriteBlock(family: string, size: string, roles: seq<string>, version: string, ok: bool)
    returns (attempt: Attempt, record: LogEntry)
    ensures attempt == AttemptFor(Entry(family, size, roles), version, ok)
    ensures record == LogFor(Entry(family, size, roles), ok)
    ensures record.path == attempt.path && (record.Info? <==> attempt.ok)
  {
    var content := RenderContent(family, size, roles, version);
    var path := BlockPath(family, size);
    attempt := Attempt(path, content, ok);
    record := if ok then Info(family, size, path) else Error(path);
  }

  /**
   * Walks the catalog family by family and size by size. Every pair gets one
   * write attempt; a failed write is logged and the walk goes on with the next pair.
   */
  method CreateYamlFiles(models: Catalog, version: string, writeOk: nat -> bool)
    returns (attempts: seq<Attempt>, logs: seq<LogEntry>)
    ensures |attempts| == |logs| == TotalSizes(models)
    ensures forall k :: 0 <= k < |attempts| ==> attempts[k] == AttemptFor(Flatten(models)[k], version, writeOk(k))
    ensures forall k :: 0 <= k < |logs| ==> logs[k] == LogFor(Flatten(models)[k], writeOk(k))
  {
    attempts, logs := [], [];
    for i := 0 to |models|
      invariant attempts == Planned(Flatten(models[..i]), version, writeOk)
      invariant logs == Logged(Flatten(models[..i]), writeOk)
    {
      var family := models[i];
      ghost var before := Flatten(models[..i]);
      ghost var entries := FamilyEntries(family);
      assert before + entries[..0] == before;
      for j := 0 to |family.variants|
        invariant attempts == Planned(before + entries[..j], version, writeOk)
        invariant logs == Logged(before + entries[..j], writeOk)
      {
        var attempt, record := WriteBlock(family.name, family.variants[j].size, family.variants[j].roles,
                                          version, writeOk(|attempts|));
        PlannedStep(before, family, j, version, writeOk);
        attempts := attempts + [attempt];
        logs := logs + [record];
      }
      assert Flatten(models[..i + 1]) == before + entries[..|family.variants|] by {
        assert entries[..|family.variants|] == entries;
        FlattenStep(models, i);
      }
    }
    assert Flatten(models[..|models|]) == Flatten(models) by {
      assert models[..|models|] == models;
    }
    forall k | 0 <= k < |attempts|
      ensures attempts[k] == AttemptFor(Flatten(models)[k], version, writeOk(k))
      ensures logs[k] == LogFor(Flatten(models)[k], writeOk(k))
    {
      PlannedAt(Flatten(models), version, writeOk, k);
    }
  }

  /**
   * An attempt for a lower-case, newline-free pair lands where the
   * lower-cased pair would, and, with a one-line version, its document opens
   * with `---` and carries the version on its third line.
   */
  lemma AttemptShape(e: Entry, version: string, ok: bool)
    requires IsLowerCase(e.family) && IsLowerCase(e.size)
    requires NoNewline(e.family) && NoNewline(e.size)
    requires forall r :: 0 <= r < |e.roles| ==> NoNewline(e.roles[r])
    ensures AttemptFor(e, version, ok).path == BlockPath(Lower(e.family), Lower(e.size))
    ensures NoNewline(version) ==>
      var doc := SplitLines(AttemptFor(e, version, ok).content);
      |doc| >= 8 && doc[0] == "---" && doc[2] == "version: " + version
  {
    BlockPathCaseSensitive(e.family, e.size);
    if NoNewline(version) {
      RenderBlockLines(e.family, e.size, e.roles, version);
    }
  }

  /** The version the command line selects: the `--version` value, or the default. */
  function VersionOf(versionFlag: Option<string>): (v: string)
    ensures versionFlag.None? ==> v == DefaultVersion && NoNewline(v)
  {
    if versionFlag.Some? then versionFlag.value else DefaultVersion
  }

  /**
   * The script's entry point: generate every block of the shipped catalog
   * with the selected version. Sixteen attempts, one per pair, each at a
   * path of its own; with a one-line version, each document reads back as
   * `---`, its name, the version line, and so on.
   */
  method Run(versionFlag: Option<string>, writeOk: nat -> bool)
    returns (attempts: seq<Attempt>, logs: seq<LogEntry>)
    ensures |attempts| == |logs| == 16
    ensures forall k :: 0 <= k < |attempts| ==>
      attempts[k] == AttemptFor(Flatten(Models)[k], VersionOf(versionFlag), writeOk(k))
      && logs[k] == LogFor(Flatten(Models)[k], writeOk(k))
    ensures forall k, l :: 0 <= k < l < |attempts| ==> attempts[k].path != attempts[l].path
    ensures forall k :: 0 <= k < |attempts| ==>
      attempts[k].path == BlockPath(Lower(Flatten(Models)[k].family), Lower(Flatten(Models)[k].size))
    ensures NoNewline(VersionOf(versionFlag)) ==> forall k :: 0 <= k < |attempts| ==>
      var doc := SplitLines(attempts[k].content);
      |doc| >= 8 && doc[0] == "---" && doc[2] == "version: " + VersionOf(versionFlag)
    ensures versionFlag.None? ==> forall k :: 0 <= k < |attempts| ==>
      SplitLines(attempts[k].content)[2] == "version: " + DefaultVersion
  {
    var version := VersionOf(versionFlag);
    attempts, logs := CreateYamlFiles(Models, version, writeOk);
    ModelsCount();
    ModelsUniqueKeys();
    ModelsDashFree();
    FlattenPathsDistinct(Models);
    forall k | 0 <= k < |attempts|
      ensures attempts[k].path == BlockPath(Lower(Flatten(Models)[k].family), Lower(Flatten(Models)[k].size))
      ensures NoNewline(version) ==>
        var doc := SplitLines(attempts[k].content);
        |doc| >= 8 && doc[0] == "---" && doc[2] == "version: " + version
    {
      ModelsEntry(k);
      AttemptShape(Flatten(Models)[k], version, writeOk(k));
    }
  }
}
