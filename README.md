# gen-blocks: a Dafny model of the block generator

`gen-blocks.py` generates one YAML "block" file for each model in a
fixed catalog of Ollama models. The catalog holds six families, for
example `deepseek-r1` and `qwen2.5-coder`. Each family lists sizes,
for example `1.5b` and `7b`, and each size lists the roles that model
supports (`chat`, `edit`, `apply`, `autocomplete`, `embed`).

For every (family, size) pair, `create_yaml_files` works in three steps:

1. It renders a small document: a `---` line, a name line, a version
   line, a one-entry `models:` list naming the `ollama` provider and the
   `family:size` model id, and one `    - role` item per role. The
   family, size and roles are lower-cased in the document.
2. It writes the document to `./blocks/public/<family>-<size>.yaml`.
   The family and size in that path are taken as written.
3. It logs a success or a failure and moves on to the next pair.

`main` picks the version string, either from `--version` or the default
`1.0.0`, and runs the generator over the catalog.

The model has five modules:

- `Ascii`: the case mapping the generator applies, `str.lower` on ASCII.
- `Lines`: newline-terminated text, and reading it back as lines.
- `Blocks`: the document text, the file name and the path. This module
  also covers how the path reacts to case and whether it is injective.
- `Catalog`: the shipped catalog as a value, the family-major walk
  order, and the facts about the shipped catalog that the walk relies
  on.
- `GenBlocks`: the generator itself, written as imperative code.
  - `RenderContent` builds one document. Like the source, it starts from
    the header and appends one item per role.
  - `WriteBlock` is the body of the inner loop for one pair: render,
    join the path, write, log.
  - `CreateYamlFiles` is the nested loop over families and sizes. It
    records every write attempt and every log record. A write-outcome
    oracle `writeOk` stands in for the file system: `writeOk(k)` says
    whether the k-th write succeeds.
  - `Run` is the entry point over the shipped catalog.

The family, size and roles are lower-cased inside the document, while
the file path uses the family and size as written. The document holds no
lines other than the ones `RenderBlockLines` lists.

`BlockPathCaseSensitive` states what the unlowered path means: it
differs from the path of the lower-cased pair exactly when the family or
the size contains an upper-case letter. The shipped
catalog has none, so `Run` proves that its paths agree with the
lower-cased ones.

## Model

| member | source | states |
|---|---|---|
| Ascii.Lower | gen-blocks.py:56-65 | `.lower()` keeps the length, maps each character to its lower-case counterpart, and leaves no upper-case letter |
| Ascii.LowerFixedIff | gen-blocks.py:56 | lower-casing leaves a string unchanged if and only if it has no upper-case letter |
| Ascii.LowerIdempotent | gen-blocks.py:56 | lower-casing twice is the same as lower-casing once |
| Ascii.LowerAppend | gen-blocks.py:56 | lower-casing distributes over concatenation |
| Blocks.NameFieldsLower | gen-blocks.py:56-61 | lowering family and size separately, as the placeholders `{model_name.lower()} {size.lower()}` and `{model_name.lower()}:{size.lower()}` do, gives the lower-cased `family size` and `family:size` |
| Lines.SplitUnlines | gen-blocks.py:55-65 | reading newline-free lines back from the text built by terminating each with `\n` returns exactly those lines |
| Lines.UnlinesSplit | gen-blocks.py:55-65 | text that is empty or ends in `\n` is rebuilt exactly by re-terminating the lines read from it |
| Blocks.Header | gen-blocks.py:55-62 | the eight fixed lines, each ending in a newline: `---`, `name: <f> <s>`, `version: <v>`, `models:`, `- name: <f> <s>`, `  provider: ollama`, `  model: <f>:<s>`, `  roles:`. Family and size are lower-cased; the version is copied as given |
| Blocks.RoleLine | gen-blocks.py:65 | the item appended for one role: `    - `, the lower-cased role, and a newline |
| Blocks.RenderBlock | gen-blocks.py:55-65 | the whole document: the header followed by one role item per role, in order; its shape is proved by the lemmas below |
| Blocks.RoleLines | gen-blocks.py:64-65 | the role items are empty exactly when there are no roles; otherwise they end with a newline |
| Blocks.RoleLinesSnoc | gen-blocks.py:64-65 | one more role appends exactly one `    - role` line at the end (the `+=` step) |
| Blocks.RoleLinesAsLines | gen-blocks.py:64-65 | the role items are the lines `    - <role lower-cased>`, in the order of the roles, each terminated by `\n` |
| Blocks.RoleLinesLowerAll | gen-blocks.py:65 | lower-casing the roles beforehand does not change the role items |
| Blocks.RenderBlockIsUnlines | gen-blocks.py:55-65 | the document is the eight header lines followed by the role items, each terminated by `\n` |
| Blocks.RenderBlockLines | gen-blocks.py:55-65 | when family, size, version and roles hold no newline, the document reads back as exactly 8 + number-of-roles lines: `---`, `name: f s`, `version: v`, `models:`, `- name: f s`, `  provider: ollama`, `  model: f:s`, `  roles:`, then one item per role |
| Blocks.RenderBlockFrame | gen-blocks.py:55-65 | the document opens with `---\n` and ends with a newline |
| Blocks.RenderBlockLowerInvariant | gen-blocks.py:56-65 | the document for a pair is the same as the document for the lower-cased pair and lower-cased roles |
| Blocks.PathJoin | gen-blocks.py:67 | `os.path.join` of two parts on POSIX: the second part alone when it starts with `/`; the plain concatenation when the first part is empty or ends in `/`; otherwise the two parts joined by `/` |
| Blocks.BlockPath | gen-blocks.py:67 | `os.path.join('./blocks/public', f"{family}-{size}.yaml")`: the base path, `/` and the file name; when the family starts with `/`, the file name alone |
| Blocks.BlockPathCaseSensitive | gen-blocks.py:56-67 | the path equals the path of the lower-cased pair if and only if family and size have no upper-case letter |
| Blocks.FileNameInjective | gen-blocks.py:67 | when neither size contains `-`, equal file names come from equal (family, size) pairs |
| Blocks.BlockPathInjective | gen-blocks.py:67 | when neither size contains `-`, equal paths come from equal (family, size) pairs |
| Blocks.BlockPathCollision | gen-blocks.py:67 | without that condition two different pairs can share a path: (`a-b`, `c`) and (`a`, `b-c`) |
| Catalog.Models | gen-blocks.py:13-42 | the shipped catalog: the six families in insertion order, each with its sizes in order and each size with its role list, exactly as written |
| Catalog.DefaultVersion | gen-blocks.py:7 | the default version string `1.0.0` |
| Catalog.Flatten | gen-blocks.py:53-54 | the walk visits as many pairs as the catalog has sizes in total |
| Catalog.FlattenSnoc | gen-blocks.py:53-54 | walking one more family appends exactly that family's sizes, in order |
| Catalog.FlattenStep | gen-blocks.py:53-54 | walking the first i + 1 families is walking the first i, followed by the sizes of family i |
| Catalog.FlattenAt | gen-blocks.py:53-54 | size j of family i is visited at position (sizes of the families before i) + j |
| Catalog.FlattenFrom | gen-blocks.py:53-54 | every visited pair is some size of some family of the catalog |
| Catalog.FlattenPairsDistinct | gen-blocks.py:53-54 | with unique family names and unique sizes within each family, no pair is visited twice |
| Catalog.FlattenPathsDistinct | gen-blocks.py:53-67 | with unique keys and sizes free of `-`, no two visited pairs write the same path |
| Catalog.ModelsFamiliesUnique | gen-blocks.py:13-42 | the shipped catalog names each family once |
| Catalog.ModelsSizesUnique | gen-blocks.py:13-42 | within each shipped family, each size appears once |
| Catalog.ModelsUniqueKeys | gen-blocks.py:13-42 | the shipped catalog has unique keys at both levels, as a Python dict does |
| Catalog.ModelsDashFree | gen-blocks.py:13-42 | no shipped size contains `-` |
| Catalog.ModelsFamiliesLowerCase | gen-blocks.py:13-42 | every shipped family name is already lower-case |
| Catalog.ModelsSizesLowerCase | gen-blocks.py:13-42 | every shipped size is already lower-case |
| Catalog.ModelsFamiliesNoNewline | gen-blocks.py:13-42 | no shipped family name contains a newline |
| Catalog.ModelsSizesNoNewline | gen-blocks.py:13-42 | no shipped size contains a newline |
| Catalog.ModelsRolesNoNewline | gen-blocks.py:13-42 | no shipped role contains a newline |
| Catalog.ModelsCount | gen-blocks.py:13-42 | the shipped catalog has 16 (family, size) pairs |
| Catalog.ModelsRoles | gen-blocks.py:13-42 | every shipped size has at least one role, and every role is one of chat, edit, apply, autocomplete, embed |
| Catalog.ModelsEntry | gen-blocks.py:13-42 | every pair the walk visits over the shipped catalog has a lower-case, newline-free family and size, and newline-free roles |
| GenBlocks.AttemptFor | gen-blocks.py:55-70 | the write attempt for one pair: the pair's document written to the pair's path, with the given outcome |
| GenBlocks.LogFor | gen-blocks.py:71-73 | the log record for one pair: on success an info record with the family and size as written and the path; on failure an error record with the path |
| GenBlocks.PlannedAt | gen-blocks.py:53-73 | the k-th write attempt and the k-th log record belong to the k-th visited pair and the k-th write outcome |
| GenBlocks.PlannedSnoc | gen-blocks.py:53-73 | visiting one more pair adds exactly that pair's attempt and log record, with the next write outcome |
| GenBlocks.PlannedStep | gen-blocks.py:54-73 | visiting size j of a family adds exactly one attempt and one log record, for that family and size and for the next write outcome |
| GenBlocks.RenderContent | gen-blocks.py:55-65 | building the header and then appending one item per role gives the document `RenderBlock` describes |
| GenBlocks.WriteBlock | gen-blocks.py:55-73 | one loop iteration: the attempt writes the pair's document to the pair's path with the given outcome; the log record is for the same path, and it is an info record exactly when the write went through |
| GenBlocks.CreateYamlFiles | gen-blocks.py:44-73 | one write attempt and one log record per visited pair, in family-major order; the k-th attempt writes that pair's document to that pair's path. A successful write logs an info record with the family, size and path; a failed write logs an error with the path, and the walk continues |
| GenBlocks.AttemptShape | gen-blocks.py:55-67 | for a lower-case, newline-free pair, the path matches the lower-cased pair's path; with a one-line version, the document reads back with `---` first and `version: v` third |
| GenBlocks.VersionOf | gen-blocks.py:77 | without `--version` the default `1.0.0` is used, which is a single line |
| GenBlocks.Run | gen-blocks.py:75-80 | the run over the shipped catalog makes 16 attempts, each at a path of its own that matches the lower-cased path. Every document reads back with `---` first and `version: v` third, with `version: 1.0.0` when no version is given |

## Left out

- Creating `./blocks/public` with `os.makedirs` and ignoring `FileExistsError` is not modelled. Directory state is not part of the model.
- CreateYamlFiles and Run: every failure is modelled as a failed write of one file, which is logged, after which the walk goes on. In the source only `IOError` (`OSError`) is caught that way. The model leaves out the exceptions that end the whole run, for these reasons:
  - Any `os.makedirs` failure other than `FileExistsError`, for example `PermissionError`, ends the run before the first attempt, and `Run` would then make no attempts rather than 16.
  - `open` raises `ValueError` for a path with an embedded NUL character.
  - `write` raises `UnicodeEncodeError` for text the locale encoding cannot represent.
  - The shipped catalog is plain ASCII without NUL, so for `Run` the `ValueError` cannot arise. `UnicodeEncodeError` can arise only through a `--version` value the locale encoding cannot represent.
- Real file I/O is not modelled. `open` and `write` become the outcome oracle `writeOk`, and the model keeps no file-system contents. The partial file that a write failing halfway could leave behind is therefore not modelled either.
- The text of log messages, their timestamps and the logging configuration are left out. Only which record (info or error) is emitted, and with what family, size and path, is kept. The exception text in the error message is left out too.
- `argparse` is modelled only as the choice of version: the `--version` value, or the default. Parse errors and the help output are left out.
- Ascii.Lower: models `str.lower` on ASCII only. Python's full Unicode case mapping, which can change a string's length, is not modelled. The catalog is ASCII.
- The catalog is modelled as a sequence of families in dict insertion order. Python's silent overwrite of duplicate dict keys does not arise, because the literal has none, as `Catalog.ModelsUniqueKeys` shows.
