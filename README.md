# AkashaTerminal core in Dafny

AkashaTerminal is a terminal assistant. An AI provider proposes file
operations inside a local project, and the assistant applies them. This
project models three parts of it and proves properties of each:

- **The token ledger** (`internal/state/token.go`, module `Tokens`). A cost
  estimator charges 1 per code point up to 255 and 2 per wider code point,
  then divides by four. A `TokenManager` keeps a running counter and a
  history of conversation records against a ceiling `maxTokens`. Adding a
  record charges its cost to the counter and runs a tiered cleanup:
  - above 100% of the ceiling: an error, and nothing is cleaned;
  - above 75%: level 2;
  - above 50%: level 1.

  Level 1 walks the older records while the counter is above half the
  ceiling. It strips write payloads, tombstones visited records past the
  second, and compacts the history. Level 2 runs level 1, then strips read
  payloads, then collapses non-critical records to summaries that cost 10.
  An effectiveness check then reports the highest threshold still exceeded.
- **The file manager** (`internal/operations/file.go`, modules `Operations`
  and `Paths`). It reads a file together with a SHA-256 checksum. It writes
  a file after moving the old one to `<path>.bak`, in replace, insert or
  append mode. It creates files and previews long content. It resolves a
  proposed path against the project root with `filepath.Join`/`filepath.Abs`
  and a string-prefix check. `Paths` is a lexical model of Go's
  `filepath.Clean`, `Join` and `Abs` on Unix.
- **The profile table** (`internal/config/config.go`, module `Config`). This
  is a map of named API configurations plus a default name. It supports
  add, delete, set-default and lookup, and each change is saved.

Go strings whose code points the source iterates are `seq<char>`. File
contents are bytes (`seq<byte>`), and an operation's content reaches the
disk as its UTF-8 encoding (`GoText.Utf8`). Go's integer division truncates
toward zero; `Tokens.Quot` writes that out. The file system is a map from
path strings to bytes, held by the `FileManager`. The working directory and
the SHA-256 function are parameters of the `FileManager`. The home
directory is a parameter of the `ConfigManager` constructor, and the
contents of the profile file are a parameter of `Load`.

### Behaviour worth knowing

The model follows the code, including these points:

- `AddRecord` charges the record's cost but never appends the record to the
  history (`internal/state/token.go:49-63`). The history only changes
  through the cleanups. `TokenManager.WithHistory` builds a manager with a
  given history.
- Above 100% the strategy fails before any cleanup
  (`internal/state/token.go:70-72`). So six records costing 20 under a
  ceiling of 100 end in `TokenLimitExceeded`, with nothing cleaned.
- Level 1 drops tombstoned records without deducting their remaining cost
  from the counter. The counter then drifts above the sum of the surviving
  records by the dropped records' remaining count (`Tokens.Level1Drift`).
- Level 2's passes start at index 1 and do not protect the two most recent
  records (`Tokens.Level2Effect`).
- The path check compares characters, not path segments. So `../proj2`
  under `/proj` is accepted as `/proj2`, a directory outside the project
  (`Operations.FileManager.ResolveAcceptsSibling`).
- An unknown write mode is rejected only after the backup move. An append
  opens the just-moved path without `O_CREATE`, so it always fails. An
  insert does not check its offset; the slice then panics, which the model
  reports as `OffsetOutOfRange`.
- `DeleteProfile` on a never-loaded (nil) table is a no-op in Go, not a
  panic; only `AddProfile` needs a loaded table.
- As written, `token.go` does not compile. It uses a field
  `tm.tokenEstimator` that the struct lacks, assigns a string to
  `rec.Operation`, leaves `preserved` unused and imports `encoding/json`
  without using it. The model uses the
  estimator for the first. For the second it uses an operation slot that
  holds either an operation or the placeholder text (`Tokens.OpSlot`). A
  placeholder has an empty action and content.

## Model

| member | source | states |
|---|---|---|
| GoText.Utf8 | internal/operations/file.go:43 | the UTF-8 encoding of a string has between one and four bytes per code point |
| GoText.HexRoundTrip | internal/operations/file.go:74 | hex encoding loses nothing: decoding the hex of a digest gives the digest back |
| GoText.HexEncodeInjective | internal/operations/file.go:74 | equal hex checksums mean equal digests |
| GoText.NatToDecimalRoundTrip | internal/state/token.go:139 | the `%d` rendering of a record id reads back as the id |
| GoText.IntToDecimal | internal/state/token.go:139 | `%d` of an int starts with '-' exactly when the int is negative |
| Tokens.WeightSum | internal/state/token.go:17-23 | the weight of a text lies between its code-point count and twice that |
| Tokens.TokenEstimate | internal/state/token.go:14-25 | the estimate lies between a quarter and a half of the code-point count |
| Tokens.Estimate | internal/state/token.go:14-25 | the loop over code points computes exactly the estimate `TokenEstimate(text)` |
| Tokens.EstimateLatin1 | internal/state/token.go:15-24 | text of one-byte code points costs a quarter of its length, rounded down |
| Tokens.EstimateWide | internal/state/token.go:15-24 | one wide code point costs 0 and four cost 2 |
| Tokens.Cost | internal/state/token.go:52-56 | a record costs its text's estimate plus its operation payload's estimate |
| Tokens.CheckCleanupEffectiveness | internal/state/token.go:148-162 | no error iff the counter is at most all three thresholds; otherwise the error names the highest threshold exceeded, and the counter is at most every higher one |
| Tokens.EffectiveIffAtMostHalf | internal/state/token.go:148-162 | for a non-negative ceiling the check passes iff the counter is at most half the ceiling |
| Tokens.StripWrite | internal/state/token.go:93-101 | a write with content gets a placeholder naming its path, and its count drops by the payload's estimate; other records are unchanged, and text and id always are |
| Tokens.StripWrites | internal/state/token.go:90-101 | stripping a run of records strips each one in place |
| Tokens.SumStripWrites | internal/state/token.go:93-101 | stripping lowers the summed counts by exactly what it reclaims |
| Tokens.Walk1Facts | internal/state/token.go:90-101 | the walk lowers the counter by exactly the payloads it strips, stops early only at or below half, and visits each record while above half |
| Tokens.Level1Stop | internal/state/token.go:86-90 | the walk never enters the two most recent records |
| Tokens.Level1Effect | internal/state/token.go:84-117 | survivors are the stripped first two visited records followed by the unvisited ones, in order; the counter falls by exactly the stripped payloads; an early stop means the counter is at most half |
| Tokens.Level1KeepsRecent | internal/state/token.go:85-87 | the two most recent records survive level 1 unchanged, at the end, in order |
| Tokens.Level1Drift | internal/state/token.go:103-116 | the drift between the counter and the surviving records grows by exactly the remaining count of the tombstoned records |
| Tokens.ReadStep | internal/state/token.go:124-132 | a step changes a record exactly when it is past index 0, a read, and the counter is above half; it then puts a placeholder naming the path, and counter and count both fall by the payload's estimate; text, id and role never change |
| Tokens.ReadPassFacts | internal/state/token.go:124-132 | the read pass keeps the first record, every non-read, every text, id and role, and the drift |
| Tokens.ReadPassIdle | internal/state/token.go:125 | once the counter is at most half, the read pass changes nothing more |
| Tokens.ReadPassStrips | internal/state/token.go:124-132 | unless the pass ends at or below half, every read after the first record is stripped of its payload, with its count lowered by the payload's estimate |
| Tokens.SummaryStep | internal/state/token.go:135-145 | a step changes a record only after index 0, above three fifths, when it is not critical; in that case the record becomes its summary costing 10 with an empty operation, and the counter falls by the old count minus 10 |
| Tokens.SummaryNotCritical | internal/state/token.go:137-139 | a summary never carries the critical marker |
| Tokens.SummaryPassFacts | internal/state/token.go:134-145 | the summary pass keeps the first record, every critical record and the drift; each record it changes is the summary of the original with count 10 |
| Tokens.SummaryPassIdle | internal/state/token.go:136 | once the counter is at most three fifths, the summary pass changes nothing more |
| Tokens.SummaryPassSummarizes | internal/state/token.go:134-145 | unless the pass ends at or below three fifths, every non-critical record after the first is summarized |
| Tokens.Level2Effect | internal/state/token.go:119-146 | after level 1, level 2 removes nothing, keeps the first record and every critical text, and keeps the drift; it strips every later read unless the counter has reached half, then summarizes every later non-critical record unless the counter has reached three fifths |
| Tokens.ApplyCleanup | internal/state/token.go:65-82 | the strategy never lengthens the history |
| Tokens.ApplyCleanupTiers | internal/state/token.go:65-82 | above the ceiling: unchanged and an error; else level 2 above 75%, level 1 above 50%, nothing otherwise; success means the counter is at most half |
| Tokens.TokenManager.constructor | internal/state/token.go:42-47 | a new manager has the ceiling, a zero counter and an empty history |
| Tokens.TokenManager.WithHistory | internal/state/token.go:28-32 | a manager with the given ceiling, counter and history |
| Tokens.TokenManager.AddRecord | internal/state/token.go:49-63 | the record is costed; the new ledger and error are the strategy applied to the old history with the counter raised by the cost; the history never grows |
| Tokens.TokenManager.ApplyCleanupStrategy | internal/state/token.go:65-82 | the new ledger and the error are `ApplyCleanup` of the old ledger |
| Tokens.TokenManager.Level1Cleanup | internal/state/token.go:84-117 | the walk, tombstoning and compaction loops leave exactly `Level1` of the old ledger |
| Tokens.TokenManager.WalkOlderRecords | internal/state/token.go:85-107 | the walk loop lowers the counter as `Walk1` does, leaves the history list itself alone, and its slots hold the stripped records with every visited slot past the second set to nil |
| Tokens.CompactSlots | internal/state/token.go:109-116 | the compaction loop keeps exactly the non-nil slots, in order |
| Tokens.LiveWalkedSlots | internal/state/token.go:103-116 | compacting the walked slots gives the survivors of level 1: the stripped first two visited records, then the unvisited ones |
| Tokens.TokenManager.Level2Cleanup | internal/state/token.go:119-146 | the method leaves exactly `Level2` of the old ledger |
| Tokens.TokenManager.StripReadPayloads | internal/state/token.go:124-132 | the loop leaves exactly the read pass of the old ledger |
| Tokens.TokenManager.SummarizeHistory | internal/state/token.go:134-145 | the loop leaves exactly the summary pass of the old ledger |
| Tokens.TokenManager.GetTokenUsage | internal/state/token.go:164-166 | returns the counter and the ceiling |
| Paths.CleanIsAbs | internal/operations/file.go:91-96 | cleaning keeps a path absolute or relative |
| Paths.CleanIdempotent | internal/operations/file.go:91-96 | a cleaned path cleans to itself |
| Paths.CleanRootedNoDotDot | internal/operations/file.go:91-96 | a cleaned absolute path has no `..` segment |
| Paths.AbsCanonical | internal/operations/file.go:91-96 | under an absolute working directory, `Abs` yields an absolute, clean path without `..` |
| Paths.CleanExtends | internal/operations/file.go:88-101 | under an absolute base, a target without `..` keeps the cleaned base as a prefix |
| Operations.Backup | internal/operations/file.go:32-38 | an existing file moves to `<path>.bak`, replacing any earlier backup; nothing else changes |
| Operations.ReadBytes | internal/operations/file.go:20-23 | reading succeeds iff the path exists, and otherwise fails with that path |
| Operations.InsertAt | internal/operations/file.go:50 | the splice succeeds iff the offset is within the bytes; the result is the head, the text, then the tail |
| Operations.AppendTo | internal/operations/file.go:54-60 | opening without `O_CREATE` succeeds iff the file exists; the text is then appended |
| Operations.WriteBacksUpFirst | internal/operations/file.go:32-38 | in every mode an existing file ends up in `<path>.bak`, and no other path changes |
| Operations.WriteReplace | internal/operations/file.go:42-43 | a replace succeeds and the file holds exactly the new text |
| Operations.WriteInsert | internal/operations/file.go:33-51 | an in-range insert splices the text at the byte offset of the bytes it reads (the file, or else an earlier backup when the file is absent), and cutting it out gives the backup back |
| Operations.WriteInsertErrors | internal/operations/file.go:45-51 | the insert source is the file or else an old backup; with no source the error names the backup; it fails exactly on an out-of-range offset |
| Operations.WriteAppendAlwaysFails | internal/operations/file.go:53-60 | an append always fails with the path not found, and the path is then absent |
| Operations.WriteUnsupportedAfterBackup | internal/operations/file.go:62-63 | an unknown mode fails only after the backup move has happened |
| Operations.WriteFailureRemovesFile | internal/operations/file.go:31-65 | after any failed write the path is absent, and its old bytes are only in the backup |
| Operations.PreviewMarkerEncoding | internal/operations/file.go:83 | the 18 marker bytes a long preview carries are the UTF-8 encoding of the marker text, three bytes for each of its two CJK characters |
| Operations.FileManager.constructor | internal/operations/file.go:15-16 | a manager over the given files, working directory and digest |
| Operations.FileManager.CalculateChecksum | internal/operations/file.go:72-75 | the checksum is two lower-case hex digits per digest byte |
| Operations.FileManager.ChecksumDecodes | internal/operations/file.go:72-75 | the checksum decodes back to the digest of the content |
| Operations.FileManager.ReadFile | internal/operations/file.go:19-28 | succeeds iff the file exists and returns its bytes with their checksum; fails with the path otherwise |
| Operations.FileManager.WriteFile | internal/operations/file.go:31-65 | the new files and the error are the write effect on the old files |
| Operations.FileManager.CreateFile | internal/operations/file.go:68-70 | the path holds exactly the UTF-8 content afterwards; nothing else changes |
| Operations.FileManager.CreateThenRead | internal/operations/file.go:68-70 | reading a file just created gives its UTF-8 content and that content's checksum; no other file changes |
| Operations.FileManager.PreviewContent | internal/operations/file.go:78-84 | content up to 300 bytes is returned whole; longer content keeps its first and last 150 bytes, with exactly the marker bytes between them |
| Operations.FileManager.PreviewBounded | internal/operations/file.go:78-84 | a preview is at most 318 bytes |
| Operations.FileManager.ResolvePath | internal/operations/file.go:87-106 | a rejection reports the target as outside the project |
| Operations.FileManager.ResolvedIsCanonical | internal/operations/file.go:87-106 | an accepted path is absolute, clean and free of `..`, and starts with the absolute base |
| Operations.FileManager.ResolveAcceptsDescendants | internal/operations/file.go:87-106 | under an absolute base, every target without `..` is accepted as the cleaned `base/target` |
| Operations.FileManager.ResolveRejectsEscape | internal/operations/file.go:101-103 | `../etc` under `/proj` is rejected as outside the project |
| Operations.FileManager.ResolveAcceptsSibling | internal/operations/file.go:101 | `../proj2` under `/proj` is accepted as `/proj2`, because `/proj2` starts with the characters `/proj` |
| Config.Decoded | internal/config/config.go:55-60 | decoding keeps the table's names and drops each configuration's `name` field |
| Config.ConfigManager.Table | internal/config/config.go:104-105 | a nil table reads as empty |
| Config.ConfigManager.constructor | internal/config/config.go:23-30 | the path is the profile file joined onto the home directory; the default is empty and the table nil |
| Config.ConfigManager.Save | internal/config/config.go:65-80 | a save records the current default and table; nothing else changes |
| Config.ConfigManager.Load | internal/config/config.go:33-62 | a missing file gives an empty table, which is saved; an unreadable one gives an error and no change; a stored one replaces the default and the table |
| Config.ConfigManager.AddProfile | internal/config/config.go:83-86 | the table gains or overwrites the name; the default is unchanged; the result is saved |
| Config.ConfigManager.DeleteProfile | internal/config/config.go:89-92 | only the name is removed, a nil table stays nil, the default is not cleared, and the result is saved |
| Config.ConfigManager.SetDefault | internal/config/config.go:95-101 | an unknown name fails and changes nothing; a known one becomes the default and is saved |
| Config.ConfigManager.GetProfile | internal/config/config.go:104-109 | a present name gives its configuration; a missing one gives the zero configuration and an error |
| Config.ConfigManager.AddThenGet | internal/config/config.go:83-109 | after an add, a lookup gives the configuration added, and lookups of other names are unchanged |
| Config.ConfigManager.DeleteThenGet | internal/config/config.go:89-109 | after a delete, a lookup fails and the default still names the deleted profile |
| Config.ConfigPathInHome | internal/config/config.go:23-25 | for an absolute home directory the profile file lies under it |

## Left out

- Go's fixed-width `int`: counters, costs and `maxTokens * 3` are unbounded integers here, so overflow is not modelled.
- Invalid UTF-8: strings are sequences of code points. Go's U+FFFD substitution when ranging over malformed bytes is not modelled.
- Records are pointers in Go. The caller's record is updated in place with its cost; `AddRecord` returns the costed record instead. Aliasing between history entries and the caller's records is not modelled.
- `Tokens.TokenManager.StripReadPayloads` and `Tokens.TokenManager.SummarizeHistory` are the two loops of `level2Cleanup`, and `Tokens.TokenManager.WalkOlderRecords` and `Tokens.CompactSlots` the two loops of `level1Cleanup`, each written as its own method.
- File-system failures other than a missing file are not modelled: failed `Stat`, `Rename`, `WriteFile` and `OpenFile` calls, permissions, directories and symbolic links. So the "cannot create backup" error path of `WriteFile` is not modelled either.
- Files are keyed by the path string a call receives. Two spellings of one file, such as a relative and an absolute path, are two keys.
- `sha256.Sum256` is the parameter `digest`. The working directory that `filepath.Abs` reads is the parameter `cwd`, and its error path is not modelled.
- `Tokens.EffectiveIffAtMostHalf`: proved only for a non-negative ceiling, because for a negative ceiling the thresholds are not ordered.
- `Config.ConfigManager.Save`: JSON encoding and the file write are opaque. A save appends the state to `saved`, and its error is not modelled.
- `Config.ConfigManager.Load`: directory creation, reading and JSON decoding are collapsed into the `StoredFile` parameter. The error of the save after a missing file is not modelled.
- `Config.ConfigManager.SetDefault`: returns no error on success, because the outcome of the save is not modelled.
- `FileState` and `ProjectState` in `pkg/types/types.go`, the provider clients, the prompt loop in `cmd/akasha/main.go`, terminal prompts and previews printing are not part of this model.
