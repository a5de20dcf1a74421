# ocinosql-dedup: a Dafny model of the dedup filter

`ocinosql-dedup` reads JSON records from standard input, one per line. For each
record it derives a key from a configured field (`-k`, default `id`). With
`-hashkey` the key is the lower-case hex SHA-256 of that value. It checks the
key against an Oracle Cloud NoSQL table. A record whose key has no row is
claimed (a row is written) and then written to standard output. All other
records are dropped. Because the table persists, deduplication also holds
across runs.

This project models that per-record loop (`run()`, main.go:80-124) and proves
what it guarantees over a whole input stream.

- `values.dfy` (module `GoValues`): Go strings as byte sequences, decoded JSON
  values, records, and the result of decoding one line.
- `hex.dfy` (module `HexEncoding`): the `%x` rendering of the digest, and its
  inverse.
- `keys.dfy` (module `KeyDeriver`): key derivation. `fmt.Sprint` and
  `sha256.Sum256` are the function fields `sprint` and `sha256` of `Config`.
  They are deterministic, and their internals are not modelled.
- `gate.dfy` (module `DedupGate`): the loop body and the loop.
  - `Step` is the specification of one iteration. `Filter` is the
    specification of the whole loop.
  - The class `Gate` holds what the loop changes: the set of keys with a row in
    the table (`claimed`), the records written out (`out`), the store calls
    issued (`calls`) and the diagnostics printed (`diags`).
  - `Gate.Process` is proved to follow `Step`, and `Gate.Run` to follow
    `Filter`.
  - Whether `GetRow` or `UpdateRow` fails on the record at position `i` is an
    input, `health(i)`.
- `stream.dfy` (module `DedupStream`): properties of whole runs.
- `scenarios.dfy` (module `DedupScenarios`): three concrete runs.

Behaviour of the code that the model keeps:

- A failed `GetRow` (main.go:103-105) drops the record with no write and no
  diagnostic; it is not treated as "no row" (`LookupFailed`).
- `fmt.Sprint` does not record the JSON type: `true` and `"true"` give the same
  key, as do `null` and `"<nil>"`, and `1` and `"1"`
  (`KeyDeriver.KeysIgnoreJsonType`).
- The input is read line by line (`bufio.Scanner`). Each line must hold one
  JSON object, or `null`, which decodes to the nil map and then lacks every
  field. Objects placed back to back on one line are a decode error for that
  line.

## Model

| member | source | states |
|---|---|---|
| `HexEncoding.Hex` | main.go:94-95 | the `%x` text of a digest has two characters per byte, all of them lower-case hex digits |
| `HexEncoding.Unhex` | main.go:95 | reading hex back yields half as many bytes as there are digits |
| `HexEncoding.HexRoundTrip` | main.go:95 | reading the `%x` text back gives the digest's bytes again, so the encoding loses nothing |
| `HexEncoding.HexInjective` | main.go:95 | two digests have the same hex text exactly when they are equal |
| `KeyDeriver.DeriveKey` | main.go:88-96 | there is no key exactly when the record lacks the configured field (not an empty key); a hashed key is always 64 lower-case hex digits |
| `KeyDeriver.KeyDependsOnlyOnField` | main.go:88-96 | records that agree on the configured field get the same key, with or without hashing |
| `KeyDeriver.PlainKeysAgreeIffPrintedValuesAgree` | main.go:93 | without `-hashkey`, two records get the same key exactly when `fmt.Sprint` prints their field values the same |
| `KeyDeriver.HashedKeysAgreeIffDigestsAgree` | main.go:94-96 | with `-hashkey` the key is the hex of the SHA-256 of that text; two keys are equal exactly when the two digests are |
| `KeyDeriver.KeysIgnoreJsonType` | main.go:93 | boolean `true` and string `"true"`, `null` and string `"<nil>"`, and number `1` and string `"1"`, give the same key |
| `DedupGate.Step` | main.go:81-123 | a record is forwarded exactly when it decoded, has the field, the lookup succeeds without finding a row and the write succeeds; only then does the table gain its key and the output the unmodified record |
| `DedupGate.Filter` | main.go:80-124 | the loop yields one outcome per input line; what the loop guarantees is proved in `DedupStream.FilterAccounted` (used by the lemmas below) and `DedupStream.OutcomeOfLine` |
| `DedupGate.Gate.constructor` | main.go:78-79 | processing starts with nothing written, no store call made and nothing printed, against a table that already holds some rows |
| `DedupGate.Gate.Process` | main.go:81-123 | see the list below this table |
| `DedupGate.Gate.Run` | main.go:80-124 | the loop processes every line in order; its final state and outcomes are those of `Filter` |
| `DedupStream.ForwardedKeysAreNewAndDistinct` | main.go:98-123 | earlier output is kept; every forwarded record has a key; the key was not in the table before the run; no two forwarded records share a key, whatever the store's failures (assuming lookups see earlier writes, see "## Left out") |
| `DedupStream.StoreGrowsByForwardedKeys` | main.go:106-122 | the table never loses a key and gains exactly the keys of the forwarded records; a failed write marks nothing as seen |
| `DedupStream.OutputIsSubsequence` | main.go:80-123 | the records written are decoded input records, unmodified and in input order (a subsequence) |
| `DedupStream.OutcomeOfLine` | main.go:80-124 | the outcome of line i depends only on the state that lines 0..i-1 left |
| `DedupStream.ClaimedMonotone` | main.go:109-122 | a row claimed for an earlier line is still there for every later line |
| `DedupStream.DuplicatesAreSuppressed` | main.go:98-108 | once a record is forwarded, a later record with the same key is not: its lookup either fails or finds the row |
| `DedupStream.HealthyRunClaimsEveryKey` | main.go:98-122 | with a healthy store, every key in the input is in the table afterwards |
| `DedupStream.HealthyForwardsFirstOccurrences` | main.go:98-123 | with a healthy store, a line is forwarded exactly when it has a key that neither the table nor any earlier line had (no silent loss, both directions) |
| `DedupStream.HealthyRunForwardsEachNewKeyOnce` | main.go:98-123 | with a healthy store, the forwarded keys are exactly the input's keys not already in the table, with one record per key (assuming lookups see earlier writes, see "## Left out") |
| `DedupStream.ClaimedInputForwardsNothing` | main.go:106-108 | if every input key is already in the table, nothing is forwarded and the table is unchanged, whatever the store's failures (assuming lookups see the table's rows, see "## Left out") |
| `DedupStream.RerunForwardsNothing` | main.go:98-123 | after a healthy run, running over the same input again forwards nothing |
| `DedupScenarios.RepeatedIdIsDropped` | main.go:80-123 | input `{"id":"a"}`, `{"id":"b"}`, `{"id":"a"}` with an empty table: the first two are written, the third is a duplicate, and the table holds `a` and `b` |
| `DedupScenarios.AbsentFieldForwardsNothing` | main.go:88-92 | the same input with `-k name`: nothing is written, no store call is made, and one "not found" diagnostic is printed per record |
| `DedupScenarios.HashedKeyIsStoredRecordUnchanged` | main.go:93-96 | with `-hashkey`, `{"id":"a"}` claims the hex digest of `"a"` rather than `"a"`, and is written out unchanged |

`Gate.Process` states each of the following:

- A record is forwarded exactly when all of these hold:
  - it decoded;
  - it has the field;
  - the lookup succeeded;
  - its key had no row;
  - the write succeeded.
- A forwarded record is written out unmodified, after `GetRow` and `UpdateRow`
  for its key, and its key is added to the table.
- Every other outcome leaves the table and the output unchanged.
- A malformed line or a missing field causes no store call.
- A failed or positive lookup is followed by no write.
- A failed lookup prints nothing.
- A failed write prints a diagnostic.

## Left out

- Flag and environment parsing, `-v`, client construction and `-create-table`
  (main.go:24-70). These are command-line plumbing and a one-off administrative
  call.
- Line splitting by `bufio.Scanner`. The model takes the sequence of decoded
  lines as input. A line longer than the scanner's 64 KiB limit ends the loop
  early and silently; this is not modelled.
- `json.Unmarshal` and `json.Encoder`. A line that fails to decode is the
  `Undecodable` input. JSON numbers are reals, not float64. The record is
  forwarded as a value, and its re-encoding is not modelled.
- The error that `enc.Encode` returns is ignored by the code. The model treats
  every encode as successful.
- The verbose `io.MultiWriter` copy of the output to standard error.
- `fmt.Sprint` and SHA-256 are function parameters. Only the printing of nil,
  booleans, strings and the number 1 is pinned down (`PrintsScalarsLikeFmt`).
- The printing of other JSON numbers (float64 in shortest `%v` form) is not
  modelled. So the general collision between a number and its decimal text is
  not stated: `{"id":1}`, `{"id":1.0}` and `{"id":"1"}` all get the key `1`,
  and the model proves this only for the value 1.
- KeyDeriver.HashedKeysAgreeIffDigestsAgree: relates key equality to digest
  equality only, because SHA-256's collision resistance is not a property this
  model can state.
- The text of the diagnostics and the `created_at` timestamp (`time.Now`).
  Diagnostics are modelled by kind.
- Read consistency. Lookups are assumed to see every earlier successful write
  (read-your-writes), while `GetRow` is issued with the store's default read
  consistency. Under eventually consistent reads a key written for one line can
  still read as absent for a later line, and that record is then written and
  forwarded again. A row already in the table before the run can likewise read
  as absent. The following lemmas hold only under this assumption:
  - `ForwardedKeysAreNewAndDistinct`
  - `DuplicatesAreSuppressed`
  - `HealthyForwardsFirstOccurrences`
  - `HealthyRunForwardsEachNewKeyOnce`
  - `ClaimedInputForwardsNothing`
  - `RerunForwardsNothing`
- The `"id:"` prefix of the `GetRow` key. The store is modelled directly as a
  set of keys.
- Other processes writing to the same table, and an `UpdateRow` that fails after
  storing the row. These are concurrency and the store's own semantics. The
  table changes only through this process's successful writes.
