# bpass blob format, modelled in Dafny

This project models the in-memory record store of the bpass credential
manager (`blobformat/format.go`). The store maps an entry name to an entry.
An entry maps a field key to a dynamically typed value.

The model covers:

- the name search `Find`;
- the typed accessors of an entry (`User`, `Pass`, `TwoFactor`, `Notes`,
  `Labels`, `Updated`, `NSnapshots`, `Snapshot`);
- the snapshot engine that copies an entry into its own history before a
  change (`snapshot`, `addSnapshot`, `touchUpdated`);
- the setters `Set`, `SetTwofactor`, `SetNotes` and `SetLabels`.

Files:

- values.dfy: the `Value` variant (null, bool, string, int64, float64,
  list, object), the field keys, the protected keys, the error taxonomy, and
  ASCII lower-casing and `%d` formatting.
- search.dfy: `strings.Split` on `/` with its inverse `Join`. It holds the
  greedy case-insensitive subsequence test of `fuzzy.MatchFold`, proved
  equal to "an ascending embedding exists". It also holds the per-name match
  rule of `Find`.
- entry.dfy: `Blob`, the read-only view of one entry, with the
  accessors. The history copy `Captured` and its loop `Capture` live here.
  So does one function per setter that gives the field map the setter
  leaves.
- store.dfy: the class `Blobs`, whose `entries` map the setters update in
  place. In the source a `Blob` aliases the store's record, so
  `touchUpdated` and `addSnapshot` change the store. Here they are methods
  of the store that update `entries[name]`.
- history.dfy: lemmas that state, through the accessors, what each setter
  does. They cover how the history grows, what the newest snapshot holds,
  which fields change and which stay as they were.

Panics in the source become error results. These are: a missing or
malformed entry in `get`, a non-string `user`/`pass`/`twofactor`, and a
protected key in `Set`. The wall clock becomes a `now` parameter.

Where the code and its comments disagree, the model follows the code, with
one exception: `Set` stores under the lower-cased key, as its doc comment
says, not under the entry's name as line 278 does (see "## Findings").
Elsewhere:

- `SetNotes` takes no snapshot, although its doc comment says it records one.
- `SetTwofactor` checks only that the URI parses. A seed that is not
  time-based is stored, and reading the code back then fails with `NotTotp`
  (`History.SetTwofactorEffects`).
- `Snapshot` names the returned entry with the position of the element in
  the history list, not with the caller's index. That name is therefore
  stable as the history grows (`History.OlderSnapshotsKept`).
- When `snapshots` holds something other than a list, `addSnapshot`
  replaces it with a list of one (`History.AddSnapshotCount`).
- A JSON null counts as unset in the accessors that compare with `nil`:
  `TwoFactor`, `getSlice` (`Notes`, `Labels`), `Updated`, `NSnapshots` and
  `Snapshot`. `User` and `Pass` test only presence, so a null `user` or
  `pass` is a kind error there. `addSnapshot` replaces a null history with a
  fresh list.

## Model

| member | source | states |
|---|---|---|
| `Search.Split` | blobformat/format.go:86 | splitting on `/` yields at least one segment and no segment contains `/` |
| `Search.JoinSplit` | blobformat/format.go:91 | joining the segments of a split name gives the name back |
| `Search.SplitJoin` | blobformat/format.go:86 | splitting a join of `/`-free segments gives the segments back |
| `Search.SubsequenceEmbeds` | blobformat/format.go:97 | when the greedy test accepts, every query character has an ascending position in the target |
| `Search.EmbeddingIsSubsequence` | blobformat/format.go:97 | when such ascending positions exist, the greedy test accepts |
| `Search.SubsequenceLength` | blobformat/format.go:97 | a query longer than its target never matches (the length shortcut of MatchFold) |
| `Search.MatchFold` | blobformat/format.go:97 | the match of one segment is true iff the lower-cased query embeds in order into the lower-cased name segment |
| `Search.FoldMatchIgnoresCase` | blobformat/format.go:97 | lower-casing either side does not change whether a segment matches |
| `Search.SegmentCountMismatch` | blobformat/format.go:91-94 | a name whose segment count differs from the query's never matches |
| `Search.FindExampleMatches` | blobformat/format.go:85-106 | "ab/cd" matches "abcx/cdy" |
| `Search.FindExampleSegmentCount` | blobformat/format.go:92-94 | "ab/cd" does not match "abcx" |
| `Search.FindExampleFirstSegment` | blobformat/format.go:96-100 | "ab/cd" does not match "zz/cdy" |
| `Store.Blobs.Find` | blobformat/format.go:85-106 | a name is returned iff it is a key of the store with as many segments as the query, each matched by the query's segment; no name is returned twice |
| `Store.Blobs.Get` | blobformat/format.go:346-358 | the view of an existing object entry; NotFound for a missing name, BadEntry for an entry that is not an object |
| `Entry.Blob.User` | blobformat/format.go:114-121 | "" when unset, the string when the field is a string, an error for any other kind |
| `Entry.Blob.Pass` | blobformat/format.go:123-130 | "" when unset, the string when the field is a string, an error for any other kind |
| `Entry.Blob.TwoFactor` | blobformat/format.go:138-162 | "" when no seed is stored; a kind error for a non-string; for a stored string: BadTwoFactorUri iff it does not parse, NotTotp iff it parses to a seed that is not time-based, otherwise the generated code, or CodeFailed when generation fails |
| `Entry.TextsOf` | blobformat/format.go:185-192 | the strings of a list in order when every element is a string, else an error naming the first non-string index |
| `Entry.Blob.Slice` | blobformat/format.go:174-195 | nothing when unset, an error when the field is not a list or holds a non-string, else exactly its strings in order |
| `Entry.Blob.GetSlice` | blobformat/format.go:174-195 | the collecting loop returns what `Slice` specifies |
| `Entry.Blob.Notes` | blobformat/format.go:165-167 | the notes as `Slice` reads them |
| `Entry.Blob.Labels` | blobformat/format.go:170-172 | the labels as `Slice` reads them |
| `Entry.TruncateTowardZero` | blobformat/format.go:212 | the integer part of a float, rounded toward zero |
| `Entry.Blob.Updated` | blobformat/format.go:198-216 | zero time when unset or of another kind; an int64 as is; a float64 truncated toward zero |
| `Entry.Blob.NSnapshots` | blobformat/format.go:249-261 | 0 when unset, the list's length when a list, an error otherwise |
| `Entry.Blob.Snapshot` | blobformat/format.go:223-245 | errors when unset, not a list, index outside [0, len), or element not an object; otherwise element len-1-index, named with that position |
| `Entry.Captured` | blobformat/format.go:385-410 | the history copy has no `snapshots` key and keeps exactly the string, number and list fields, unchanged |
| `Entry.Blob.Capture` | blobformat/format.go:385-410 | the copying loop over the field map yields `Captured` |
| `Entry.AddedSnapshot` | blobformat/format.go:368-379 | the history becomes the prior list (empty when absent or not a list) plus the copy of the current fields; other fields unchanged |
| `Entry.Touched` | blobformat/format.go:361-364 | `updated` holds the current time as int64; other fields unchanged |
| `Entry.Texts` | blobformat/format.go:335-338 | one string element per given string, in order |
| `Entry.ToValues` | blobformat/format.go:320-323 | the conversion loop yields `Texts` |
| `Entry.TwofactorUri` | blobformat/format.go:293-303 | the stored URI always starts with `otpauth://`; an input that already does is kept verbatim |
| `Values.Decimal` | blobformat/format.go:244 | `%d` gives decimal digits whose value is the number, with no leading zero |
| `Store.Blobs.TouchUpdated` | blobformat/format.go:361-364 | the entry's fields become `Touched` of the old fields; no other entry changes |
| `Store.Blobs.AddSnapshot` | blobformat/format.go:368-379 | the entry's fields become `AddedSnapshot` of the old fields; no other entry changes |
| `Store.Blobs.Set` | blobformat/format.go:266-279 | fails unchanged for a missing or malformed entry or a protected lower-cased key; otherwise snapshot, touch, and the lower-cased key holds the value |
| `Store.Blobs.SetTwofactor` | blobformat/format.go:290-314 | fails unchanged for a missing entry or a URI that does not parse; otherwise snapshot, touch, and the normalised URI is stored |
| `Store.Blobs.SetNotes` | blobformat/format.go:317-327 | fails unchanged for a missing entry; otherwise touch and the notes are replaced, with no snapshot |
| `Store.Blobs.SetLabels` | blobformat/format.go:332-342 | fails unchanged for a missing entry; otherwise touch and the labels are replaced, with no snapshot |
| `History.TextsRoundTrip` | blobformat/format.go:320-326 | the list SetNotes/SetLabels store reads back through getSlice as exactly the given strings |
| `History.TextsOfInverse` | blobformat/format.go:185-192 | a list getSlice accepts is the stored form of the strings it returns |
| `History.AddSnapshotCount` | blobformat/format.go:368-379 | the snapshot count grows by exactly one; a history of another kind becomes a list of one |
| `History.NewestSnapshotIsPriorState` | blobformat/format.go:377 | `Snapshot(0)` after addSnapshot is the history copy of the fields before it |
| `History.OlderSnapshotsKept` | blobformat/format.go:377 | every earlier snapshot is still there, one index further back, with the same name |
| `History.SnapshotsHoldNoHistory` | blobformat/format.go:388-391 | no snapshot ever holds a `snapshots` key |
| `History.SnapshotPastEndFails` | blobformat/format.go:234-236 | `Snapshot(NSnapshots())` is an error |
| `History.SetEffects` | blobformat/format.go:276-278 | after Set: the key holds the value, `updated` is now, one more snapshot equal to the prior state, all other fields unchanged |
| `History.SetUserReadsBack` | blobformat/format.go:266-278 | after Set of "user" (any case), User reads the new value |
| `History.HistoryOrdering` | blobformat/format.go:276-278 | two Sets of the user add two snapshots and the newest shows the first value |
| `History.SetAsWrittenMissesTheKey` | blobformat/format.go:278 | as written, Set of "user" on entry "site" leaves User at its old value and writes field "site" |
| `History.SetNotesEffects` | blobformat/format.go:317-327 | after SetNotes: notes read back as given, `updated` is now, snapshot count unchanged, all other fields unchanged |
| `History.SetLabelsEffects` | blobformat/format.go:332-342 | after SetLabels: labels read back as given, `updated` is now, snapshot count unchanged, all other fields unchanged |
| `History.SetTwofactorEffects` | blobformat/format.go:305-313 | after SetTwofactor the stored seed always parses, so reading the code fails only on a non-time-based seed or on generation; one more snapshot; `updated` is now |

## Left out

- `Load` (JSON decoding): the model starts from an already decoded store (the `Blobs` constructor).
- Serialisation and the round trip through JSON: JSON encoding is not part of this model.
- Entry.Blob.TwoFactor: URI parsing (`otp.NewKeyFromURL`) and TOTP code generation (`totp.GenerateCode`) are function parameters, not modelled; the current time is a parameter.
- Entry.TwofactorUri: `url.PathEscape` and the query encoding of `url.Values` are function parameters; the result is only characterised by its `otpauth://` prefix.
- Search.MatchFold: Unicode case folding is restricted to ASCII lower-casing, and characters are compared as Dafny chars, not UTF-8 runes.
- Store.Blobs.Set: `strings.ToLower` is restricted to ASCII.
- Entry.Blob.Updated: float64 is modelled as a real, so rounding of float64 and out-of-range int64 conversion are not modelled; int64 values are unbounded integers. The unused `name` parameter of the source is dropped.
- Error messages: errors carry a kind and the key or index involved, not the formatted text.
- Aliasing: the source mutates a map shared between a `Blob` and the store; the model updates `entries[name]` of the store directly and does not model views that outlive a change.
- Iteration order of `Find`: unspecified in the source; the result is specified as a duplicate-free sequence whose elements are exactly the matching names.
- Store-level delete is not in this source file and is not part of this model.

## Findings

| source | as written | input that shows it | evidently intended | confidence | as-written member | corrected member |
|---|---|---|---|---|---|---|
| blobformat/format.go:278 | `Set` stores the value under the entry's own name (`blob.B[name] = value`) | `Set("site", "user", "new")` on an entry whose user is "old": User stays "old", a field "site" appears | store under the lower-cased key, as the doc comment at line 263 says | high; not executed | `History.SetAsWrittenMissesTheKey` (over `Entry.SetFieldsAsWritten`) | `History.SetUserReadsBack` (over `Entry.SetFields`, used by `Store.Blobs.Set`) |
