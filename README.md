# simplynotes — a Dafny model of the note store

simplynotes is a small command-line note keeper written in Go (`notes.go`). It keeps
an ordered list of notes (`NotesDb` holding pointers to `Note`). Each note has a text,
a done flag and a completion timestamp in seconds. The program supports three commands.
`add <words...>` appends an open note. `done <index>` marks a note complete at the
current time and prints the list. `list` prints every note as `<index>: <prefix><content>`.
The store is written back to its JSON file only after `done` or `add`.

The model has three modules:

- `text.dfy` — module `Text`. It models the Go library behaviour the store uses:
  `strings.Join(words, " ")` (`JoinSpaces`), `strconv.Atoi` with 64-bit `int` (`Atoi`),
  and `%d` for a non-negative index (`Decimal`). `int64` is a newtype with Go's bounds.
  `SplitSpaces` is a reference function (Go's `strings.Split(s, " ")`). It is used only
  to show that joining loses no information.
- `notes.dfy` — module `Notes`. `Note` and `NotesDb` are classes, as in Go: the store
  keeps a sequence of note objects, and `Complete` assigns the `done` and `doneTs` fields
  of the selected note through its reference. `NotesDb.Valid()` says no note object
  appears at two positions. `NotesDb.Contents()` gives the value view (`seq<NoteData>`).
  The value-level definitions are `NewNote`, `MarkDone`, `Prefix`, `Line`, `Listing` and
  `ParseIndex`. The lemmas about them are in the same module.
- `cli.dfy` — module `Cli`. It models `main`'s dispatch as `Run`, which returns how the
  run ends: `Usage`, `Finished(output, saved)` or `Crashed`. It also holds two end-to-end
  runs built from `Run`.

Time and date text are parameters. The current time (`time.Now().Unix()`) is the
`now: int64` parameter. The text a timestamp is shown as (`time.Unix(ts, 0).Format(...)`)
is the parameter `date: int64 -> string`, which the model does not interpret. Printed
lines are returned as a sequence. Go writes each one followed by a newline.

Two behaviours of the code are worth stating because they are easy to miss:
- An unrecognised command still loads the store (notes.go:30). It then does nothing and
  saves nothing.
- A new note's `DoneTs` is stored as `0` (notes.go:110), not left out.

## Model

| member | source | states |
|---|---|---|
| `Text.JoinSpaces` | notes.go:109 | Joining no words gives the empty string. Otherwise the content is the words' total length plus one separator per gap, starts with the first word, and has a space right after it when there is a second word. |
| `Text.SplitJoin` | notes.go:109 | For one or more words without spaces, splitting the joined content at spaces gives back exactly those words, so `add` loses no information. |
| `Text.SplitSpaces` | notes.go:109 | The reference split of a string at spaces always yields at least one part, and no part contains a space. |
| `Text.Decimal` | notes.go:94 | The `%d` text of an index is non-empty, all ASCII digits, and has no leading zero unless the index is 0. |
| `Text.DecimalValue` | notes.go:94 | The digits written for an index denote that index. |
| `Text.Atoi` | notes.go:99-102 | Parsing fails on the empty string. On success, the text is one or more digits, optionally preceded by one `+` or `-`. |
| `Text.AtoiDecimal` | notes.go:99 | Every non-negative number up to the int64 maximum, written in decimal, parses back to itself. |
| `Text.AtoiSigned` | notes.go:99 | An explicit `+` or `-` sign is accepted. Values from the int64 minimum to the int64 maximum parse. Magnitudes beyond the 64-bit range fail. |
| `Text.AtoiDigits` | notes.go:99 | An unsigned, non-empty digit string whose value fits in int64 parses to that value. |
| `Text.AtoiLeadingZeros` | notes.go:99 | Any number k of leading zeros is accepted and does not change the value ("007" parses to 7). |
| `Notes.NewNote` | notes.go:109-110 | The note `add` builds is open with timestamp 0. With no words its content is empty. With one word the content is that word. Otherwise its length is the words' total length plus one space per gap. |
| `Notes.MarkDone` | notes.go:103-104 | Completing note i keeps the length and every other note. Note i keeps its content, becomes done and carries the new time. |
| `Notes.Prefix` | notes.go:89-93 | The prefix is empty exactly when the note is open. For a done note it is `[DONE <date of its timestamp>] `. |
| `Notes.Line` | notes.go:94 | A line starts with the decimal index and `: `, and ends with the note's content. For an open note it is exactly `<index>: <content>`. |
| `Notes.Listing` | notes.go:86-95 | The listing has one line per note, and line i is decimal i, `: `, the note's prefix and its content. |
| `Notes.ParseIndex` | notes.go:99-103 | An index is accepted only when Atoi succeeds and the value is in 0..length-1. It fails with `NotAnInteger` exactly when Atoi fails. When Atoi succeeds but the value is out of range, it fails with `IndexOutOfRange` carrying the value and the length. |
| `Notes.ListingAppend` | notes.go:108-112 | After an append, the listing is the old listing plus one line, for the new note at the next index. |
| `Notes.ListingMarkDone` | notes.go:103-105 | Completing note i changes only line i of the listing. That line is the note shown done at the new time. |
| `Notes.MarkDoneAgain` | notes.go:103-104 | Completing an already-done note is not rejected. It stays done, and only the timestamp moves to the newer time. |
| `Notes.ListingLineStartsWithIndex` | notes.go:94 | Line i of the listing begins with decimal i followed by `: `. |
| `Notes.ListedIndexSelects` | notes.go:94 | The index shown on line i, given back to `complete`, selects note i. |
| `Notes.UpdatesKeepOpenNotesUnstamped` | notes.go:103-110 | If every open note has timestamp 0, appending a note or completing one keeps that true. |
| `Notes.Note.constructor` | notes.go:110 | A new note holds exactly the given content, flag and timestamp. |
| `Notes.NotesDb.Contents` | notes.go:14-22 | The store's value is one `NoteData` per stored note, in order, read from that note's fields. |
| `Notes.NotesDb.constructor` | notes.go:49 | Loading starts from an empty, valid store. |
| `Notes.NotesDb.Add` | notes.go:108-112 | The store gains exactly one note, the new note from the words, at the end. Earlier notes are unchanged and in order, and the new note is a fresh object. |
| `Notes.NotesDb.Complete` | notes.go:98-106 | A bad index (not an integer, negative, or too large) fails and changes nothing. Otherwise the store equals MarkDone with the given time, and the result is the listing of the new store. |
| `Notes.NotesDb.Print` | notes.go:86-96 | The printed lines are exactly Listing of the store's contents. |
| `Cli.Run` | notes.go:24-45 | Fewer than two arguments gives only the usage message. A save (the `dirty` flag) happens exactly when `add` or `done` completes. `list` prints the listing, and it and unknown commands save nothing and change nothing. `add` with no words appends an empty note. `done` without an index crashes. `done` with a bad index crashes without changing the store. |
| `Cli.BuyMilkText` | notes.go:94 | The text facts of the `add buy milk` run: the joined content, parsing index "0", and the listed line. |
| `Cli.BuyMilk` | notes.go:24-45 | From an empty store, `add buy milk` saves, and the store then holds exactly one open note "buy milk" with timestamp 0. Then `done 0` saves it as done at the given time and prints `0: [DONE <date>] buy milk`. |
| `Cli.TwoNotesText` | notes.go:94 | The listing of open notes "a" then "b" is `0: a`, `1: b`. |
| `Cli.TwoNotesInOrder` | notes.go:24-45 | `add a`, then `add b`, then `list` prints index 0 then index 1, in insertion order, and the `list` saves nothing. |

## Left out

- Loading and saving the JSON file (`loadNotes`, `saveNotes`, notes.go:47-76) and the path lookup through `SIMPLYNOTES_DBPATH` or `$HOME` (`resolveDbPath`, notes.go:78-84) are file and environment I/O. `Run` takes the loaded store as `db`, and the `saved` flag says whether it would be written back. A load failure, which kills every command with two or more arguments, is not modelled.
- A `null` entry in the file's `notes` array decodes to a nil pointer, and Go crashes on it when printing or completing. The model's notes are never null.
- `time.Now().Unix()` is the `now` parameter. The local-time formatting of a timestamp is the uninterpreted `date` parameter.
- Writing to stdout and stderr is not modelled. Lines are returned without their trailing newline, and the usage message is returned.
- Process termination is modelled as a result value. `log.Panic` on a bad index, Go's index-out-of-range panic, and the missing `os.Args[2]` each become a `Crash` or `Failure` value. The text of the panic messages is not modelled.
- `Text.Atoi`: the model does not distinguish Go's syntax error from its range error. Only the panic message depends on which one occurs.
- `Notes.ListedIndexSelects` requires the index to be at most the int64 maximum, the bound on a Go slice length.
