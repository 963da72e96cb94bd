/**
 * The in-memory note store of simplynotes: `NotesDb` holding a slice of pointers
 * to `Note`, and the three things the command line does with it (`add`,
 * `complete`, `print`). The current time and the text a timestamp is shown as are
 * parameters; output lines are returned instead of written to stdout.
 */
module Notes {
  import opened Text

  /** The value of one note, as the JSON file stores it. */
  datatype NoteData = NoteData(content: string, done: bool, doneTs: int64)

  /** Why `complete` dies: the index is not an integer, or it selects no note. */
  datatype Failure =
    | NotAnInteger(text: string)
    | IndexOutOfRange(index: int64, length: nat)

  datatype Result<+T> = Ok(value: T) | Err(failure: Failure)

  // ---------------------------------------------------------------------------
  // Specification on values
  // ---------------------------------------------------------------------------

  /** The note `add` appends: the words joined by spaces, open, timestamp 0. */
  function NewNote(words: seq<string>): (n: NoteData)
    ensures !n.done && n.doneTs == 0
    ensures |words| == 0 ==> n.content == ""
    ensures |words| > 0 ==> |n.content| == TotalLength(words) + |words| - 1
    ensures |words| == 1 ==> n.content == words[0]
  {
    NoteData(JoinSpaces(words), false, 0)
  }

  /** The notes after note `i` is completed at time `now`. */
  function MarkDone(notes: seq<NoteData>, i: nat, now: int64): (r: seq<NoteData>)
    requires i < |notes|
    ensures |r| == |notes|
    ensures r[i].content == notes[i].content && r[i].done && r[i].doneTs == now
    ensures forall j :: 0 <= j < |notes| && j != i ==> r[j] == notes[j]
  {
    notes[i := notes[i].(done := true, doneTs := now)]
  }

  /** The text `print` puts between the index and the content. */
  function Prefix(note: NoteData, date: int64 -> string): (p: string)
    ensures p == "" <==> !note.done
    ensures note.done ==> p == "[DONE " + date(note.doneTs) + "] "
  {
    if note.done then "[DONE " + date(note.doneTs) + "] " else ""
  }

  /** The line `print` writes for the note at index `i`. */
  function Line(i: nat, note: NoteData, date: int64 -> string): (line: string)
    ensures |Decimal(i)| + 2 + |note.content| <= |line|
    ensures line[..|Decimal(i)| + 2] == Decimal(i) + ": "
    ensures line[|line| - |note.content|..] == note.content
    ensures !note.done ==> line == Decimal(i) + ": " + note.content
  {
    var head := Decimal(i) + ": ";
    var line := Decimal(i) + ": " + Prefix(note, date) + note.content;
    assert line == head + (Prefix(note, date) + note.content);
    line
  }

  /** Everything `print` writes: one line per note, in index order. */
  function Listing(notes: seq<NoteData>, date: int64 -> string): (lines: seq<string>)
    ensures |lines| == |notes|
    ensures forall i :: 0 <= i < |notes| ==> lines[i] == Line(i, notes[i], date)
  {
    if |notes| == 0 then []
    else Listing(notes[..|notes| - 1], date) + [Line(|notes| - 1, notes[|notes| - 1], date)]
  }

  /**
   * How `complete` turns its argument into a position: strconv.Atoi, and then
   * Go's slice indexing, which accepts only 0 <= index < length.
   */
  function ParseIndex(text: string, length: nat): (r: Result<nat>)
    ensures r.Ok? ==> r.value < length && Atoi(text).Some? && Atoi(text).value as int == r.value
    ensures r == Err(NotAnInteger(text)) <==> Atoi(text).None?
    ensures Atoi(text).Some? && r.Err? ==>
      r == Err(IndexOutOfRange(Atoi(text).value, length)) && (Atoi(text).value < 0 || Atoi(text).value as int >= length)
  {
    match Atoi(text)
    case None => Err(NotAnInteger(text))
    case Some(v) => if 0 <= v as int < length then Ok(v as nat) else Err(IndexOutOfRange(v, length))
  }

  // ---------------------------------------------------------------------------
  // Properties of the value-level operations
  // ---------------------------------------------------------------------------

  /** Adding a note adds exactly one line, for the new index, and keeps the others. */
  lemma {:induction false} ListingAppend(notes: seq<NoteData>, note: NoteData, date: int64 -> string)
    ensures Listing(notes + [note], date) == Listing(notes, date) + [Line(|notes|, note, date)]
  {
    assert (notes + [note])[..|notes|] == notes;
  }

  /** Completing note `i` changes line `i` only, and that line gains the prefix. */
  lemma {:induction false} ListingMarkDone(notes: seq<NoteData>, i: nat, now: int64, date: int64 -> string)
    requires i < |notes|
    ensures var before, after := Listing(notes, date), Listing(MarkDone(notes, i, now), date);
      |after| == |before| &&
      (forall j :: 0 <= j < |notes| && j != i ==> after[j] == before[j]) &&
      after[i] == Line(i, notes[i].(done := true, doneTs := now), date)
  {
  }

  /** Completing a note again keeps it done and only moves its timestamp. */
  lemma {:induction false} MarkDoneAgain(notes: seq<NoteData>, i: nat, first: int64, second: int64)
    requires i < |notes|
    ensures MarkDone(MarkDone(notes, i, first), i, second) == MarkDone(notes, i, second)
  {
  }

  /**
   * The index `print` shows for a note is the argument that makes `complete`
   * select that same note.
   */
  lemma {:induction false} ListedIndexSelects(notes: seq<NoteData>, i: nat, date: int64 -> string)
    requires i < |notes| && i <= MaxInt64
    ensures ParseIndex(Decimal(i), |notes|) == Ok(i)
    ensures Listing(notes, date)[i][..|Decimal(i)| + 2] == Decimal(i) + ": "
  {
    ParseIndexDecimal(i, |notes|);
    ListingLineStartsWithIndex(notes, i, date);
  }

  lemma {:induction false} ListingLineStartsWithIndex(notes: seq<NoteData>, i: nat, date: int64 -> string)
    requires i < |notes|
    ensures Listing(notes, date)[i][..|Decimal(i)| + 2] == Decimal(i) + ": "
  {
  }

  lemma {:induction false} ParseIndexDecimal(i: nat, length: nat)
    requires i < length && i <= MaxInt64
    ensures ParseIndex(Decimal(i), length) == Ok(i)
  {
    AtoiDecimal(i);
  }

  /** What `add` and `complete` never break: an open note has timestamp 0. */
  ghost predicate OpenNotesUnstamped(notes: seq<NoteData>)
  {
    forall i :: 0 <= i < |notes| ==> !notes[i].done ==> notes[i].doneTs == 0
  }

  lemma {:induction false} UpdatesKeepOpenNotesUnstamped(notes: seq<NoteData>, words: seq<string>, i: nat, now: int64)
    requires OpenNotesUnstamped(notes)
    ensures OpenNotesUnstamped(notes + [NewNote(words)])
    ensures i < |notes| ==> OpenNotesUnstamped(MarkDone(notes, i, now))
  {
  }

  // ---------------------------------------------------------------------------
  // The store
  // ---------------------------------------------------------------------------

  /** Go's `Note`; the store holds pointers to notes, so `complete` assigns through one. */
  class Note {
    var content: string
    var done: bool
    var doneTs: int64

    constructor (content: string, done: bool, doneTs: int64)
      ensures Data() == NoteData(content, done, doneTs)
    {
      this.content := content;
      this.done := done;
      this.doneTs := doneTs;
    }

    function Data(): NoteData
      reads this
    {
      NoteData(content, done, doneTs)
    }
  }

  /** Go's `NotesDb`: the ordered notes; a note's position is its user-facing index. */
  class NotesDb {
    var notes: seq<Note>

    /** No note is reachable from two positions (decoding and `add` allocate each one). */
    ghost predicate Valid()
      reads this
    {
      forall i, j :: 0 <= i < j < |notes| ==> notes[i] != notes[j]
    }

    /** The values of the notes, in order. */
    function Contents(): (s: seq<NoteData>)
      reads this, notes
      ensures |s| == |notes|
      ensures forall i :: 0 <= i < |notes| ==> s[i] == notes[i].Data()
    {
      seq(|notes|, i reads this, notes requires 0 <= i < |notes| => notes[i].Data())
    }

    /** The empty store loading starts from, before the file is decoded into it. */
    constructor ()
      ensures Valid() && Contents() == []
    {
      notes := [];
    }

    /** `add`: append a new open note whose content is the words joined by spaces. */
    method Add(words: seq<string>)
      requires Valid()
      modifies this
      ensures Valid()
      ensures Contents() == old(Contents()) + [NewNote(words)]
      ensures notes[..|old(notes)|] == old(notes) && fresh(notes[|old(notes)|])
    {
      var content := JoinSpaces(words);
      var note := new Note(content, false, 0);
      notes := notes + [note];
      assert notes[..|old(notes)|] == old(notes);
    }

    /**
     * `complete`: parse the index, mark that note done at `now`, then print the
     * whole store. A bad index fails before anything changes.
     */
    method Complete(index: string, now: int64, date: int64 -> string) returns (r: Result<seq<string>>)
      requires Valid()
      modifies notes
      ensures Valid()
      ensures match ParseIndex(index, |old(Contents())|)
        case Err(f) => r == Err(f) && Contents() == old(Contents())
        case Ok(i) => Contents() == MarkDone(old(Contents()), i, now) && r == Ok(Listing(Contents(), date))
    {
      var parsed := ParseIndex(index, |notes|);
      if parsed.Err? {
        return Err(parsed.failure);
      }
      var i := parsed.value;
      notes[i].done := true;
      notes[i].doneTs := now;
      var lines := Print(date);
      r := Ok(lines);
    }

    /** `print`: one line per note, "<index>: <prefix><content>", in index order. */
    method Print(date: int64 -> string) returns (lines: seq<string>)
      ensures lines == Listing(Contents(), date)
    {
      ghost var contents := Contents();
      lines := [];
      var prefix := "";
      var i := 0;
      while i < |notes|
        invariant 0 <= i <= |notes|
        invariant |lines| == i
        invariant forall k :: 0 <= k < i ==> lines[k] == Line(k, contents[k], date)
      {
        var v := notes[i];
        if v.done {
          prefix := "[DONE " + date(v.doneTs) + "] ";
        } else {
          prefix := "";
        }
        assert prefix == Prefix(contents[i], date);
        lines := lines + [Decimal(i) + ": " + prefix + v.content];
        i := i + 1;
      }
      assert lines == Listing(contents, date);
    }
  }
}
