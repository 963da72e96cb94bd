/**
 * The command dispatch of simplynotes' `main`: `list`, `done <index>` and
 * `add <words...>`, with a `dirty` flag deciding whether the store is written
 * back. `args` is os.Args, so args[0] is the program name and args[1] the
 * command. `db` stands for the store loading would produce; whether it is
 * saved, and with which contents, is part of the result.
 */
module Cli {
  import opened Text
  import opened Notes

  const UsageMessage: string := "You need at least 2 arguments"

  /** Why a command dies before the store would be saved. */
  datatype Crash =
    | IndexArgumentMissing      // `done` with no os.Args[2]
    | CompleteFailed(failure: Failure)

  /** How one run of the program ends. */
  datatype Outcome =
    | Usage(message: string)                      // fewer than two arguments: nothing loaded
    | Finished(output: seq<string>, saved: bool)  // printed lines; whether the store is written back
    | Crashed(crash: Crash)

  method Run(args: seq<string>, db: NotesDb, now: int64, date: int64 -> string) returns (o: Outcome)
    requires db.Valid()
    modifies db, db.notes
    ensures db.Valid()
    ensures forall k :: 0 <= k < |db.notes| ==> db.notes[k] in old(db.notes) || fresh(db.notes[k])
    ensures o.Usage? <==> |args| < 2
    ensures o.Usage? ==> o.message == UsageMessage
    // the store is written back exactly when `done` or `add` went through
    ensures (o.Finished? && o.saved) <==> |args| >= 2 && (args[1] == "done" || args[1] == "add") && !o.Crashed?
    // a run that writes nothing back leaves the store as it was
    ensures !(o.Finished? && o.saved) ==> db.Contents() == old(db.Contents())
    ensures |args| >= 2 && args[1] == "list" ==> o == Finished(Listing(old(db.Contents()), date), false)
    ensures |args| >= 2 && args[1] != "list" && args[1] != "done" && args[1] != "add" ==> o == Finished([], false)
    ensures |args| >= 2 && args[1] == "add" ==>
      o == Finished([], true) && db.Contents() == old(db.Contents()) + [NewNote(args[2..])]
    ensures |args| == 2 && args[1] == "done" ==> o == Crashed(IndexArgumentMissing)
    ensures |args| >= 3 && args[1] == "done" ==>
      match ParseIndex(args[2], |old(db.Contents())|)
      case Err(f) => o == Crashed(CompleteFailed(f))
      case Ok(i) =>
        db.Contents() == MarkDone(old(db.Contents()), i, now) &&
        o == Finished(Listing(db.Contents(), date), true)
  {
    if |args| < 2 {
      return Usage(UsageMessage);
    }
    var dirty := false;
    var output: seq<string> := [];
    match args[1] {
      case "list" =>
        output := db.Print(date);
      case "done" =>
        if |args| < 3 {
          return Crashed(IndexArgumentMissing);
        }
        var r := db.Complete(args[2], now, date);
        if r.Err? {
          return Crashed(CompleteFailed(r.failure));
        }
        output := r.value;
        dirty := true;
      case "add" =>
        db.Add(args[2..]);
        dirty := true;
      case _ =>
    }
    o := Finished(output, dirty);
  }

  /** Two words join around one space. */
  lemma {:induction false} JoinTwo(first: string, second: string)
    ensures JoinSpaces([first, second]) == first + " " + second
  {
    assert [first, second][1..] == [second];
  }

  /** "0" selects the first note of any non-empty store. */
  lemma {:induction false} ParseIndexZero(length: nat)
    requires length > 0
    ensures ParseIndex("0", length) == Ok(0)
  {
    assert Atoi("0") == Some(0);
  }

  /** A store of one done note lists as that note with its date. */
  lemma {:induction false} ListingOneDone(content: string, now: int64, date: int64 -> string)
    ensures Listing([NoteData(content, true, now)], date) == ["0: [DONE " + date(now) + "] " + content]
  {
    var n := NoteData(content, true, now);
    var d := date(now);
    assert Decimal(0) == "0";
    assert Prefix(n, date) == "[DONE " + d + "] ";
    assert "0" + ": " == "0: ";
    assert "0: " + ("[DONE " + d + "] ") == "0: [DONE " + d + "] ";
    assert Line(0, n, date) == "0: [DONE " + d + "] " + content;
  }

  /** The text facts behind the `buy milk` run. */
  lemma {:induction false} BuyMilkText(now: int64, date: int64 -> string)
    ensures JoinSpaces(["buy", "milk"]) == "buy milk"
    ensures ParseIndex("0", 1) == Ok(0)
    ensures Listing([NoteData("buy milk", true, now)], date) == ["0: [DONE " + date(now) + "] buy milk"]
  {
    JoinTwo("buy", "milk");
    ParseIndexZero(1);
    ListingOneDone("buy milk", now, date);
    assert "0: [DONE " + date(now) + "] " + "buy milk" == "0: [DONE " + date(now) + "] buy milk";
  }

  /**
   * From an empty store: `add buy milk`, then `done 0`. The note is stored as
   * "buy milk" and then listed with its completion date.
   */
  method BuyMilk(now: int64, date: int64 -> string) returns (added: Outcome, afterAdd: seq<NoteData>, completed: Outcome, notes: seq<NoteData>)
    ensures added == Finished([], true)
    ensures afterAdd == [NoteData("buy milk", false, 0)]
    ensures notes == [NoteData("buy milk", true, now)]
    ensures completed == Finished(["0: [DONE " + date(now) + "] buy milk"], true)
  {
    BuyMilkText(now, date);
    var db := new NotesDb();
    var addArgs := ["simplynotes", "add", "buy", "milk"];
    assert addArgs[1] == "add" && addArgs[2..] == ["buy", "milk"];
    added := Run(addArgs, db, now, date);
    afterAdd := db.Contents();
    assert afterAdd == [NewNote(["buy", "milk"])];
    assert forall k :: 0 <= k < |db.notes| ==> fresh(db.notes[k]);
    var doneArgs := ["simplynotes", "done", "0"];
    assert doneArgs[1] == "done" && doneArgs[2] == "0";
    completed := Run(doneArgs, db, now, date);
    notes := db.Contents();
  }

  /** The text facts behind the `add a`, `add b`, `list` run. */
  lemma {:induction false} TwoNotesText(date: int64 -> string)
    ensures JoinSpaces(["a"]) == "a" && JoinSpaces(["b"]) == "b"
    ensures Listing([NoteData("a", false, 0), NoteData("b", false, 0)], date) == ["0: a", "1: b"]
  {
    var ns := [NoteData("a", false, 0), NoteData("b", false, 0)];
    assert Decimal(0) == "0" && Decimal(1) == "1";
    assert Line(0, ns[0], date) == "0: a";
    assert Line(1, ns[1], date) == "1: b";
    assert Listing(ns, date) == [Line(0, ns[0], date), Line(1, ns[1], date)];
  }

  /** `add a` then `add b`: two open notes, listed as index 0 then index 1. */
  method TwoNotesInOrder(now: int64, date: int64 -> string) returns (listed: Outcome)
    ensures listed == Finished(["0: a", "1: b"], false)
  {
    TwoNotesText(date);
    var db := new NotesDb();
    var addA, addB, list := ["simplynotes", "add", "a"], ["simplynotes", "add", "b"], ["simplynotes", "list"];
    assert addA[1] == "add" && addA[2..] == ["a"];
    assert addB[1] == "add" && addB[2..] == ["b"];
    assert list[1] == "list";
    var first := Run(addA, db, now, date);
    assert forall k :: 0 <= k < |db.notes| ==> fresh(db.notes[k]);
    var second := Run(addB, db, now, date);
    assert forall k :: 0 <= k < |db.notes| ==> fresh(db.notes[k]);
    assert db.Contents() == [NoteData("a", false, 0), NoteData("b", false, 0)];
    listed := Run(list, db, now, date);
  }
}
