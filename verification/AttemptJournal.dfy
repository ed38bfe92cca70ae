/**
 The attempt journal: one record per line, flushed record by record, and the reader
 that must make sense of any prefix of it.

 JSON is a parameter: an encoding of records without line breaks that decodes back,
 with or without its line break, and none of whose strict prefixes decodes.
 */
module AttemptJournal {
  import opened Common
  import opened Schedule
  import opened Text

  datatype Event =
    | Started(attempt: Digest)
    | Finished(attempt: Digest, status: string)
    | Loaded(block: nat, arm: ArmId)
    | Remark(kind: string)

  datatype Codec = Codec(encode: Event -> string, decode: string -> Option<Event>)
  {
    ghost predicate Sound() {
      && (forall e :: encode(e) != "" && '\n' !in encode(e))
      && (forall e :: decode(encode(e)) == Some(e) && decode(encode(e) + "\n") == Some(e))
      && (forall e, n :: 0 <= n < |encode(e)| ==> decode(encode(e)[..n]) == None)
    }

    function Line(e: Event): string {
      encode(e) + "\n"
    }

    function Text(events: seq<Event>): string {
      if events == [] then "" else Line(events[0]) + Text(events[1..])
    }
  }

  class Journal {
    const codec: Codec
    var text: string
    ghost var events: seq<Event>

    ghost predicate Valid()
      reads this
    {
      text == codec.Text(events)
    }

    constructor (codec: Codec)
      ensures this.codec == codec && Valid() && events == []
    {
      this.codec := codec;
      text := "";
      events := [];
    }

    method Append(e: Event)
      requires Valid()
      modifies this
      ensures Valid()
      ensures events == old(events) + [e] && text == old(text) + codec.Line(e)
    {
      TextAppends(codec, events, e);
      text := text + (codec.encode)(e) + "\n";
      events := events + [e];
      assert text == old(text) + codec.Line(e);
    }
  }

  lemma {:induction false} TextAppends(codec: Codec, events: seq<Event>, e: Event)
    ensures codec.Text(events + [e]) == codec.Text(events) + codec.Line(e)
  {
    if events == [] {
      assert [e][1..] == [];
    } else {
      TextAppends(codec, events[1..], e);
      assert (events + [e])[1..] == events[1..] + [e];
    }
  }

  // ----- Reading -----

  function LineEnd(text: string): (n: nat)
    requires '\n' in text
    ensures n < |text| && text[n] == '\n' && '\n' !in text[..n]
  {
    if text[0] == '\n' then 0 else 1 + LineEnd(text[1..])
  }

  // The lines of a text, each with its line break if it has one.
  function Lines(text: string): seq<string>
    decreases |text|
  {
    if text == "" then []
    else if '\n' !in text then [text]
    else [text[..LineEnd(text) + 1]] + Lines(text[LineEnd(text) + 1..])
  }

  // The last record of each attempt seen so far.
  function Record(latest: map<Digest, Event>, e: Event): map<Digest, Event> {
    if e.Started? || e.Finished? then latest[e.attempt := e] else latest
  }

  function Latest(events: seq<Event>): map<Digest, Event> {
    if events == [] then map[] else Record(Latest(events[..|events| - 1]), Last(events))
  }

  // A torn last line ends the journal; any other unreadable line is an error.
  function Parse(codec: Codec, lines: seq<string>, latest: map<Digest, Event>): Result<map<Digest, Event>, string> {
    if lines == [] then Ok(latest)
    else match (codec.decode)(lines[0])
      case Some(e) => Parse(codec, lines[1..], Record(latest, e))
      case None =>
        if |lines| == 1 && '\n' !in lines[0] then Ok(latest) else Err("undecodable record")
  }

  datatype RowStatus = NotStarted | Interrupted | Done(status: string)

  function StatusOf(latest: map<Digest, Event>, id: Digest): RowStatus {
    if id !in latest then NotStarted
    else match latest[id]
      case Finished(_, status) => Done(status)
      case _ => Interrupted
  }

  function Statuses(latest: map<Digest, Event>, rows: seq<Request>): (s: seq<RowStatus>)
    ensures |s| == |rows|
  {
    seq(|rows|, i requires 0 <= i < |rows| => StatusOf(latest, rows[i].id))
  }

  function Attempts(codec: Codec, text: Option<string>, rows: seq<Request>): Result<seq<RowStatus>, string> {
    match Parse(codec, if text.Some? then Lines(text.value) else [], map[])
    case Ok(latest) => Ok(Statuses(latest, rows))
    case Err(e) => Err(e)
  }

  /** Read the journal, if there is one, and give every scheduled row its status. */
  method ReadAttempts(codec: Codec, text: Option<string>, rows: seq<Request>)
      returns (result: Result<seq<RowStatus>, string>)
    ensures result == Attempts(codec, text, rows)
    ensures text.None? ==> result.Ok? && forall j :: 0 <= j < |rows| ==> result.value[j] == NotStarted
  {
    hide Lines;
    var latest: map<Digest, Event> := map[];
    if text.Some? {
      var lines := Lines(text.value);
      var i := 0;
      while i < |lines|
        invariant 0 <= i <= |lines|
        invariant Parse(codec, lines, map[]) == Parse(codec, lines[i..], latest)
      {
        assert lines[i..][0] == lines[i] && lines[i..][1..] == lines[i + 1..];
        var e := (codec.decode)(lines[i]);
        if e.None? {
          if i == |lines| - 1 && '\n' !in lines[i] {
            break;
          }
          return Err("undecodable record");
        }
        if e.value.Started? || e.value.Finished? {
          latest := latest[e.value.attempt := e.value];
        }
        i := i + 1;
      }
    }
    assert Parse(codec, if text.Some? then Lines(text.value) else [], map[]) == Ok(latest);
    var statuses := ReadStatuses(latest, rows);
    return Ok(statuses);
  }

  method ReadStatuses(latest: map<Digest, Event>, rows: seq<Request>) returns (statuses: seq<RowStatus>)
    ensures statuses == Statuses(latest, rows)
  {
    statuses := [];
    for k := 0 to |rows|
      invariant statuses == Statuses(latest, rows)[..k]
    {
      statuses := statuses + [StatusOf(latest, rows[k].id)];
    }
    assert Statuses(latest, rows)[..|rows|] == Statuses(latest, rows);
  }

  // ----- What any text says -----

  function Concatenated(lines: seq<string>): string {
    if lines == [] then "" else lines[0] + Concatenated(lines[1..])
  }

  /** A text is its lines, none empty, each with at most one line break, at its end, and
      all but the last with one. */
  lemma {:induction false} LinesMakeUpTheText(text: string)
    ensures Concatenated(Lines(text)) == text
    ensures forall i :: 0 <= i < |Lines(text)| ==>
      && Lines(text)[i] != "" && '\n' !in Lines(text)[i][..|Lines(text)[i]| - 1]
      && (i < |Lines(text)| - 1 ==> Last(Lines(text)[i]) == '\n')
    decreases |text|
  {
    if text != "" && '\n' in text {
      var n := LineEnd(text) + 1;
      LinesMakeUpTheText(text[n..]);
      assert text == text[..n] + text[n..];
      assert text[..n][..n - 1] == text[..n - 1];
    }
  }

  // This line is a record of the attempt.
  predicate Tells(codec: Codec, line: string, id: Digest) {
    var e := codec.decode(line);
    e.Some? && (e.value.Started? || e.value.Finished?) && e.value.attempt == id
  }

  // No later line is.
  predicate TellsLast(codec: Codec, lines: seq<string>, id: Digest, i: int) {
    0 <= i < |lines| && Tells(codec, lines[i], id) && forall k :: i < k < |lines| ==> !Tells(codec, lines[k], id)
  }

  // A line that is not a record, and not a last one without its line break.
  predicate Corrupt(codec: Codec, lines: seq<string>, i: int) {
    0 <= i < |lines| && codec.decode(lines[i]).None? && (i < |lines| - 1 || '\n' in lines[i])
  }

  lemma {:induction false} ParseRefuses(codec: Codec, lines: seq<string>, latest: map<Digest, Event>)
    ensures Parse(codec, lines, latest).Err? <==> exists i :: Corrupt(codec, lines, i)
  {
    if lines != [] {
      if codec.decode(lines[0]).None? {
        assert Corrupt(codec, lines, 0) <==> |lines| > 1 || '\n' in lines[0];
      } else {
        var rest := lines[1..];
        ParseRefuses(codec, rest, Record(latest, codec.decode(lines[0]).value));
        if i :| Corrupt(codec, rest, i) {
          assert Corrupt(codec, lines, i + 1);
        }
        if i :| Corrupt(codec, lines, i) {
          assert Corrupt(codec, rest, i - 1);
        }
      }
    }
  }

  lemma {:induction false} ParseKeepsLast(codec: Codec, lines: seq<string>, latest: map<Digest, Event>, id: Digest,
      i: nat)
    requires Parse(codec, lines, latest).Ok? && TellsLast(codec, lines, id, i)
    ensures
      var after := Parse(codec, lines, latest).value;
      id in after && codec.decode(lines[i]) == Some(after[id])
  {
    var rest, next := lines[1..], Record(latest, codec.decode(lines[0]).value);
    if i > 0 {
      ParseKeepsLast(codec, rest, next, id, i - 1);
    } else {
      ParseAddsNothing(codec, rest, next, id);
    }
  }

  lemma {:induction false} ParseAddsNothing(codec: Codec, lines: seq<string>, latest: map<Digest, Event>, id: Digest)
    requires Parse(codec, lines, latest).Ok? && forall i :: 0 <= i < |lines| ==> !Tells(codec, lines[i], id)
    ensures
      var after := Parse(codec, lines, latest).value;
      (id in after <==> id in latest) && (id in after ==> after[id] == latest[id])
  {
    if lines != [] && codec.decode(lines[0]).Some? {
      assert !Tells(codec, lines[0], id);
      ParseAddsNothing(codec, lines[1..], Record(latest, codec.decode(lines[0]).value), id);
    }
  }

  /** Reading, for any text.  It is refused exactly if some line other than a last one
      without its line break does not decode.  Otherwise the last record of a row's
      attempt decides: finished gives its status, started interrupted, none not started. */
  lemma ReadingIsExact(codec: Codec, text: string, rows: seq<Request>, j: nat)
    requires j < |rows|
    ensures Attempts(codec, Some(text), rows).Err? <==> exists i :: Corrupt(codec, Lines(text), i)
    ensures Attempts(codec, Some(text), rows).Ok? ==>
      var lines, read := Lines(text), Attempts(codec, Some(text), rows).value;
      && |read| == |rows|
      && (read[j] == NotStarted <==> forall i :: 0 <= i < |lines| ==> !Tells(codec, lines[i], rows[j].id))
      && (forall i :: TellsLast(codec, lines, rows[j].id, i) ==>
            match codec.decode(lines[i]).value
            case Finished(_, status) => read[j] == Done(status)
            case _ => read[j] == Interrupted)
  {
    hide Lines, Parse;
    var lines, id := Lines(text), rows[j].id;
    ParseRefuses(codec, lines, map[]);
    if Parse(codec, lines, map[]).Ok? {
      var after := Parse(codec, lines, map[]).value;
      assert Attempts(codec, Some(text), rows) == Ok(Statuses(after, rows));
      forall i | TellsLast(codec, lines, id, i) ensures id in after && codec.decode(lines[i]) == Some(after[id]) {
        ParseKeepsLast(codec, lines, map[], id, i);
      }
      if exists i :: 0 <= i < |lines| && Tells(codec, lines[i], id) {
        var i := LastTelling(codec, lines, id);
      } else {
        ParseAddsNothing(codec, lines, map[], id);
      }
    }
  }

  lemma {:induction false} LastTelling(codec: Codec, lines: seq<string>, id: Digest) returns (i: nat)
    requires exists k :: 0 <= k < |lines| && Tells(codec, lines[k], id)
    ensures TellsLast(codec, lines, id, i)
  {
    var n := |lines| - 1;
    if Tells(codec, lines[n], id) {
      i := n;
    } else {
      i := LastTelling(codec, lines[..n], id);
    }
  }

  // ----- What a prefix of the text says -----

  lemma CutLines(line: string, rest: string)
    requires '\n' !in line
    ensures Lines(line + "\n" + rest) == [line + "\n"] + Lines(rest)
  {
    var text := line + "\n" + rest;
    assert text[|line|] == '\n';
    var k := LineEnd(text);
    assert text == text[..k] + ['\n'] + text[k + 1..] == line + ['\n'] + rest;
    CutIsUnique(text[..k], text[k + 1..], line, rest, '\n');
    assert text[..k + 1] == line + "\n";
  }

  // Cut anywhere, the text still holds a prefix of the records, perhaps with a torn one.
  lemma {:induction false} ParseOfCut(codec: Codec, events: seq<Event>, n: nat, latest: map<Digest, Event>)
    returns (m: nat)
    requires codec.Sound() && n <= |codec.Text(events)|
    ensures m <= |events|
    ensures |codec.Text(events[..m])| <= n + 1
    ensures Parse(codec, Lines(codec.Text(events)[..n]), latest) == Ok(After(latest, events[..m]))
    ensures n == |codec.Text(events)| ==> m == |events|
    decreases |events|, 1
  {
    var text := codec.Text(events);
    if n == 0 {
      m := 0;
      assert text[..0] == "" && events[..0] == [];
      if events != [] {
        assert |codec.Line(events[0])| > 0;
      }
    } else {
      var e := events[0];
      var line := (codec.encode)(e);
      var rest := codec.Text(events[1..]);
      assert text == line + "\n" + rest;
      if n <= |line| {
        m := CutInsideLine(codec, events, n, latest);
      } else {
        m := CutLater(codec, events, n, latest);
      }
    }
  }

  // The records seen, folded from the front.
  function After(latest: map<Digest, Event>, events: seq<Event>): map<Digest, Event>
    decreases |events|
  {
    if events == [] then latest else After(Record(latest, events[0]), events[1..])
  }

  lemma CutInsideLine(codec: Codec, events: seq<Event>, n: nat, latest: map<Digest, Event>) returns (m: nat)
    requires codec.Sound() && events != [] && 0 < n <= |codec.encode(events[0])|
    ensures n < |codec.Text(events)| && m <= 1
    ensures |codec.Text(events[..m])| <= n + 1
    ensures Parse(codec, Lines(codec.Text(events)[..n]), latest) == Ok(After(latest, events[..m]))
  {
    var line := (codec.encode)(events[0]);
    var text := codec.Text(events);
    assert text[..n] == line[..n];
    assert Lines(line[..n]) == [line[..n]];
    if n == |line| {
      assert line[..n] == line;
      m := 1;
      assert events[..1] == [events[0]] && [events[0]][1..] == [];
      assert Parse(codec, [line], latest) == Parse(codec, [line][1..], Record(latest, events[0]));
    } else {
      m := 0;
      assert events[..0] == [];
    }
  }

  lemma {:induction false} CutLater(codec: Codec, events: seq<Event>, n: nat, latest: map<Digest, Event>)
    returns (m: nat)
    requires codec.Sound() && events != [] && |codec.encode(events[0])| < n <= |codec.Text(events)|
    ensures m <= |events|
    ensures |codec.Text(events[..m])| <= n + 1
    ensures Parse(codec, Lines(codec.Text(events)[..n]), latest) == Ok(After(latest, events[..m]))
    ensures n == |codec.Text(events)| ==> m == |events|
    decreases |events|, 0
  {
    var line := (codec.encode)(events[0]);
    var rest := codec.Text(events[1..]);
    var left := n - |line| - 1;
    var k := ParseOfCut(codec, events[1..], left, Record(latest, events[0]));
    m := k + 1;
    assert codec.Text(events)[..n] == line + "\n" + rest[..left];
    CutLines(line, rest[..left]);
    var lines := Lines(codec.Text(events)[..n]);
    assert lines[0] == line + "\n" && lines[1..] == Lines(rest[..left]);
    assert events[..m][0] == events[0] && events[..m][1..] == events[1..][..k];
  }

  lemma {:induction false} AfterIsLatest(latest: map<Digest, Event>, events: seq<Event>, e: Event)
    ensures After(latest, events + [e]) == Record(After(latest, events), e)
    decreases |events|
  {
    if events == [] {
      assert [e][1..] == [];
    } else {
      AfterIsLatest(Record(latest, events[0]), events[1..], e);
      assert (events + [e])[1..] == events[1..] + [e];
    }
  }

  lemma {:induction false} FoldsAgree(events: seq<Event>)
    ensures After(map[], events) == Latest(events)
  {
    if events != [] {
      FoldsAgree(events[..|events| - 1]);
      AfterIsLatest(map[], events[..|events| - 1], Last(events));
      assert events == events[..|events| - 1] + [Last(events)];
    }
  }

  /** Whatever number of characters of the journal reached the disk, reading it never
      fails: it gives the statuses after some prefix of the records, never beyond the
      records whose every character but the last line break is there, and the whole
      journal gives all of them. */
  lemma EveryCutIsAPrefixOfRecords(codec: Codec, events: seq<Event>, n: nat, rows: seq<Request>) returns (m: nat)
    requires codec.Sound() && n <= |codec.Text(events)|
    ensures m <= |events|
    ensures |codec.Text(events[..m])| <= n + 1
    ensures Attempts(codec, Some(codec.Text(events)[..n]), rows) == Ok(Statuses(Latest(events[..m]), rows))
    ensures n == |codec.Text(events)| ==> m == |events|
  {
    m := ParseOfCut(codec, events, n, map[]);
    FoldsAgree(events[..m]);
  }
}
