/**
 * The streaming Fun Mode endpoint of the backend (backend/main.py): the
 * request check, the choice of the prompt's constraint, and the framer that
 * turns the model's "Name: text" lines, arriving in arbitrary chunks, into
 * newline-delimited JSON objects.
 */
module FunModeStream {
  import opened Wrappers
  import opened Text
  import Warroom

  /** The names the framer accepts as speakers. */
  const Speakers: seq<string> := ["Joy", "Sadness", "Anger", "Fear", "Disgust", "Headquarters"]

  /** One emitted NDJSON object {"persona": ..., "text": ...}. */
  datatype Line = Line(persona: string, text: string)

  /**
   * A line split at its first ':', both halves stripped; kept only when the
   * name is one of the speakers.
   */
  function ParseLine(line: string): (r: Option<Line>)
    ensures r.Some? ==> ':' in line && r.value.persona in Speakers
    ensures r.Some? ==> r.value.persona == Strip(line[..IndexOf(line, ':')]) &&
                        r.value.text == Strip(line[IndexOf(line, ':') + 1..])
    ensures r.None? <==> ':' !in line || Strip(line[..IndexOf(line, ':')]) !in Speakers
  {
    if ':' !in line then None
    else
      var j := IndexOf(line, ':');
      var name := Strip(line[..j]);
      if name in Speakers then Some(Line(name, Strip(line[j + 1..]))) else None
  }

  function AsSeq(r: Option<Line>): seq<Line> {
    if r.Some? then [r.value] else []
  }

  /** The object, if any, a complete line yields; the line is stripped first. */
  function LineObject(line: string): seq<Line> {
    AsSeq(ParseLine(Strip(line)))
  }

  /** The object, if any, the rest of the buffer yields at the end; it is not stripped first. */
  function TailObject(rest: string): seq<Line> {
    AsSeq(ParseLine(rest))
  }

  /** The objects the loop emits for complete lines, in order. */
  function Emit(lines: seq<string>): seq<Line> {
    FlatMap(LineObject, lines)
  }

  lemma EmitAppend(a: seq<string>, b: seq<string>)
    ensures Emit(a + b) == Emit(a) + Emit(b)
  {
    FlatMapAppend(LineObject, a, b);
  }

  /** An emitted object names a speaker and carries stripped text. */
  predicate WellFormed(x: Line) {
    x.persona in Speakers && (x.text == [] || (!IsPyWhitespace(x.text[0]) && !IsPyWhitespace(x.text[|x.text| - 1])))
  }

  lemma ParseLineWellFormed(line: string)
    ensures forall x :: x in AsSeq(ParseLine(line)) ==> WellFormed(x)
  {
    var p := ParseLine(line);
    if p.Some? {
      assert AsSeq(p) == [p.value];
    }
  }

  lemma LineObjectWellFormed(line: string)
    ensures forall x :: x in LineObject(line) ==> WellFormed(x)
  {
    ParseLineWellFormed(Strip(line));
  }

  /** Every emitted object names a speaker and has stripped text. */
  lemma {:induction false} EmitWellFormed(lines: seq<string>)
    ensures forall x :: x in Emit(lines) ==> WellFormed(x)
    decreases |lines|
  {
    if |lines| > 0 {
      LineObjectWellFormed(lines[0]);
      EmitWellFormed(lines[1..]);
      assert Emit(lines) == LineObject(lines[0]) + Emit(lines[1..]);
    }
  }

  /** The whole output for a stream's text: its complete lines, then the flushed rest. */
  function Framed(text: string): seq<Line> {
    var parts := Split(text, '\n');
    Emit(AllButLast(parts)) + TailObject(Last(parts))
  }

  /** A text made of lines joined by newlines frames exactly those lines, the last one by the flush. */
  lemma FramedLines(lines: seq<string>)
    requires |lines| > 0 && forall i :: 0 <= i < |lines| ==> '\n' !in lines[i]
    ensures Framed(Join(lines, '\n')) == Emit(AllButLast(lines)) + TailObject(Last(lines))
  {
    SplitOfJoin(lines, '\n');
  }

  /** A newline-terminated text has nothing left to flush. */
  lemma FramedTerminated(lines: seq<string>)
    requires forall i :: 0 <= i < |lines| ==> '\n' !in lines[i]
    ensures Framed(Join(lines + [""], '\n')) == Emit(lines)
  {
    var parts := Split(Join(lines + [""], '\n'), '\n');
    SplitTerminated(lines, '\n');
    assert Framed(Join(lines + [""], '\n')) == Emit(lines) + TailObject(Last(parts));
    NothingToFlush();
  }

  lemma NothingToFlush()
    ensures TailObject("") == []
  {
    assert ':' !in "";
  }

  /**
   * The inner loop of stream_with_buffer, for a per-line rule `frame`: every
   * complete line of the buffer is framed, in order, and the unfinished rest
   * stays in the buffer.
   */
  method DrainLines(frame: string -> seq<Line>, buffer: string) returns (emitted: seq<Line>, rest: string)
    ensures emitted == FlatMap(frame, AllButLast(Split(buffer, '\n')))
    ensures rest == Last(Split(buffer, '\n')) && '\n' !in rest
  {
    emitted := [];
    rest := buffer;
    while '\n' in rest
      invariant emitted + FlatMap(frame, AllButLast(Split(rest, '\n'))) == FlatMap(frame, AllButLast(Split(buffer, '\n')))
      invariant Last(Split(rest, '\n')) == Last(Split(buffer, '\n'))
      decreases |rest|
    {
      var i := IndexOf(rest, '\n');
      FlatMapFirstPart(frame, rest, '\n');
      SplitFirstParts(rest, '\n');
      var line := rest[..i];
      rest := rest[i + 1..];
      emitted := emitted + frame(line);
    }
    SplitNoSeparator(rest, '\n');
  }

  /**
   * The chunk loop of stream_with_buffer, for a per-line rule `frame` and a
   * flush rule `tail`: `chunks` are the model's chunks up to the end of the
   * stream, or up to the exception `failure`, which skips the flush and emits
   * one System line instead.  Empty chunks are skipped.
   */
  method FrameChunks(frame: string -> seq<Line>, tail: string -> seq<Line>, chunks: seq<string>, failure: Option<string>)
    returns (out: seq<Line>)
    ensures failure.None? ==>
              out == FlatMap(frame, AllButLast(Split(Concat(chunks), '\n'))) + tail(Last(Split(Concat(chunks), '\n')))
    ensures failure.Some? ==>
              out == FlatMap(frame, AllButLast(Split(Concat(chunks), '\n'))) + [Line("System", "Connection interrupted: " + failure.value)]
  {
    var buffer := "";
    out := [];
    ghost var seen := "";
    for c := 0 to |chunks|
      invariant seen == Concat(chunks[..c])
      invariant out == FlatMap(frame, AllButLast(Split(seen, '\n'))) && buffer == Last(Split(seen, '\n'))
    {
      var chunk := chunks[c];
      assert chunks[..c + 1][..c] == chunks[..c];
      if chunk != "" {
        SplitAppendParts(seen, chunk, '\n');
        FlatMapAppend(frame, AllButLast(Split(seen, '\n')), AllButLast(Split(buffer + chunk, '\n')));
        var framed;
        framed, buffer := DrainLines(frame, buffer + chunk);
        out := out + framed;
      } else {
        assert seen + chunk == seen;
      }
      seen := seen + chunk;
    }
    assert chunks[..|chunks|] == chunks;
    if failure.Some? {
      out := out + [Line("System", "Connection interrupted: " + failure.value)];
      return;
    }
    out := out + tail(buffer);
  }

  /**
   * stream_with_buffer itself: complete lines are stripped and framed, the
   * rest of the buffer is framed unstripped once the stream ends.
   */
  method StreamWithBuffer(chunks: seq<string>, failure: Option<string>) returns (out: seq<Line>)
    ensures failure.None? ==> out == Framed(Concat(chunks))
    ensures failure.Some? ==>
              out == Emit(AllButLast(Split(Concat(chunks), '\n'))) + [Line("System", "Connection interrupted: " + failure.value)]
  {
    out := FrameChunks(LineObject, TailObject, chunks, failure);
  }

  /** How the model is told to shape the discussion. */
  datatype Constraint = OnlySelected(names: seq<string>) | ThreeKeyEmotions | FourEmotions | AllFiveEmotions

  /**
   * A non-empty selection decides (its valid names, or three key emotions
   * when none is valid) whatever the mode; otherwise "long" and "medium"
   * pick five and four emotions and anything else three.
   */
  function ChooseConstraint(targets: Option<seq<string>>, mode: string): (c: Constraint)
    ensures c.OnlySelected? ==> targets.Some? && c.names == Warroom.FilterValid(targets.value) && c.names != []
    ensures targets.Some? && targets.value != [] ==>
              c == (if Warroom.FilterValid(targets.value) != [] then OnlySelected(Warroom.FilterValid(targets.value))
                    else ThreeKeyEmotions)
    ensures (targets.None? || targets.value == []) ==>
              c == (if mode == "long" then AllFiveEmotions else if mode == "medium" then FourEmotions else ThreeKeyEmotions)
  {
    if targets.Some? && |targets.value| > 0 then
      var selected := Warroom.FilterValid(targets.value);
      if selected != [] then OnlySelected(selected) else ThreeKeyEmotions
    else if mode == "long" then AllFiveEmotions
    else if mode == "medium" then FourEmotions
    else ThreeKeyEmotions
  }

  /** A stream request: message, mode (absent means "default") and the UI's selection. */
  datatype StreamRequest = StreamRequest(message: Option<string>, mode: Option<string>, targets: Option<seq<string>>)

  /** The endpoint refuses a missing or empty message with status 400, before any model call. */
  function CheckStreamRequest(request: StreamRequest): (r: Result<Constraint>)
    ensures r.Err? <==> !Warroom.HasMessage(request.message)
    ensures r.Err? ==> r.status == 400
    ensures r.Ok? ==> r.value == ChooseConstraint(request.targets, request.mode.GetOr("default"))
  {
    if !Warroom.HasMessage(request.message) then Err(400)
    else Ok(ChooseConstraint(request.targets, request.mode.GetOr("default")))
  }
}
