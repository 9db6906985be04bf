/**
 * The coordination engine of the browser client (frontend/src/App.jsx).
 *
 * The component keeps its long-lived state in refs and React state and is
 * driven entirely by callbacks: stream chunks, fetch completions, media
 * events, timers and speech-recognition events.  The model is one class
 * whose fields are those refs and the pieces of state the callbacks write;
 * every callback is one atomic method.  Timers and network requests are
 * explicit pending entries that a later event method consumes, so "the
 * fetch completed" or "the 300 ms timer fired" are calls, not real time.
 */
module Console {
  import opened Wrappers
  import opened Text

  /** The names of the PERSONAS tiles, in order; the first is the idle tile. */
  const Personas: seq<string> := ["Headquarters", "Joy", "Sadness", "Anger", "Fear", "Disgust"]
  const Headquarters: string := "Headquarters"

  /** A parsed NDJSON record; a missing field reads as "" (both are falsy). */
  datatype Record = Record(persona: string, text: string)

  /** A queue entry: the record plus the object URL of its fetched audio. */
  datatype Item = Item(persona: string, text: string, audioUrl: string)

  /** The caption (lastMessage); NoCaption is null. */
  datatype Caption = NoCaption | Caption(role: string, text: string, persona: string)

  // ------------------------------------------------------------------
  // The NDJSON stream decoder
  // ------------------------------------------------------------------

  /**
   * What the decoder does with one complete line: a blank line is skipped,
   * a line JSON.parse rejects (None) is logged and skipped, and a record is
   * handed on only when both its persona and its text are non-empty.
   */
  function Accept(parse: string -> Option<Record>, line: string): (r: seq<Record>)
    ensures |r| <= 1
    ensures forall x :: x in r ==> parse(line) == Some(x) && x.persona != "" && x.text != ""
    ensures Trim(line) != "" && parse(line).Some? && parse(line).value.persona != "" && parse(line).value.text != "" ==>
              r == [parse(line).value]
  {
    if Trim(line) == "" then []
    else match parse(line)
      case None => []
      case Some(data) => if data.persona != "" && data.text != "" then [data] else []
  }

  function Acceptor(parse: string -> Option<Record>): string -> seq<Record> {
    line => Accept(parse, line)
  }

  /** The records the decoder hands to fetchAudioAndQueue for a run of complete lines, in order. */
  function Handled(parse: string -> Option<Record>, lines: seq<string>): seq<Record> {
    FlatMap(Acceptor(parse), lines)
  }

  lemma HandledSnoc(parse: string -> Option<Record>, lines: seq<string>, line: string)
    ensures Handled(parse, lines + [line]) == Handled(parse, lines) + Accept(parse, line)
  {
    FlatMapAppend(Acceptor(parse), lines, [line]);
    FlatMapSingleton(Acceptor(parse), line);
  }

  lemma HandledPrefix(parse: string -> Option<Record>, lines: seq<string>, i: nat)
    requires i < |lines|
    ensures Handled(parse, lines[..i + 1]) == Handled(parse, lines[..i]) + Accept(parse, lines[i])
  {
    assert lines[..i + 1] == lines[..i] + [lines[i]];
    HandledSnoc(parse, lines[..i], lines[i]);
  }

  /** A malformed or blank line is dropped and the lines after it are still handled. */
  lemma SkipsRejectedLine(parse: string -> Option<Record>, before: seq<string>, bad: string, after: seq<string>)
    requires Trim(bad) == "" || parse(bad).None?
    ensures Handled(parse, before + [bad] + after) == Handled(parse, before) + Handled(parse, after)
  {
    FlatMapAppend(Acceptor(parse), before + [bad], after);
    HandledSnoc(parse, before, bad);
  }

  /** A non-blank line that parses to a record with a persona and a text is handed on, in its place. */
  lemma KeepsGoodLine(parse: string -> Option<Record>, before: seq<string>, good: string, after: seq<string>)
    requires Trim(good) != "" && parse(good).Some? && parse(good).value.persona != "" && parse(good).value.text != ""
    ensures Handled(parse, before + [good] + after) == Handled(parse, before) + [parse(good).value] + Handled(parse, after)
  {
    FlatMapAppend(Acceptor(parse), before + [good], after);
    HandledSnoc(parse, before, good);
  }

  /** Every handed-on record is what JSON.parse made of one of the lines, with a persona and a text. */
  lemma {:induction false} HandledSound(parse: string -> Option<Record>, lines: seq<string>)
    ensures forall x :: x in Handled(parse, lines) ==>
              x.persona != "" && x.text != "" && exists i :: 0 <= i < |lines| && parse(lines[i]) == Some(x)
    decreases |lines|
  {
    if |lines| > 0 {
      HandledSound(parse, lines[1..]);
      assert lines == [lines[0]] + lines[1..];
      FlatMapAppend(Acceptor(parse), [lines[0]], lines[1..]);
      FlatMapSingleton(Acceptor(parse), lines[0]);
      forall x | x in Handled(parse, lines)
        ensures exists i :: 0 <= i < |lines| && parse(lines[i]) == Some(x)
      {
        if x in Accept(parse, lines[0]) {
          assert parse(lines[0]) == Some(x);
        } else {
          var i :| 0 <= i < |lines[1..]| && parse(lines[1..][i]) == Some(x);
          assert parse(lines[i + 1]) == Some(x);
        }
      }
    }
  }

  /** The decoder's state: the complete lines handled so far and the unfinished buffer. */
  datatype Decoder = Decoder(lines: seq<string>, buffer: string)

  /** One chunk: `lines = buffer.split("\n")`, `buffer = lines.pop()`, the rest are handled. */
  function Feed(d: Decoder, chunk: string): Decoder {
    var parts := Split(d.buffer + chunk, '\n');
    Decoder(d.lines + AllButLast(parts), Last(parts))
  }

  /** The decoder after a run of chunks, starting from an empty buffer. */
  function FeedAll(chunks: seq<string>): Decoder
    decreases |chunks|
  {
    if |chunks| == 0 then Decoder([], "") else Feed(FeedAll(chunks[..|chunks| - 1]), chunks[|chunks| - 1])
  }

  lemma FeedAllSnoc(chunks: seq<string>, chunk: string)
    ensures FeedAll(chunks + [chunk]) == Feed(FeedAll(chunks), chunk)
  {
    assert (chunks + [chunk])[..|chunks|] == chunks;
  }

  /**
   * Whatever the chunking, the handled lines are the complete lines of the
   * text received so far and the buffer is the text after its last newline.
   */
  lemma {:induction false} FeedAllIsSplit(chunks: seq<string>)
    ensures FeedAll(chunks) == Decoder(AllButLast(Split(Concat(chunks), '\n')), Last(Split(Concat(chunks), '\n')))
    decreases |chunks|
  {
    if |chunks| > 0 {
      var init := chunks[..|chunks| - 1];
      FeedAllIsSplit(init);
      SplitAppendParts(Concat(init), chunks[|chunks| - 1], '\n');
    }
  }

  /** Two chunkings of the same text decode to the same lines and the same buffer. */
  lemma ChunkingIrrelevant(a: seq<string>, b: seq<string>)
    requires Concat(a) == Concat(b)
    ensures FeedAll(a) == FeedAll(b)
  {
    FeedAllIsSplit(a);
    FeedAllIsSplit(b);
  }

  /** Nothing is lost or duplicated: the handled lines and the buffer rejoin to the text. */
  lemma DecoderLosesNothing(chunks: seq<string>)
    ensures Join(FeedAll(chunks).lines + [FeedAll(chunks).buffer], '\n') == Concat(chunks)
    ensures '\n' !in FeedAll(chunks).buffer
  {
    FeedAllIsSplit(chunks);
    var parts := Split(Concat(chunks), '\n');
    SplitJoin(Concat(chunks), '\n');
    assert AllButLast(parts) + [Last(parts)] == parts;
  }

  // ------------------------------------------------------------------
  // The audio queue and its single-flight player
  // ------------------------------------------------------------------

  /** The oncanplaythrough handler installed on the shared audio element. */
  datatype CanPlay = NoCanPlay | ShowQueued(promise: nat, item: Item) | ShowTurn(turn: nat, index: nat)

  /** The onended handler. */
  datatype Ended = NoEnded | QueuedEnded(promise: nat) | TurnEnded(turn: nat, index: nat)

  /** The onerror handler; only the queue player installs one, and it is never removed. */
  datatype OnError = NoOnError | QueuedError(promise: nat)

  /** The shared HTMLAudioElement as far as the callbacks use it. */
  datatype Audio = Audio(src: string, paused: bool, canPlay: CanPlay, ended: Ended, error: OnError)

  /**
   * The queue player: audioQueueRef, isQueuePlayingRef, the promise the
   * player is awaiting (numbered; `promises` counts the promises made) and
   * the audio element.
   */
  datatype QueuePlayer = QueuePlayer(queue: seq<Item>, busy: bool, waiting: Option<nat>, promises: nat, audio: Audio)

  /** The playing flag is set exactly while one item's promise is pending. */
  predicate PlayerValid(p: QueuePlayer) {
    p.busy == p.waiting.Some? && (p.waiting.Some? ==> p.waiting.value < p.promises)
  }

  /** The item whose wait is pending, when its canplaythrough handler is still installed. */
  function Current(p: QueuePlayer): Option<Item> {
    if p.waiting.Some? && p.audio.canPlay.ShowQueued? && p.audio.canPlay.promise == p.waiting.value
    then Some(p.audio.canPlay.item) else None
  }

  /**
   * processQueue: a no-op while an item is in play or when the queue is
   * empty; otherwise the flag is set, the head is shifted off and handed to
   * the audio element, and a new promise waits for it to finish.
   */
  function Dequeue(p: QueuePlayer): (r: QueuePlayer)
    ensures PlayerValid(p) ==> PlayerValid(r)
    ensures p.busy || p.queue == [] ==> r == p
    ensures !p.busy && p.queue != [] ==>
              r.busy && Current(r) == Some(p.queue[0]) && [p.queue[0]] + r.queue == p.queue &&
              r.audio.src == p.queue[0].audioUrl && r.audio.paused
  {
    if p.busy || p.queue == [] then p
    else
      var item := p.queue[0];
      QueuePlayer(p.queue[1..], true, Some(p.promises), p.promises + 1,
                  Audio(item.audioUrl, true, ShowQueued(p.promises, item), QueuedEnded(p.promises), QueuedError(p.promises)))
  }

  /**
   * fetchAudioAndQueue after its fetch: the item is pushed at the tail and
   * the player is started only when the flag is clear.
   */
  function Enqueue(p: QueuePlayer, item: Item): (r: QueuePlayer)
    ensures PlayerValid(p) ==> PlayerValid(r)
    ensures p.busy ==> r == p.(queue := p.queue + [item])
    ensures !p.busy ==> r.busy && Current(r).Some? && [Current(r).value] + r.queue == p.queue + [item]
  {
    var pushed := p.(queue := p.queue + [item]);
    assert pushed.queue != [];
    if p.busy then pushed else Dequeue(pushed)
  }

  /**
   * The code after `await new Promise(...)` once promise `id` resolves: the
   * flag is cleared and, unless the debate was aborted, the next item
   * starts.  Resolving a promise that is no longer awaited changes nothing.
   */
  function Settle(p: QueuePlayer, id: nat, aborted: bool): (r: QueuePlayer)
    ensures PlayerValid(p) ==> PlayerValid(r)
    ensures p.waiting != Some(id) ==> r == p
    ensures p.waiting == Some(id) && aborted ==> !r.busy && r.queue == p.queue
    ensures p.waiting == Some(id) && !aborted && p.queue == [] ==> !r.busy && r.queue == []
    ensures p.waiting == Some(id) && !aborted && p.queue != [] ==>
              r.busy && Current(r).Some? && [Current(r).value] + r.queue == p.queue
  {
    if p.waiting != Some(id) then p
    else
      var cleared := p.(busy := false, waiting := None);
      if aborted then cleared else Dequeue(cleared)
  }

  /** The completion poll's test: nothing queued and nothing in play. */
  predicate Drained(p: QueuePlayer) {
    p.queue == [] && !p.busy
  }

  /**
   * While an item is in play, completed fetches only queue: nothing is
   * dequeued and the completion poll never sees the player drained.  After
   * stopDebate this lasts until onerror or a rejected play() ends the wait,
   * because a paused element fires no `ended`.
   */
  lemma {:induction false} BusyPlayerOnlyQueues(p: QueuePlayer, items: seq<Item>)
    requires p.busy
    ensures EnqueueAll(p, items) == p.(queue := p.queue + items)
    ensures !Drained(EnqueueAll(p, items))
    decreases |items|
  {
    if |items| > 0 {
      var init := items[..|items| - 1];
      BusyPlayerOnlyQueues(p, init);
      assert init + [items[|items| - 1]] == items;
    }
  }

  /** The player after fetches complete for `items`, in that order. */
  function EnqueueAll(p: QueuePlayer, items: seq<Item>): QueuePlayer
    decreases |items|
  {
    if |items| == 0 then p else Enqueue(EnqueueAll(p, items[..|items| - 1]), items[|items| - 1])
  }

  // ------------------------------------------------------------------
  // Speech capture
  // ------------------------------------------------------------------

  /** The transcript onresult builds from results[resultIndex..]. */
  function Transcript(results: seq<string>, resultIndex: nat): string {
    if resultIndex <= |results| then Concat(results[resultIndex..]) else ""
  }

  /** The concatenation loop of onresult. */
  method JoinTranscripts(results: seq<string>, resultIndex: nat) returns (transcript: string)
    ensures transcript == Transcript(results, resultIndex)
  {
    transcript := "";
    var i := resultIndex;
    while i < |results|
      invariant resultIndex <= |results| ==> resultIndex <= i <= |results| && transcript == Concat(results[resultIndex..i])
      invariant resultIndex > |results| ==> transcript == ""
      decreases |results| - i
    {
      assert results[resultIndex..i + 1][..i - resultIndex] == results[resultIndex..i];
      transcript := transcript + results[i];
      i := i + 1;
    }
    if resultIndex <= |results| {
      assert results[resultIndex..i] == results[resultIndex..];
    }
  }

  /** The recognition object: stopped, running, or asked to stop (onend still to come). */
  datatype Engine = Stopped | Running | Stopping

  /** `start()`: a stopped engine starts; otherwise it throws, which every caller ignores. */
  function Start(e: Engine): Engine {
    if e == Stopped then Running else e
  }

  /** `stop()`: a running engine is asked to stop; otherwise nothing happens. */
  function Stop(e: Engine): Engine {
    if e == Running then Stopping else e
  }

  /** handleSend's `textOverride || latestInputText.current`; "" plays the part of null. */
  function ChosenText(textOverride: string, latest: string): (text: string)
    ensures text == textOverride || text == latest
    ensures textOverride != "" ==> text == textOverride
  {
    if textOverride != "" then textOverride else latest
  }

  // ------------------------------------------------------------------
  // The batch sequencer
  // ------------------------------------------------------------------

  /** Entry `index` of the response list of handleSend call `turn`. */
  datatype Step = Step(turn: nat, index: nat)

  /** The pending stream loops of startFunMode, each with its own buffer. */
  datatype Loop = Connecting | Reading(buffer: string) | Finished

  ghost predicate LoopValid(l: Loop, chunks: seq<string>, lines: seq<string>) {
    (l.Connecting? ==> chunks == [] && lines == []) &&
    (l.Reading? ==> FeedAll(chunks) == Decoder(lines, l.buffer))
  }

  /** The decoder relation for every stream loop, with its chunks and handled lines. */
  ghost predicate LoopsValid(loops: seq<Loop>, received: seq<seq<string>>, decoded: seq<seq<string>>) {
    |received| == |loops| && |decoded| == |loops| &&
    forall k :: 0 <= k < |loops| ==> LoopValid(loops[k], received[k], decoded[k])
  }

  lemma LoopsValidSet(loops: seq<Loop>, received: seq<seq<string>>, decoded: seq<seq<string>>,
                      k: nat, l: Loop, chunks: seq<string>, lines: seq<string>)
    requires LoopsValid(loops, received, decoded) && k < |loops| && LoopValid(l, chunks, lines)
    ensures LoopsValid(loops[k := l], received[k := chunks], decoded[k := lines])
  {
  }

  lemma LoopsValidPush(loops: seq<Loop>, received: seq<seq<string>>, decoded: seq<seq<string>>)
    requires LoopsValid(loops, received, decoded)
    ensures LoopsValid(loops + [Connecting], received + [[]], decoded + [[]])
  {
  }

  /** One chunk keeps a reading loop's buffer and lines equal to the decoder run over its chunks. */
  lemma FeedStep(chunks: seq<string>, chunk: string, lines: seq<string>, buffer: string)
    requires FeedAll(chunks) == Decoder(lines, buffer)
    ensures var parts := Split(buffer + chunk, '\n');
            LoopValid(Reading(Last(parts)), chunks + [chunk], lines + AllButLast(parts))
  {
    FeedAllSnoc(chunks, chunk);
  }

  predicate StepIn(s: Step, batches: seq<seq<Record>>) {
    s.turn < |batches| && s.index < |batches[s.turn]|
  }

  predicate StepUpTo(s: Step, batches: seq<seq<Record>>) {
    s.turn < |batches| && s.index <= |batches[s.turn]|
  }

  function RemoveAt<T>(s: seq<T>, k: nat): (r: seq<T>)
    requires k < |s|
    ensures |r| == |s| - 1
    ensures forall x :: x in r ==> x in s
  {
    s[..k] + s[k + 1..]
  }

  /** Every pending fetch names a response of its batch; a pending gap may name the end of the batch. */
  predicate StepsValid(batches: seq<seq<Record>>, fetches: seq<Step>, timers: seq<Step>) {
    (forall j :: 0 <= j < |fetches| ==> StepIn(fetches[j], batches)) &&
    (forall j :: 0 <= j < |timers| ==> StepUpTo(timers[j], batches))
  }

  /** An installed batch handler names a response of its batch. */
  predicate HandlersValid(batches: seq<seq<Record>>, canPlay: CanPlay, ended: Ended) {
    (canPlay.ShowTurn? ==> StepIn(Step(canPlay.turn, canPlay.index), batches)) &&
    (ended.TurnEnded? ==> StepIn(Step(ended.turn, ended.index), batches))
  }

  lemma ShiftKeeps<T>(done: seq<T>, waiting: seq<T>)
    requires |waiting| > 0
    ensures done + [waiting[0]] + waiting[1..] == done + waiting
  {
    assert waiting == [waiting[0]] + waiting[1..];
  }

  class Console {
    /** JSON.parse on one line; None when it throws. */
    const parse: string -> Option<Record>

    // Refs
    var abort: bool
    var queue: seq<Item>
    var queuePlaying: bool
    var callActive: bool
    var latestInput: string
    var silenceArmed: bool

    // React state written by the callbacks
    var activePersona: string
    var caption: Caption
    var processing: bool
    var playing: bool
    var listening: bool
    var userSpeaking: bool
    var inputText: string

    /** The shared audio element: its source, its paused flag and its three handlers. */
    var audio: Audio

    // The speech recognition object
    var engine: Engine

    // Pending asynchronous work
    var loops: seq<Loop>
    var inFlight: seq<Record>
    var waiting: Option<nat>
    var promises: nat
    var resumeTimers: seq<nat>
    var polls: nat
    var restartTimers: nat
    var warroomCalls: nat
    var batches: seq<seq<Record>>
    var batchFetches: seq<Step>
    var batchTimers: seq<Step>
    var captionTimers: nat

    /** What the current Fun Mode session has pushed onto and shifted off the queue. */
    ghost var enqueued: seq<Item>
    ghost var dequeued: seq<Item>
    /** Per stream loop: the chunks read and the complete lines handled. */
    ghost var received: seq<seq<string>>
    ghost var decoded: seq<seq<string>>

    function Player(): QueuePlayer
      reads this`queue, this`queuePlaying, this`waiting, this`promises, this`audio
    {
      QueuePlayer(queue, queuePlaying, waiting, promises, audio)
    }

    /** Single flight, and the queue is what the session pushed less what it shifted, in order. */
    ghost predicate PlayerOk()
      reads this`queue, this`queuePlaying, this`waiting, this`promises, this`enqueued, this`dequeued
    {
      queuePlaying == waiting.Some? && (waiting.Some? ==> waiting.value < promises) &&
      dequeued + queue == enqueued
    }

    /** Each stream loop's buffer and handled lines are the decoder run over its chunks. */
    ghost predicate LoopsOk()
      reads this`loops, this`received, this`decoded
    {
      LoopsValid(loops, received, decoded)
    }

    /** Every pending step points into a batch. */
    ghost predicate StepsOk()
      reads this`batches, this`batchFetches, this`batchTimers
    {
      StepsValid(batches, batchFetches, batchTimers)
    }

    /** An installed batch handler names a response of its batch. */
    ghost predicate HandlersOk()
      reads this`batches, this`audio
    {
      HandlersValid(batches, audio.canPlay, audio.ended)
    }

    /**
     * The whole invariant.  Each event method states and keeps the parts its
     * frame can touch; the other parts read only fields it does not modify.
     */
    ghost predicate Valid()
      reads this`queue, this`queuePlaying, this`waiting, this`promises, this`enqueued, this`dequeued,
            this`loops, this`received, this`decoded,
            this`batches, this`batchFetches, this`batchTimers, this`audio
    {
      PlayerOk() && LoopsOk() && StepsOk() && HandlersOk()
    }

    constructor(parse: string -> Option<Record>)
      ensures Valid() && this.parse == parse
      ensures Player() == QueuePlayer([], false, None, 0, Audio("", true, NoCanPlay, NoEnded, NoOnError))
      ensures !abort && !callActive && latestInput == "" && !silenceArmed
      ensures activePersona == Headquarters && caption == NoCaption && !processing && !playing
      ensures engine == Stopped && loops == [] && inFlight == [] && batches == []
    {
      this.parse := parse;
      abort, queue, queuePlaying := false, [], false;
      callActive, latestInput, silenceArmed := false, "", false;
      activePersona, caption, processing, playing := Headquarters, NoCaption, false, false;
      listening, userSpeaking, inputText := false, false, "";
      audio := Audio("", true, NoCanPlay, NoEnded, NoOnError);
      engine := Stopped;
      loops, inFlight, waiting, promises, resumeTimers := [], [], None, 0, [];
      polls, restartTimers, warroomCalls := 0, 0, 0;
      batches, batchFetches, batchTimers, captionTimers := [], [], [], 0;
      enqueued, dequeued, received, decoded := [], [], [], [];
    }

    // ---------------- queue player ----------------

    /** processQueue. */
    method ProcessQueue()
      requires PlayerOk() && HandlersOk()
      modifies this`queue, this`queuePlaying, this`waiting, this`promises, this`audio,
               this`dequeued
      ensures PlayerOk() && HandlersOk()
      ensures Player() == Dequeue(old(Player()))
    {
      if !queuePlaying && |queue| != 0 {
        queuePlaying := true;
        var item := queue[0];
        ShiftKeeps(dequeued, queue);
        queue := queue[1..];
        dequeued := dequeued + [item];
        var id := promises;
        promises := promises + 1;
        waiting := Some(id);
        // Assigning src runs the media load algorithm, which pauses the element;
        // the promise executor then installs the three handlers.
        audio := Audio(item.audioUrl, true, ShowQueued(id, item), QueuedEnded(id), QueuedError(id));
      }
    }

    /** The continuation of processQueue once promise `id` resolves. */
    method ItemSettled(id: nat)
      requires PlayerOk() && HandlersOk()
      modifies this`queue, this`queuePlaying, this`waiting, this`promises, this`audio,
               this`dequeued,
               this`processing, this`caption, this`activePersona
      ensures PlayerOk() && HandlersOk()
      ensures Player() == Settle(old(Player()), id, abort)
      ensures old(waiting) == Some(id) && abort ==> !processing && caption == NoCaption && activePersona == Headquarters
      ensures !(old(waiting) == Some(id) && abort) ==>
                processing == old(processing) && caption == old(caption) && activePersona == old(activePersona)
    {
      if waiting == Some(id) {
        waiting := None;
        queuePlaying := false;
        if !abort {
          ProcessQueue();
        } else {
          processing := false;
          caption := NoCaption;
          activePersona := Headquarters;
        }
      }
    }

    /** fetchAudioAndQueue, called for a handed-on record: its audio fetch starts. */
    method FetchAudioAndQueue(item: Record)
      modifies this`inFlight
      ensures inFlight == old(inFlight) + [item]
    {
      inFlight := inFlight + [item];
    }

    /** The audio fetch for inFlight[k] completed with object URL `url`. */
    method FetchCompleted(k: nat, url: string)
      requires PlayerOk() && HandlersOk() && k < |inFlight|
      modifies this`inFlight, this`queue, this`queuePlaying, this`waiting, this`promises, this`audio,
               this`dequeued, this`enqueued
      ensures PlayerOk() && HandlersOk()
      ensures inFlight == RemoveAt(old(inFlight), k)
      ensures var item := Item(old(inFlight[k]).persona, old(inFlight[k]).text, url);
              Player() == Enqueue(old(Player()), item) && enqueued == old(enqueued) + [item]
    {
      var data := inFlight[k];
      inFlight := RemoveAt(inFlight, k);
      var item := Item(data.persona, data.text, url);
      queue := queue + [item];
      enqueued := enqueued + [item];
      if !queuePlaying {
        ProcessQueue();
      }
    }

    /** The audio fetch for inFlight[k] threw: it is logged and nothing is queued. */
    method FetchFailed(k: nat)
      requires k < |inFlight|
      modifies this`inFlight
      ensures inFlight == RemoveAt(old(inFlight), k)
    {
      inFlight := RemoveAt(inFlight, k);
    }

    /**
     * canplaythrough with the queue player's handler installed.  `played`
     * says whether the play() promise resolves; a rejection resolves the
     * item's wait at once.
     */
    method QueuedCanPlay(played: bool)
      requires PlayerOk() && HandlersOk() && audio.canPlay.ShowQueued?
      modifies this`queue, this`queuePlaying, this`waiting, this`promises, this`audio,
               this`dequeued,
               this`processing, this`caption, this`activePersona, this`playing
      ensures PlayerOk() && HandlersOk() && playing
      ensures played ==>
                var item := old(audio.canPlay).item;
                Player() == old(Player()).(audio := old(audio).(paused := false)) &&
                caption == Caption("ai", item.text, item.persona) &&
                activePersona == (if item.persona in Personas then item.persona else old(activePersona)) &&
                processing == old(processing)
      ensures !played ==>
                var item := old(audio.canPlay).item;
                var settled := old(waiting) == Some(old(audio.canPlay).promise) && abort;
                Player() == Settle(old(Player()), old(audio.canPlay).promise, abort) &&
                caption == (if settled then NoCaption else Caption("ai", item.text, item.persona)) &&
                activePersona == (if settled then Headquarters
                                  else if item.persona in Personas then item.persona else old(activePersona)) &&
                processing == (if settled then false else old(processing))
    {
      var id, item := audio.canPlay.promise, audio.canPlay.item;
      Show(item.persona, item.text, played);
      if !played {
        ItemSettled(id);
      }
    }

    /** canplaythrough with the batch sequencer's handler installed; a rejected play() is only logged. */
    method TurnCanPlay(played: bool)
      requires HandlersOk() && audio.canPlay.ShowTurn?
      modifies this`activePersona, this`caption, this`playing, this`audio
      ensures HandlersOk() && playing
      ensures var data := batches[old(audio.canPlay).turn][old(audio.canPlay).index];
              caption == Caption("ai", data.text, data.persona) &&
              activePersona == (if data.persona in Personas then data.persona else old(activePersona)) &&
              audio == old(audio).(paused := if played then false else old(audio.paused))
    {
      var data := batches[audio.canPlay.turn][audio.canPlay.index];
      Show(data.persona, data.text, played);
    }

    /** The common part of both canplaythrough handlers: tile, caption, and play(). */
    method Show(persona: string, text: string, played: bool)
      modifies this`activePersona, this`caption, this`playing, this`audio
      ensures activePersona == (if persona in Personas then persona else old(activePersona))
      ensures caption == Caption("ai", text, persona) && playing
      ensures audio == old(audio).(paused := if played then false else old(audio.paused))
    {
      if persona in Personas {
        activePersona := persona;
      }
      caption := Caption("ai", text, persona);
      playing := true;
      if played {
        audio := audio.(paused := false);
      }
    }

    /** ended: fires only while the element plays, and leaves it paused. */
    method MediaEnded()
      requires StepsOk() && HandlersOk() && !audio.paused
      modifies this`audio, this`playing, this`resumeTimers, this`caption, this`batchTimers
      ensures StepsOk() && HandlersOk() && audio == old(audio).(paused := true)
      ensures old(audio.ended).NoEnded? ==>
                playing == old(playing) && resumeTimers == old(resumeTimers) &&
                caption == old(caption) && batchTimers == old(batchTimers)
      ensures old(audio.ended).QueuedEnded? ==>
                !playing && resumeTimers == old(resumeTimers) + [old(audio.ended).promise] &&
                caption == old(caption) && batchTimers == old(batchTimers)
      ensures old(audio.ended).TurnEnded? ==>
                !playing && caption == NoCaption && resumeTimers == old(resumeTimers) &&
                batchTimers == old(batchTimers) + [Step(old(audio.ended).turn, old(audio.ended).index + 1)]
    {
      audio := audio.(paused := true);
      match audio.ended {
        case NoEnded =>
        case QueuedEnded(id) =>
          playing := false;
          resumeTimers := resumeTimers + [id];
        case TurnEnded(t, i) =>
          playing := false;
          caption := NoCaption;
          batchTimers := batchTimers + [Step(t, i + 1)];
      }
    }

    /** error: the queue player's handler resolves its wait. */
    method MediaError()
      requires PlayerOk() && HandlersOk()
      modifies this`queue, this`queuePlaying, this`waiting, this`promises, this`audio,
               this`dequeued,
               this`processing, this`caption, this`activePersona
      ensures PlayerOk() && HandlersOk()
      ensures old(audio.error).NoOnError? ==>
                Player() == old(Player()) && processing == old(processing) &&
                caption == old(caption) && activePersona == old(activePersona)
      ensures old(audio.error).QueuedError? ==> Player() == Settle(old(Player()), old(audio.error).promise, abort)
    {
      match audio.error {
        case NoOnError =>
        case QueuedError(id) =>
          ItemSettled(id);
      }
    }

    /** The 300 ms pause after an item ended is over: its wait resolves. */
    method ResumeTimerFired(j: nat)
      requires PlayerOk() && HandlersOk() && j < |resumeTimers|
      modifies this`queue, this`queuePlaying, this`waiting, this`promises, this`audio,
               this`dequeued,
               this`processing, this`caption, this`activePersona, this`resumeTimers
      ensures PlayerOk() && HandlersOk()
      ensures resumeTimers == RemoveAt(old(resumeTimers), j)
      ensures Player() == Settle(old(Player()), old(resumeTimers[j]), abort)
    {
      var id := resumeTimers[j];
      resumeTimers := RemoveAt(resumeTimers, j);
      ItemSettled(id);
    }

    /** stopDebate: the queue and the playing flag are left as they are. */
    method StopDebate()
      modifies this`abort, this`audio, this`processing, this`caption, this`activePersona
      ensures abort && audio == old(audio).(paused := true)
      ensures !processing && caption == NoCaption && activePersona == Headquarters
    {
      abort := true;
      audio := audio.(paused := true);
      processing := false;
      caption := NoCaption;
      activePersona := Headquarters;
    }

    // ---------------- stream decoder ----------------

    /** startFunMode up to the fetch: an empty topic returns at once. */
    method StartFunMode(topic: string)
      requires PlayerOk() && LoopsOk()
      modifies this`abort, this`processing, this`queue, this`caption, this`loops, this`received,
               this`decoded, this`enqueued, this`dequeued
      ensures PlayerOk() && LoopsOk()
      ensures topic == "" ==>
                abort == old(abort) && processing == old(processing) && queue == old(queue) &&
                caption == old(caption) && loops == old(loops)
      ensures topic != "" ==>
                !abort && processing && queue == [] &&
                caption == Caption("system", "Initializing Fun Mode...", Headquarters) &&
                loops == old(loops) + [Connecting] && enqueued == []
    {
      if topic != "" {
        abort := false;
        processing := true;
        queue := [];
        enqueued, dequeued := [], [];
        caption := Caption("system", "Initializing Fun Mode...", Headquarters);
        LoopsValidPush(loops, received, decoded);
        loops, received, decoded := loops + [Connecting], received + [[]], decoded + [[]];
      }
    }

    /** The stream request of loop k answered: the player is kicked and the first read is issued unless aborted. */
    method StreamOpened(k: nat)
      requires PlayerOk() && LoopsOk() && HandlersOk() && k < |loops| && loops[k].Connecting?
      modifies this`queue, this`queuePlaying, this`waiting, this`promises, this`audio,
               this`dequeued, this`loops, this`polls
      ensures PlayerOk() && LoopsOk() && HandlersOk()
      ensures Player() == Dequeue(old(Player()))
      ensures loops == old(loops)[k := if abort then Finished else Reading("")]
      ensures polls == old(polls) + (if abort then 1 else 0)
    {
      ProcessQueue();
      assert LoopValid(loops[k], received[k], decoded[k]);
      assert received[k := received[k]] == received && decoded[k := decoded[k]] == decoded;
      if abort {
        LoopsValidSet(loops, received, decoded, k, Finished, received[k], decoded[k]);
        loops := loops[k := Finished];
        polls := polls + 1;
      } else {
        LoopsValidSet(loops, received, decoded, k, Reading(""), received[k], decoded[k]);
        loops := loops[k := Reading("")];
      }
    }

    /** A chunk arrived for loop k: complete lines are handled in order, then the abort flag is checked. */
    method StreamChunk(k: nat, chunk: string)
      requires LoopsOk() && k < |loops| && loops[k].Reading?
      modifies this`loops, this`inFlight, this`polls, this`received, this`decoded
      ensures LoopsOk()
      ensures var parts := Split(old(loops[k].buffer) + chunk, '\n');
              inFlight == old(inFlight) + Handled(parse, AllButLast(parts)) &&
              loops == old(loops)[k := if abort then Finished else Reading(Last(parts))] &&
              decoded == old(decoded)[k := old(decoded[k]) + AllButLast(parts)]
      ensures received == old(received)[k := old(received[k]) + [chunk]]
      ensures polls == old(polls) + (if abort then 1 else 0)
    {
      var lines := Split(loops[k].buffer + chunk, '\n');
      var buffer := Last(lines);
      lines := AllButLast(lines);
      HandleLines(lines);
      FeedStep(received[k], chunk, decoded[k], loops[k].buffer);
      AfterRead(k, received[k] + [chunk], decoded[k] + lines, buffer);
    }

    /** The end of one read: the loop's new state is stored, and the abort flag ends the loop. */
    method AfterRead(k: nat, ghost chunks: seq<string>, ghost lines: seq<string>, buffer: string)
      requires LoopsOk() && k < |loops| && LoopValid(Reading(buffer), chunks, lines)
      modifies this`loops, this`polls, this`received, this`decoded
      ensures LoopsOk()
      ensures loops == old(loops)[k := if abort then Finished else Reading(buffer)]
      ensures received == old(received)[k := chunks] && decoded == old(decoded)[k := lines]
      ensures polls == old(polls) + (if abort then 1 else 0)
    {
      var next := if abort then Finished else Reading(buffer);
      LoopsValidSet(loops, received, decoded, k, next, chunks, lines);
      loops, received, decoded := loops[k := next], received[k := chunks], decoded[k := lines];
      if abort {
        polls := polls + 1;
      }
    }

    /** The inner `for` loop of a chunk: each complete line through the filter, in order. */
    method HandleLines(lines: seq<string>)
      modifies this`inFlight
      ensures inFlight == old(inFlight) + Handled(parse, lines)
    {
      for i := 0 to |lines|
        invariant inFlight == old(inFlight) + Handled(parse, lines[..i])
      {
        HandledPrefix(parse, lines, i);
        HandleLine(lines[i]);
      }
      assert lines[..|lines|] == lines;
    }

    /** The body of the inner loop for one complete line. */
    method HandleLine(line: string)
      modifies this`inFlight
      ensures inFlight == old(inFlight) + Accept(parse, line)
    {
      if Trim(line) == "" {
        return;
      }
      var data := parse(line);
      if data.Some? && data.value.persona != "" && data.value.text != "" {
        FetchAudioAndQueue(data.value);
      }
    }

    /** The reader reported done: the loop ends without flushing its buffer and the poll starts. */
    method StreamDone(k: nat)
      requires LoopsOk() && k < |loops| && loops[k].Reading?
      modifies this`loops, this`polls
      ensures LoopsOk()
      ensures loops == old(loops)[k := Finished] && polls == old(polls) + 1
    {
      LoopsValidSet(loops, received, decoded, k, Finished, received[k], decoded[k]);
      assert received[k := received[k]] == received && decoded[k := decoded[k]] == decoded;
      loops := loops[k := Finished];
      polls := polls + 1;
    }

    /** The request or a read threw: "Connection Lost." is shown; processing stays as it is. */
    method StreamFailed(k: nat)
      requires LoopsOk() && k < |loops| && (loops[k].Connecting? || loops[k].Reading?)
      modifies this`loops, this`caption
      ensures LoopsOk()
      ensures loops == old(loops)[k := Finished] && caption == Caption("system", "Connection Lost.", "System")
    {
      LoopsValidSet(loops, received, decoded, k, Finished, received[k], decoded[k]);
      assert received[k := received[k]] == received && decoded[k := decoded[k]] == decoded;
      loops := loops[k := Finished];
      caption := Caption("system", "Connection Lost.", "System");
    }

    /** One tick of a completion poll: once drained it stops, and resets the view unless aborted. */
    method PollTick()
      requires polls > 0
      modifies this`polls, this`processing, this`caption, this`activePersona
      ensures Drained(Player()) ==> polls == old(polls) - 1
      ensures Drained(Player()) && !abort ==> !processing && caption == NoCaption && activePersona == Headquarters
      ensures !Drained(Player()) || abort ==>
                processing == old(processing) && caption == old(caption) && activePersona == old(activePersona)
      ensures !Drained(Player()) ==> polls == old(polls)
    {
      if |queue| == 0 && !queuePlaying {
        polls := polls - 1;
        if !abort {
          processing := false;
          caption := NoCaption;
          activePersona := Headquarters;
        }
      }
    }

    // ---------------- speech capture ----------------

    /** onresult: barge-in, then the latest non-blank transcript re-arms the single silence timer. */
    method OnResult(results: seq<string>, resultIndex: nat)
      modifies this`userSpeaking, this`audio, this`playing, this`inputText, this`latestInput, this`silenceArmed
      ensures userSpeaking && audio == old(audio).(paused := true)
      ensures playing == (old(playing) && old(audio.paused))
      ensures var said := Trim(Transcript(results, resultIndex));
              (said != "" ==> inputText == said && latestInput == said && silenceArmed) &&
              (said == "" ==> inputText == old(inputText) && latestInput == old(latestInput) &&
                              silenceArmed == old(silenceArmed))
    {
      userSpeaking := true;
      if !audio.paused {
        audio := audio.(paused := true);
        playing := false;
      }
      var transcript := JoinTranscripts(results, resultIndex);
      Heard(Trim(transcript));
    }

    /** A non-blank transcript becomes the latest text and re-arms the single silence timer. */
    method Heard(said: string)
      modifies this`inputText, this`latestInput, this`silenceArmed
      ensures said != "" ==> inputText == said && latestInput == said && silenceArmed
      ensures said == "" ==>
                inputText == old(inputText) && latestInput == old(latestInput) && silenceArmed == old(silenceArmed)
    {
      if said != "" {
        inputText := said;
        latestInput := said;
        silenceArmed := true;
      }
    }

    /** handleSend up to the /warroom request. */
    method HandleSend(textOverride: string)
      modifies this`latestInput, this`inputText, this`processing, this`caption, this`warroomCalls
      ensures var text := ChosenText(textOverride, old(latestInput));
              (Trim(text) == "" ==>
                 latestInput == old(latestInput) && inputText == old(inputText) && processing == old(processing) &&
                 caption == old(caption) && warroomCalls == old(warroomCalls)) &&
              (Trim(text) != "" ==>
                 latestInput == "" && inputText == "" && processing &&
                 caption == Caption("user", text, "You") && warroomCalls == old(warroomCalls) + 1)
    {
      var text := ChosenText(textOverride, latestInput);
      if text == "" || Trim(text) == "" {
        return;
      }
      latestInput := "";
      inputText := "";
      processing := true;
      caption := Caption("user", text, "You");
      warroomCalls := warroomCalls + 1;
    }

    /** The 1200 ms silence timer fired: recognition stops and the latest text is sent. */
    method SilenceTimerFired()
      requires silenceArmed
      modifies this`silenceArmed, this`userSpeaking, this`engine,
               this`latestInput, this`inputText, this`processing, this`caption, this`warroomCalls
      ensures !silenceArmed && !userSpeaking
      ensures old(latestInput) == "" ==>
                engine == old(engine) && latestInput == old(latestInput) && processing == old(processing) &&
                caption == old(caption) && warroomCalls == old(warroomCalls)
      ensures old(latestInput) != "" ==> engine == Stop(old(engine))
      ensures old(latestInput) != "" && Trim(old(latestInput)) != "" ==>
                latestInput == "" && processing && caption == Caption("user", old(latestInput), "You") &&
                warroomCalls == old(warroomCalls) + 1
    {
      silenceArmed := false;
      userSpeaking := false;
      if |latestInput| > 0 {
        engine := Stop(engine);
        HandleSend(latestInput);
      }
    }

    /** onend: recognition is restarted 100 ms later only while the call is active. */
    method OnEnd()
      requires engine != Stopped
      modifies this`engine, this`listening, this`userSpeaking, this`restartTimers
      ensures engine == Stopped && !listening && !userSpeaking
      ensures restartTimers == old(restartTimers) + (if callActive then 1 else 0)
    {
      engine := Stopped;
      listening := false;
      userSpeaking := false;
      if callActive {
        restartTimers := restartTimers + 1;
      }
    }

    /** A 100 ms restart timer fired: start(), whose exception is swallowed. */
    method RestartTimerFired()
      requires restartTimers > 0
      modifies this`restartTimers, this`engine
      ensures restartTimers == old(restartTimers) - 1 && engine == Start(old(engine))
    {
      restartTimers := restartTimers - 1;
      engine := Start(engine);
    }

    /**
     * The restart timer as written does not look at the call again: a call
     * stopped inside the 100 ms window after onend still has recognition
     * started once the timer fires.
     */
    method StopCallBeforeRestart()
      requires engine != Stopped && callActive
      modifies this`engine, this`listening, this`userSpeaking, this`restartTimers, this`callActive, this`silenceArmed
      ensures !callActive && engine == Running
    {
      OnEnd();
      StopCall();
      RestartTimerFired();
    }

    /** The restart timer as evidently intended: start() only while the call is still active. */
    method GuardedRestartTimerFired()
      requires restartTimers > 0
      modifies this`restartTimers, this`engine
      ensures restartTimers == old(restartTimers) - 1
      ensures engine == (if callActive then Start(old(engine)) else old(engine))
    {
      restartTimers := restartTimers - 1;
      if callActive {
        engine := Start(engine);
      }
    }

    /** With the guard, a call stopped inside the window stays stopped. */
    method StopCallBeforeGuardedRestart()
      requires engine != Stopped && callActive
      modifies this`engine, this`listening, this`userSpeaking, this`restartTimers, this`callActive, this`silenceArmed
      ensures !callActive && engine == Stopped
    {
      OnEnd();
      StopCall();
      GuardedRestartTimerFired();
    }

    /** onstart. */
    method OnStart()
      requires engine == Running
      modifies this`listening
      ensures listening
    {
      listening := true;
    }

    /** startCall: when start() throws, stop() and a 100 ms restart follow. */
    method StartCall()
      modifies this`callActive, this`listening, this`latestInput, this`inputText, this`audio,
               this`engine, this`restartTimers
      ensures callActive && listening && latestInput == "" && inputText == "" && audio == old(audio).(paused := true)
      ensures old(engine) == Stopped ==> engine == Running && restartTimers == old(restartTimers)
      ensures old(engine) != Stopped ==> engine == Stop(old(engine)) && restartTimers == old(restartTimers) + 1
    {
      callActive := true;
      listening := true;
      latestInput := "";
      inputText := "";
      audio := audio.(paused := true);
      if engine == Stopped {
        engine := Running;
      } else {
        engine := Stop(engine);
        restartTimers := restartTimers + 1;
      }
    }

    /** stopCall: the call ends and the silence timer is cancelled. */
    method StopCall()
      modifies this`callActive, this`listening, this`userSpeaking, this`silenceArmed, this`engine
      ensures !callActive && !listening && !userSpeaking && !silenceArmed && engine == Stop(old(engine))
    {
      callActive := false;
      listening := false;
      userSpeaking := false;
      silenceArmed := false;
      engine := Stop(engine);
    }

    // ---------------- batch sequencer ----------------

    /**
     * playSequence(index) of turn t: past the last response the caption is
     * cleared 800 ms later, processing ends and recognition restarts when
     * the call is active; otherwise the response's audio is fetched.
     */
    method PlaySequence(t: nat, i: nat)
      requires StepsOk() && t < |batches| && i <= |batches[t]|
      modifies this`captionTimers, this`processing, this`engine, this`batchFetches
      ensures StepsOk()
      ensures i == |batches[t]| ==>
                captionTimers == old(captionTimers) + 1 && !processing &&
                engine == (if callActive then Start(old(engine)) else old(engine)) &&
                batchFetches == old(batchFetches)
      ensures i < |batches[t]| ==>
                batchFetches == old(batchFetches) + [Step(t, i)] && captionTimers == old(captionTimers) &&
                processing == old(processing) && engine == old(engine)
    {
      if i >= |batches[t]| {
        captionTimers := captionTimers + 1;
        processing := false;
        if callActive {
          engine := Start(engine);
        }
        return;
      }
      batchFetches := batchFetches + [Step(t, i)];
    }

    /** The /warroom answer: None when fetch or json() threw; a missing list reads as []. */
    method WarroomDone(result: Option<seq<Record>>)
      requires StepsOk() && HandlersOk() && warroomCalls > 0
      modifies this`warroomCalls, this`caption, this`processing, this`batches, this`batchFetches,
               this`captionTimers, this`engine
      ensures StepsOk() && HandlersOk()
      ensures warroomCalls == old(warroomCalls) - 1
      ensures result.None? ==>
                caption == Caption("system", "Connection Lost.", "System") && !processing && batches == old(batches)
      ensures result == Some([]) ==>
                caption == Caption("system", "No response.", "System") && !processing && batches == old(batches)
      ensures result.Some? && result.value != [] ==>
                batches == old(batches) + [result.value] && caption == old(caption) && processing == old(processing) &&
                batchFetches == old(batchFetches) + [Step(|old(batches)|, 0)]
    {
      warroomCalls := warroomCalls - 1;
      if result.None? {
        caption := Caption("system", "Connection Lost.", "System");
        processing := false;
        return;
      }
      var responses := result.value;
      if |responses| == 0 {
        caption := Caption("system", "No response.", "System");
        processing := false;
        return;
      }
      batches := batches + [responses];
      PlaySequence(|batches| - 1, 0);
    }

    /**
     * The audio fetch of batchFetches[k] finished (Some(url)) or threw.  For
     * the first response the exception reaches handleSend's catch; for a
     * later one it is lost in the timer callback and nothing happens.
     */
    method BatchAudioFetched(k: nat, url: Option<string>)
      requires StepsOk() && HandlersOk() && k < |batchFetches|
      modifies this`batchFetches, this`audio, this`caption, this`processing
      ensures StepsOk() && HandlersOk()
      ensures batchFetches == RemoveAt(old(batchFetches), k)
      ensures var s := old(batchFetches[k]);
              (url.Some? ==>
                 audio == old(audio).(src := url.value, paused := true, canPlay := ShowTurn(s.turn, s.index),
                                      ended := TurnEnded(s.turn, s.index)) &&
                 caption == old(caption) && processing == old(processing)) &&
              (url.None? ==> audio == old(audio)) &&
              (url.None? && s.index == 0 ==> caption == Caption("system", "Connection Lost.", "System") && !processing) &&
              (url.None? && s.index > 0 ==> caption == old(caption) && processing == old(processing))
    {
      var s := batchFetches[k];
      batchFetches := RemoveAt(batchFetches, k);
      if url.Some? {
        // The new source pauses the element; onerror keeps whatever handler it had.
        audio := audio.(src := url.value, canPlay := ShowTurn(s.turn, s.index), paused := true,
                        ended := TurnEnded(s.turn, s.index));
      } else if s.index == 0 {
        caption := Caption("system", "Connection Lost.", "System");
        processing := false;
      }
    }

    /** The 200 ms gap after a response ended is over: the next response is played. */
    method BatchTimerFired(j: nat)
      requires StepsOk() && j < |batchTimers|
      modifies this`batchTimers, this`captionTimers, this`processing, this`engine, this`batchFetches
      ensures StepsOk()
      ensures batchTimers == RemoveAt(old(batchTimers), j)
      ensures var s := old(batchTimers[j]);
              (s.index == |batches[s.turn]| ==> captionTimers == old(captionTimers) + 1 && !processing) &&
              (s.index < |batches[s.turn]| ==> batchFetches == old(batchFetches) + [s])
    {
      var s := batchTimers[j];
      batchTimers := RemoveAt(batchTimers, j);
      PlaySequence(s.turn, s.index);
    }

    /** The 800 ms timer after a sequence: the caption is cleared. */
    method CaptionTimerFired()
      requires captionTimers > 0
      modifies this`captionTimers, this`caption
      ensures captionTimers == old(captionTimers) - 1 && caption == NoCaption
    {
      captionTimers := captionTimers - 1;
      caption := NoCaption;
    }
  }
}
