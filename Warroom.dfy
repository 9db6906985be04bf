/**
 * The dialogue routing of the backend's war-room endpoint (backend/main.py):
 * who speaks, in which order and how many, how each reply is cleaned, and the
 * bounded conversation history; plus the request checks of the war-room and
 * audio endpoints.  Model replies are inputs.
 */
module Warroom {
  import opened Wrappers
  import opened Text
  import Personas

  const ValidPersonas: seq<string> := ["Joy", "Sadness", "Anger", "Fear", "Disgust"]

  /** At most this many personas answer one message. */
  const MaxSpeakers: nat := 4

  /** MAX_HISTORY * 3: the number of history entries kept. */
  const HistoryLimit: nat := 30

  predicate IsValid(name: string) { name in ValidPersonas }

  /** `\w` in the mention pattern. */
  predicate IsWordChar(c: char) {
    ('a' <= c <= 'z') || ('A' <= c <= 'Z') || ('0' <= c <= '9') || c == '_'
  }

  predicate IsWord(w: string) {
    |w| > 0 && forall i :: 0 <= i < |w| ==> IsWordChar(w[i])
  }

  /** The longest prefix of word characters (the greedy `\w+`). */
  function WordPrefix(s: string): (w: string)
    ensures |w| <= |s| && w == s[..|w|]
    ensures forall i :: 0 <= i < |w| ==> IsWordChar(w[i])
    ensures |w| == |s| || !IsWordChar(s[|w|])
    decreases |s|
  {
    if |s| > 0 && IsWordChar(s[0]) then [s[0]] + WordPrefix(s[1..]) else ""
  }

  /** re.findall(r"@(\w+)", message): the words after '@', scanning left to right without overlap. */
  function FindMentions(message: string): (ms: seq<string>)
    ensures forall i :: 0 <= i < |ms| ==> IsWord(ms[i])
    decreases |message|
  {
    if |message| == 0 then []
    else if message[0] == '@' && |message| > 1 && IsWordChar(message[1]) then
      var w := WordPrefix(message[1..]);
      [w] + FindMentions(message[1 + |w|..])
    else FindMentions(message[1..])
  }

  /** A message without '@' mentions nobody. */
  lemma {:induction false} NoAtNoMentions(message: string)
    requires '@' !in message
    ensures FindMentions(message) == []
    decreases |message|
  {
    if |message| > 0 {
      NoAtNoMentions(message[1..]);
    }
  }

  /** `m` is the word the '@' at position k of the message starts. */
  predicate MentionAt(message: string, k: int, m: string) {
    0 <= k < |message| - 1 && message[k] == '@' && m == WordPrefix(message[k + 1..])
  }

  /** `m` is the word some '@' of the message starts. */
  predicate Mentioned(message: string, m: string) {
    exists k :: 0 <= k < |message| && MentionAt(message, k, m)
  }

  lemma MentionAtShift(message: string, n: nat, k: int, m: string)
    requires n <= |message| && MentionAt(message[n..], k, m)
    ensures MentionAt(message, n + k, m)
  {
    assert message[n..][k + 1..] == message[n + k + 1..];
  }

  /** Each mention found is the whole word that follows some '@' of the message. */
  lemma {:induction false} FindMentionsSound(message: string)
    ensures forall i :: 0 <= i < |FindMentions(message)| ==> Mentioned(message, FindMentions(message)[i])
    decreases |message|
  {
    if |message| == 0 {
      assert FindMentions(message) == [];
    } else {
      var ms := FindMentions(message);
      var n := if message[0] == '@' && |message| > 1 && IsWordChar(message[1]) then 1 + |WordPrefix(message[1..])| else 1;
      var head := if n == 1 then [] else [WordPrefix(message[1..])];
      var tail := FindMentions(message[n..]);
      assert ms == head + tail;
      FindMentionsSound(message[n..]);
      forall i | 0 <= i < |ms| ensures Mentioned(message, ms[i]) {
        if i < |head| {
          assert MentionAt(message, 0, ms[i]);
        } else {
          assert ms[i] == tail[i - |head|];
          assert Mentioned(message[n..], tail[i - |head|]);
          var k :| MentionAt(message[n..], k, tail[i - |head|]);
          MentionAtShift(message, n, k, ms[i]);
        }
      }
    }
  }

  /** A word followed by a non-word character (or the end) is the greedy match. */
  lemma {:induction false} WordPrefixOfWord(w: string, rest: string)
    requires forall i :: 0 <= i < |w| ==> IsWordChar(w[i])
    requires rest == "" || !IsWordChar(rest[0])
    ensures WordPrefix(w + rest) == w
    decreases |w|
  {
    if |w| == 0 {
      assert w + rest == rest;
    } else {
      assert (w + rest)[0] == w[0] && (w + rest)[1..] == w[1..] + rest;
      WordPrefixOfWord(w[1..], rest);
    }
  }

  /**
   * A mention is found: after text without '@', "@word" followed by a
   * non-word character (or the end) yields that word, then the mentions of
   * the rest, in order.
   */
  lemma {:induction false} FindsMention(pre: string, w: string, rest: string)
    requires '@' !in pre && IsWord(w)
    requires rest == "" || !IsWordChar(rest[0])
    ensures FindMentions(pre + "@" + w + rest) == [w] + FindMentions(rest)
    decreases |pre|
  {
    var s := pre + "@" + w + rest;
    if |pre| == 0 {
      assert s == "@" + (w + rest);
      assert s[0] == '@' && s[1] == w[0] && s[1..] == w + rest;
      WordPrefixOfWord(w, rest);
      assert s[1 + |w|..] == rest;
    } else {
      assert s[0] == pre[0] && s[0] != '@';
      assert s[1..] == pre[1..] + "@" + w + rest;
      FindsMention(pre[1..], w, rest);
    }
  }

  /** An '@' not followed by a word character is skipped, and the scan goes on after it. */
  lemma {:induction false} SkipsBareAt(pre: string, rest: string)
    requires '@' !in pre
    requires rest == "" || !IsWordChar(rest[0])
    ensures FindMentions(pre + "@" + rest) == FindMentions(rest)
    decreases |pre|
  {
    var s := pre + "@" + rest;
    if |pre| == 0 {
      assert s == "@" + rest;
      assert s[1..] == rest;
    } else {
      assert s[0] == pre[0] && s[0] != '@';
      assert s[1..] == pre[1..] + "@" + rest;
      SkipsBareAt(pre[1..], rest);
    }
  }

  /** `[p for p in names if p in valid_personas]`. */
  function FilterValid(names: seq<string>): (r: seq<string>)
    ensures |r| <= |names|
    ensures forall x :: x in r <==> x in names && IsValid(x)
    decreases |names|
  {
    if |names| == 0 then []
    else (if IsValid(names[0]) then [names[0]] else []) + FilterValid(names[1..])
  }

  /** The filter keeps order: filtering a concatenation concatenates the filtered parts. */
  lemma {:induction false} FilterValidAppend(a: seq<string>, b: seq<string>)
    ensures FilterValid(a + b) == FilterValid(a) + FilterValid(b)
    decreases |a|
  {
    if |a| == 0 {
      assert a + b == b;
    } else {
      assert (a + b)[0] == a[0] && (a + b)[1..] == a[1..] + b;
      FilterValidAppend(a[1..], b);
    }
  }

  /** The elements of s without repeats, each at its first occurrence. */
  function Dedup<T(==)>(s: seq<T>): seq<T>
    decreases |s|
  {
    if |s| == 0 then []
    else
      var d := Dedup(s[..|s| - 1]);
      if s[|s| - 1] in d then d else d + [s[|s| - 1]]
  }

  predicate Distinct<T(==)>(s: seq<T>) {
    forall i, j :: 0 <= i < j < |s| ==> s[i] != s[j]
  }

  /** Index of the first occurrence of x in s. */
  function FirstIndex<T(==)>(s: seq<T>, x: T): (k: nat)
    requires x in s
    ensures k < |s| && s[k] == x && x !in s[..k]
    decreases |s|
  {
    if s[0] == x then 0 else 1 + FirstIndex(s[1..], x)
  }

  lemma {:induction false} FirstIndexInPrefix<T>(s: seq<T>, m: nat, x: T)
    requires m <= |s| && x in s[..m]
    ensures x in s && FirstIndex(s, x) == FirstIndex(s[..m], x)
  {
    var k := FirstIndex(s[..m], x);
    assert s[..m][..k] == s[..k];
    assert s[k] == x;
  }

  /**
   * The mention list: no repeats, exactly the elements of the input, in the
   * order of their first occurrence.
   */
  lemma {:induction false} DedupSpec<T>(s: seq<T>)
    ensures Distinct(Dedup(s))
    ensures forall x :: x in Dedup(s) <==> x in s
    ensures forall i, j :: 0 <= i < j < |Dedup(s)| ==> FirstIndex(s, Dedup(s)[i]) < FirstIndex(s, Dedup(s)[j])
    decreases |s|
  {
    if |s| > 0 {
      var n := |s| - 1;
      var p := s[..n];
      DedupSpec(p);
      var d := Dedup(p);
      assert s == p + [s[n]];
      forall x | x in p ensures x in s && FirstIndex(s, x) == FirstIndex(p, x) {
        FirstIndexInPrefix(s, n, x);
      }
      if s[n] !in d {
        assert s[n] !in p;
        assert FirstIndex(s, s[n]) == n;
      }
    }
  }

  /** `not in seen` loop over the mentioned names: the first occurrence of each, in order. */
  method UniqueMentions(mentioned: seq<string>) returns (unique: seq<string>)
    ensures unique == Dedup(mentioned)
  {
    unique := [];
    var seen: set<string> := {};
    for i := 0 to |mentioned|
      invariant unique == Dedup(mentioned[..i])
      invariant forall x :: x in seen <==> x in unique
    {
      var m := mentioned[i];
      assert mentioned[..i + 1][..i] == mentioned[..i];
      if m !in seen {
        unique := unique + [m];
        seen := seen + {m};
      }
    }
    assert mentioned[..|mentioned|] == mentioned;
  }

  /**
   * The orchestrator's reply, stripped and without '.', split at ',' and
   * every stripped part that names a persona kept (repeats included); an
   * empty result becomes ["Joy"] and a failed call ["Joy", "Sadness"].
   */
  function OrchestratorOrder(reply: Option<string>): (order: seq<string>)
    ensures order != [] && forall x :: x in order ==> IsValid(x)
    ensures reply.None? ==> order == ["Joy", "Sadness"]
    ensures reply.Some? ==>
              var names := FilterValid(StrippedParts(Split(RemoveAll(Strip(reply.value), "."), ',')));
              (names == [] ==> order == ["Joy"]) && (names != [] ==> order == names)
  {
    match reply
    case None => ["Joy", "Sadness"]
    case Some(text) =>
      var names := FilterValid(StrippedParts(Split(RemoveAll(Strip(text), "."), ',')));
      if names == [] then ["Joy"] else names
  }

  function StrippedParts(parts: seq<string>): (r: seq<string>)
    ensures |r| == |parts| && forall i :: 0 <= i < |parts| ==> r[i] == Strip(parts[i])
  {
    seq(|parts|, i requires 0 <= i < |parts| => Strip(parts[i]))
  }

  /**
   * The speaker order by priority: @mentions, then a non-empty UI list
   * (filtered, may become empty), then a valid single target, then the
   * orchestrator.
   */
  function ChooseSpeakers(unique: seq<string>, ui: Option<seq<string>>, target: Option<string>,
                          reply: Option<string>): (order: seq<string>)
    ensures unique != [] ==> order == unique
    ensures unique == [] && ui.Some? && ui.value != [] ==> order == FilterValid(ui.value)
    ensures unique == [] && (ui.None? || ui.value == []) && target.Some? && IsValid(target.value) ==>
              order == [target.value]
    ensures unique == [] && (ui.None? || ui.value == []) && (target.None? || !IsValid(target.value)) ==>
              order == OrchestratorOrder(reply)
  {
    if unique != [] then unique
    else if ui.Some? && |ui.value| > 0 then FilterValid(ui.value)
    else if target.Some? && IsValid(target.value) then [target.value]
    else OrchestratorOrder(reply)
  }

  /** Every speaker is a persona, and the order is empty only when a UI list names none of them. */
  lemma SpeakersAreValid(message: string, ui: Option<seq<string>>, target: Option<string>, reply: Option<string>)
    ensures var order := ChooseSpeakers(Dedup(FilterValid(FindMentions(message))), ui, target, reply);
            (forall x :: x in order ==> IsValid(x)) &&
            (order == [] <==> Dedup(FilterValid(FindMentions(message))) == [] && ui.Some? && ui.value != [] &&
                               FilterValid(ui.value) == [])
  {
    DedupSpec(FilterValid(FindMentions(message)));
  }

  /** `speaker_order[:4]`. */
  function Speaking(order: seq<string>): (s: seq<string>)
    ensures |s| <= MaxSpeakers && |s| <= |order| && s == order[..|s|]
    ensures |order| <= MaxSpeakers ==> s == order
    ensures |order| > MaxSpeakers ==> s == order[..MaxSpeakers]
  {
    if |order| <= MaxSpeakers then order else order[..MaxSpeakers]
  }

  /** One response of the war room. */
  datatype Response = Response(persona: string, text: string)

  /** A reply stripped, then a leading "Name:" of its own persona (any case) removed and the rest stripped. */
  function CleanResponse(persona: string, raw: string): (r: string)
    ensures r == [] || (!IsPyWhitespace(r[0]) && !IsPyWhitespace(r[|r| - 1]))
    ensures !StartsWith(Lower(Strip(raw)), Lower(persona) + ":") ==> r == Strip(raw)
  {
    var text := Strip(raw);
    if StartsWith(Lower(text), Lower(persona) + ":") then Strip(text[|persona| + 1..]) else text
  }

  lemma {:induction false} TrimEndOfPrefixed(p: string, y: string, ws: Whitespace)
    requires |p| > 0 && !IsSpace(ws, p[|p| - 1])
    ensures TrimEnd(p + y, ws) == p + TrimEnd(y, ws)
    decreases |y|
  {
    if |y| == 0 {
      assert p + y == p;
    } else if IsSpace(ws, y[|y| - 1]) {
      assert (p + y)[|p + y| - 1] == y[|y| - 1];
      assert (p + y)[..|p + y| - 1] == p + y[..|y| - 1];
      TrimEndOfPrefixed(p, y[..|y| - 1], ws);
    } else {
      assert (p + y)[|p + y| - 1] == y[|y| - 1];
    }
  }

  /** Stripping text that starts and ends a prefix with non-blanks only trims the rest's end. */
  lemma StripOfPrefixed(p: string, body: string)
    requires |p| > 0 && !IsPyWhitespace(p[0]) && !IsPyWhitespace(p[|p| - 1])
    ensures Strip(p + body) == p + TrimEnd(body, Python)
  {
    var ws := Python;
    assert (p + body)[0] == p[0];
    assert TrimStart(p + body, ws) == p + body;
    TrimEndOfPrefixed(p, body, ws);
  }

  lemma LowerAppend(a: string, b: string)
    ensures Lower(a + b) == Lower(a) + Lower(b)
  {
  }

  /** Stripping the end first changes nothing about the final strip. */
  lemma StripAfterTrimEnd(body: string)
    ensures Strip(TrimEnd(body, Python)) == Strip(body)
  {
    var tb := TrimEnd(body, Python);
    var rest := body[|tb|..];
    assert tb + rest == body;
    assert "" + tb + rest == body;
    assert "" + tb + "" == tb;
    StripPadded("", tb, rest);
    StripPadded("", tb, "");
  }

  /**
   * A reply that starts with its own persona's name in any case followed by
   * ':' comes out as the rest of the reply, stripped.
   */
  lemma CleanRemovesOwnName(persona: string, name: string, body: string)
    requires Lower(name) == Lower(persona) && |persona| > 0 && !IsPyWhitespace(name[0])
    ensures CleanResponse(persona, name + ":" + body) == Strip(body)
  {
    var p := name + ":";
    assert p + body == name + ":" + body;
    StripOfPrefixed(p, body);
    var tb := TrimEnd(body, Python);
    var text := p + tb;
    assert Strip(name + ":" + body) == text;
    LowerAppend(p, tb);
    LowerAppend(name, ":");
    assert Lower(":") == ":";
    assert Lower(text)[..|persona| + 1] == Lower(persona) + ":";
    assert StartsWith(Lower(text), Lower(persona) + ":");
    assert text[|persona| + 1..] == tb;
    StripAfterTrimEnd(body);
  }

  /** The responses loop: one cleaned response per speaking persona, in order. */
  method BuildResponses(speaking: seq<string>, results: seq<string>) returns (responses: seq<Response>)
    requires |results| == |speaking|
    ensures |responses| == |speaking|
    ensures forall i :: 0 <= i < |speaking| ==>
              responses[i] == Response(speaking[i], CleanResponse(speaking[i], results[i]))
  {
    responses := [];
    for i := 0 to |speaking|
      invariant |responses| == i
      invariant forall k :: 0 <= k < i ==> responses[k] == Response(speaking[k], CleanResponse(speaking[k], results[k]))
    {
      responses := responses + [Response(speaking[i], CleanResponse(speaking[i], results[i]))];
    }
  }

  /** The history entries of one exchange: the user's line, then one line per response. */
  function ExchangeLines(message: string, responses: seq<Response>): (lines: seq<string>)
    ensures |lines| == |responses| + 1 && lines[0] == "User: " + message
    ensures forall i :: 0 <= i < |responses| ==> lines[i + 1] == responses[i].persona + ": " + responses[i].text
    decreases |responses|
  {
    if |responses| == 0 then ["User: " + message]
    else
      var r := responses[|responses| - 1];
      ExchangeLines(message, responses[..|responses| - 1]) + [r.persona + ": " + r.text]
  }

  /** The last `n` entries of a list (all of it when it is no longer). */
  function KeepLast(s: seq<string>, n: nat): (r: seq<string>)
    ensures |r| <= n && |r| <= |s| && r == s[|s| - |r|..]
    ensures |s| <= n ==> r == s
    ensures |s| > n ==> |r| == n
  {
    if |s| > n then s[|s| - n..] else s
  }

  /** A war-room request: message, single target and the UI's list (None when absent or not a list). */
  datatype WarroomRequest = WarroomRequest(message: Option<string>, targetPersona: Option<string>,
                                           targetPersonas: Option<seq<string>>)

  /** A request without a non-empty message is refused with status 400. */
  predicate HasMessage(message: Option<string>) {
    message.Some? && message.value != ""
  }

  /** The endpoint's global state: the conversation history. */
  class WarRoom {
    var history: seq<string>

    constructor ()
      ensures history == []
    {
      history := [];
    }

    /** Appends the exchange, then keeps only the last HistoryLimit entries. */
    method RecordExchange(message: string, responses: seq<Response>)
      modifies this`history
      ensures history == KeepLast(old(history) + ExchangeLines(message, responses), HistoryLimit)
      ensures |history| <= HistoryLimit
    {
      history := history + ["User: " + message];
      ghost var start := |old(history)|;
      for i := 0 to |responses|
        invariant history == old(history) + ExchangeLines(message, responses[..i])
      {
        var r := responses[i];
        assert responses[..i + 1][..i] == responses[..i];
        history := history + [r.persona + ": " + r.text];
      }
      assert responses[..|responses|] == responses;
      if |history| > HistoryLimit {
        history := history[|history| - HistoryLimit..];
      }
    }

    /**
     * The war-room endpoint as it is meant to work: `results(i)` is the
     * gathered reply for the i-th speaking persona and `orchestrator` the
     * orchestrator's reply (None when the call raised).
     */
    method Handle(request: WarroomRequest, orchestrator: Option<string>, results: nat -> string)
      returns (outcome: Result<seq<Response>>)
      modifies this`history
      ensures !HasMessage(request.message) ==> outcome == Err(400) && history == old(history)
      ensures HasMessage(request.message) ==>
        var message := request.message.value;
        var order := ChooseSpeakers(Dedup(FilterValid(FindMentions(message))), request.targetPersonas,
                                    request.targetPersona, orchestrator);
        var speaking := Speaking(order);
        && outcome.Ok?
        && |outcome.value| == |speaking| <= MaxSpeakers
        && (forall i :: 0 <= i < |speaking| ==>
              outcome.value[i] == Response(speaking[i], CleanResponse(speaking[i], results(i))))
        && history == KeepLast(old(history) + ExchangeLines(message, outcome.value), HistoryLimit)
    {
      if !HasMessage(request.message) {
        return Err(400);
      }
      var message := request.message.value;
      var unique := UniqueMentions(FilterValid(FindMentions(message)));
      var order := ChooseSpeakers(unique, request.targetPersonas, request.targetPersona, orchestrator);
      var speaking := Speaking(order);
      var gathered := seq(|speaking|, i requires 0 <= i => results(i));
      var responses := BuildResponses(speaking, gathered);
      RecordExchange(message, responses);
      return Ok(responses);
    }

    /**
     * The war-room endpoint as written: it calls `generate_response_async`,
     * which the Brain class does not define, so every request with at least
     * one speaking persona ends in an AttributeError (status 500) before any
     * reply is produced or the history changes.
     */
    method HandleAsWritten(request: WarroomRequest, orchestrator: Option<string>)
      returns (outcome: Result<seq<Response>>)
      modifies this`history
      ensures !HasMessage(request.message) ==> outcome == Err(400) && history == old(history)
      ensures HasMessage(request.message) ==>
        var message := request.message.value;
        var order := ChooseSpeakers(Dedup(FilterValid(FindMentions(message))), request.targetPersonas,
                                    request.targetPersona, orchestrator);
        if Speaking(order) != [] then outcome == Err(500) && history == old(history)
        else outcome == Ok([]) && history == KeepLast(old(history) + ["User: " + message], HistoryLimit)
    {
      if !HasMessage(request.message) {
        return Err(400);
      }
      var message := request.message.value;
      var unique := UniqueMentions(FilterValid(FindMentions(message)));
      var order := ChooseSpeakers(unique, request.targetPersonas, request.targetPersona, orchestrator);
      if Speaking(order) != [] {
        return Err(500);
      }
      RecordExchange(message, []);
      return Ok([]);
    }
  }

  /** With no mention and no UI list the as-written endpoint always fails: the orchestrator never yields []. */
  lemma AsWrittenFailsWithoutUiList(message: string, target: Option<string>, orchestrator: Option<string>)
    ensures Speaking(ChooseSpeakers(Dedup(FilterValid(FindMentions(message))), None, target, orchestrator)) != []
  {
    SpeakersAreValid(message, None, target, orchestrator);
  }

  /** What the audio endpoint synthesizes: the persona, its voice and the text. */
  datatype AudioPlan = AudioPlan(persona: string, voice: string, text: string)

  /**
   * The audio endpoint: a non-empty JSON body gives persona (default "Joy")
   * and text (default ""); otherwise the query parameters do, an empty one
   * counting as absent.  An empty text is refused with status 400.
   */
  function AudioRequest(voices: map<string, string>, body: Option<map<string, string>>,
                        persona: Option<string>, text: Option<string>): (r: Result<AudioPlan>)
    ensures r.Err? <==> r == Err(400)
    ensures r.Ok? ==> r.value.text != "" && r.value.voice == Personas.VoiceFor(voices, r.value.persona)
    ensures body.None? && (persona.None? || persona.value == "") && r.Ok? ==> r.value.persona == "Joy"
    ensures body.Some? && body.value != map[] && "persona" !in body.value && r.Ok? ==> r.value.persona == "Joy"
    ensures body.Some? && body.value != map[] ==> (r.Err? <==> "text" !in body.value || body.value["text"] == "")
    ensures body.Some? && body.value != map[] && r.Ok? ==>
              r.value.text == body.value["text"] &&
              ("persona" in body.value ==> r.value.persona == body.value["persona"])
    ensures (body.None? || body.value == map[]) ==> (r.Err? <==> text.None? || text.value == "")
    ensures (body.None? || body.value == map[]) && r.Ok? ==>
              text.Some? && r.value.text == text.value &&
              r.value.persona == (if persona.Some? && persona.value != "" then persona.value else "Joy")
  {
    var useBody := body.Some? && body.value != map[];
    var name := if useBody then (if "persona" in body.value then body.value["persona"] else "Joy")
                else (if persona.Some? && persona.value != "" then persona.value else "Joy");
    var content := if useBody then (if "text" in body.value then body.value["text"] else "")
                   else (if text.Some? then text.value else "");
    if content == "" then Err(400) else Ok(AudioPlan(name, Personas.VoiceFor(voices, name), content))
  }
}
