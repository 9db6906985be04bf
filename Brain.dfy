/**
 * Post-processing of the dialogue model's replies (backend/brain.py).  The
 * model itself is outside: a reply is an input, None when the call raised.
 */
module Brain {
  import opened Wrappers
  import opened Text

  /** The speakers, in the fixed order the router tries them. */
  const Emotions: seq<string> := ["Joy", "Sadness", "Anger", "Fear", "Disgust"]

  /** The router's reply as compared: stripped, every '.' removed, lower-cased. */
  function RouterDecision(reply: string): string {
    Lower(RemoveAll(Strip(reply), "."))
  }

  /** The first emotion from index i on whose lower-case name occurs in `decision`, else "Joy". */
  function MatchFrom(decision: string, i: nat): (p: string)
    requires i <= |Emotions|
    ensures p in Emotions
    decreases |Emotions| - i
  {
    if i == |Emotions| then "Joy"
    else if Contains(decision, Lower(Emotions[i])) then Emotions[i]
    else MatchFrom(decision, i + 1)
  }

  predicate Mentions(decision: string, k: int) {
    0 <= k < |Emotions| && Contains(decision, Lower(Emotions[k]))
  }

  /** With no emotion mentioned from position i on, the match is "Joy". */
  lemma {:induction false} MatchFromNone(decision: string, i: nat)
    requires i <= |Emotions|
    requires forall k :: i <= k < |Emotions| ==> !Mentions(decision, k)
    ensures MatchFrom(decision, i) == "Joy"
    decreases |Emotions| - i
  {
    if i < |Emotions| {
      assert !Mentions(decision, i);
      MatchFromNone(decision, i + 1);
    }
  }

  /** The match is the first emotion, in the fixed order, that the decision mentions. */
  lemma {:induction false} MatchFromIsFirst(decision: string, i: nat, k: nat)
    requires i <= k < |Emotions| && Mentions(decision, k)
    requires forall j :: i <= j < k ==> !Mentions(decision, j)
    ensures MatchFrom(decision, i) == Emotions[k]
    decreases k - i
  {
    if i < k {
      assert !Mentions(decision, i);
      MatchFromIsFirst(decision, i + 1, k);
    } else {
      assert Mentions(decision, i);
    }
  }

  /** The request made to the model: the contents and the optional system instruction. */
  datatype Request = Request(contents: string, systemInstruction: Option<string>)

  /** `{'system_instruction': s} if s else {}`: an instruction is sent only when it is a non-empty string. */
  function ConfigFor(systemInstruction: Option<string>): (c: Option<string>)
    ensures c.Some? <==> systemInstruction.Some? && systemInstruction.value != ""
    ensures c.Some? ==> c == systemInstruction
  {
    match systemInstruction
    case Some(s) => if s != "" then Some(s) else None
    case None => None
  }

  /** One line of a Fun Mode script. */
  datatype ScriptLine = ScriptLine(persona: string, text: string)

  /** The script reply with "```json" and then "```" removed, then stripped. */
  function CleanScript(text: string): string {
    Strip(RemoveAll(RemoveAll(text, "```json"), "```"))
  }

  /** A reply without backticks is only stripped before it is parsed. */
  lemma CleanScriptWithoutFence(text: string)
    requires '`' !in text
    ensures CleanScript(text) == Strip(text)
  {
    RemoveAllKeeps(text, "", "```json");
    RemoveAllKeeps(text, "", "```");
    assert text + "" == text;
  }

  /** A script wrapped in a json code fence comes out as the script, stripped. */
  lemma CleanScriptUnfences(x: string)
    requires '`' !in x
    ensures CleanScript("```json\n" + x + "\n```") == Strip(x)
  {
    var inner := "\n" + x + "\n";
    assert '`' !in inner;
    var s := "```json\n" + x + "\n```";
    assert s == "```json" + (inner + "```");
    assert s[..7] == "```json";
    assert s[7..] == inner + "```";
    RemoveAllKeeps(inner, "```", "```json");
    assert RemoveAll(s, "```json") == inner + "```";
    RemoveAllKeeps(inner, "```", "```");
    assert RemoveAll("```", "```") == RemoveAll("", "```");
    assert inner + "" == inner;
    assert RemoveAll(inner + "```", "```") == inner;
    assert "\n" + x + "\n" == "\n" + x + "\n";
    StripPadded("\n", x, "\n");
  }

  /** backend/brain.py's Brain; `connected` stands for `self.client` being set. */
  class Brain {
    var connected: bool

    /** Whether the constructor obtained a client from the environment is an input. */
    constructor (connected: bool)
      ensures this.connected == connected
    {
      this.connected := connected;
    }

    /** configure(key): the client is set when creating it succeeds and cleared when it raises. */
    method Configure(clientCreated: bool)
      modifies this`connected
      ensures connected == clientCreated
    {
      connected := clientCreated;
    }

    /**
     * generate_response: without a client the fixed error text; otherwise the
     * model's reply to a request that carries the system instruction only
     * when one is given, or "Thinking..." when the call raises.
     */
    function GenerateResponse(userInput: string, systemInstruction: Option<string>,
                              model: Request -> Option<string>): (r: string)
      reads this
      ensures !connected ==> r == "Error: Brain not connected."
      ensures connected && model(Request(userInput, ConfigFor(systemInstruction))).None? ==> r == "Thinking..."
      ensures connected && model(Request(userInput, ConfigFor(systemInstruction))).Some? ==>
                r == model(Request(userInput, ConfigFor(systemInstruction))).value
    {
      if !connected then "Error: Brain not connected."
      else match model(Request(userInput, ConfigFor(systemInstruction)))
        case None => "Thinking..."
        case Some(text) => text
    }

    /**
     * decide_persona: always one of the five emotions; "Joy" without a client,
     * when the call raises, or when the reply names none of them.
     */
    function DecidePersona(reply: Option<string>): (p: string)
      reads this
      ensures p in Emotions
      ensures !connected || reply.None? ==> p == "Joy"
      ensures connected && reply.Some? ==> p == MatchFrom(RouterDecision(reply.value), 0)
    {
      if !connected then "Joy"
      else match reply
        case None => "Joy"
        case Some(text) => MatchFrom(RouterDecision(text), 0)
    }

    /**
     * generate_fun_mode_script: the parsed script, or [] without a client,
     * when the call raises or when the cleaned reply does not parse.
     */
    function GenerateFunModeScript(reply: Option<string>, parse: string -> Option<seq<ScriptLine>>): (script: seq<ScriptLine>)
      reads this
      ensures !connected || reply.None? ==> script == []
      ensures connected && reply.Some? && parse(CleanScript(reply.value)).None? ==> script == []
      ensures connected && reply.Some? && parse(CleanScript(reply.value)).Some? ==>
                script == parse(CleanScript(reply.value)).value
    {
      if !connected then []
      else match reply
        case None => []
        case Some(text) => parse(CleanScript(text)).GetOr([])
    }
  }
}
