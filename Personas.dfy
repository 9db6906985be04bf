/**
 * The persona tables of the backend (backend/personas.py): the voice of each
 * persona, with an environment override and a default, and the system prompts
 * read from a directory of text files whose names give the persona.
 */
module Personas {
  import opened Wrappers
  import opened Text

  /** The voice every name outside the table falls back to. */
  const DefaultVoice: string := "rtza1NeU17DKF7sf5ZAu"

  /** os.getenv(key, default): the variable's value when it is set, even to "". */
  function Getenv(env: map<string, string>, key: string, default: string): string {
    if key in env then env[key] else default
  }

  /** The voice table built when the manager is created. */
  function VoiceTable(env: map<string, string>): (t: map<string, string>)
    ensures t.Keys == {"Joy", "Sadness", "Anger", "Fear", "Disgust"}
  {
    map[
      "Joy" := Getenv(env, "VOICE_ID_JOY", "rtza1NeU17DKF7sf5ZAu"),
      "Sadness" := Getenv(env, "VOICE_ID_SADNESS", "AZnzlk1XvdvUeBnXmlld"),
      "Anger" := Getenv(env, "VOICE_ID_ANGER", "PFfIjUGsWsT9uQNYM0Vr"),
      "Fear" := Getenv(env, "VOICE_ID_FEAR", "GbbQErkqwE6P1x11Ol4I"),
      "Disgust" := Getenv(env, "VOICE_ID_DISGUST", "Zbqlr4MtsuNf9UAxsv2G")
    ]
  }

  /** dict.get(name, DefaultVoice) on the voice table. */
  function VoiceFor(table: map<string, string>, name: string): (v: string)
    ensures name in table ==> v == table[name]
    ensures name !in table ==> v == DefaultVoice
  {
    if name in table then table[name] else DefaultVoice
  }

  /** dict.get(name, "") on the prompt table. */
  function PromptFor(prompts: map<string, string>, name: string): (p: string)
    ensures name in prompts ==> p == prompts[name]
    ensures name !in prompts ==> p == ""
  {
    if name in prompts then prompts[name] else ""
  }

  /** Every name outside the five personas, Headquarters included, is voiced by the default. */
  lemma VoiceOfUnknownName(env: map<string, string>, name: string)
    requires name !in {"Joy", "Sadness", "Anger", "Fear", "Disgust"}
    ensures VoiceFor(VoiceTable(env), name) == DefaultVoice
  {
  }

  /** Without overrides in the environment the five personas get the source's five voices. */
  lemma VoicesWithoutOverrides(env: map<string, string>)
    requires forall k :: k in env ==> !StartsWith(k, "VOICE_ID_")
    ensures VoiceFor(VoiceTable(env), "Joy") == "rtza1NeU17DKF7sf5ZAu"
    ensures VoiceFor(VoiceTable(env), "Sadness") == "AZnzlk1XvdvUeBnXmlld"
    ensures VoiceFor(VoiceTable(env), "Anger") == "PFfIjUGsWsT9uQNYM0Vr"
    ensures VoiceFor(VoiceTable(env), "Fear") == "GbbQErkqwE6P1x11Ol4I"
    ensures VoiceFor(VoiceTable(env), "Disgust") == "Zbqlr4MtsuNf9UAxsv2G"
  {
    assert StartsWith("VOICE_ID_JOY", "VOICE_ID_");
    assert StartsWith("VOICE_ID_SADNESS", "VOICE_ID_");
    assert StartsWith("VOICE_ID_ANGER", "VOICE_ID_");
    assert StartsWith("VOICE_ID_FEAR", "VOICE_ID_");
    assert StartsWith("VOICE_ID_DISGUST", "VOICE_ID_");
  }

  /** One directory entry: a file name and the file's text. */
  datatype DirEntry = DirEntry(name: string, content: string)

  predicate EndsWith(s: string, suffix: string) {
    |suffix| <= |s| && s[|s| - |suffix|..] == suffix
  }

  /** Only files ending in ".txt" hold prompts. */
  predicate IsPromptFile(filename: string) {
    EndsWith(filename, ".txt")
  }

  predicate AllDots(s: string) {
    forall i :: 0 <= i < |s| ==> s[i] == '.'
  }

  /**
   * os.path.splitext(filename)[0] for a name ending in ".txt": the extension
   * is dropped unless everything before it is dots (".txt" and "..txt" have
   * no extension in Python's sense and are kept whole).
   */
  function Stem(filename: string): (stem: string)
    requires IsPromptFile(filename)
    ensures stem == filename <==> AllDots(filename[..|filename| - 4])
    ensures stem != filename ==> stem + ".txt" == filename
  {
    var base := filename[..|filename| - 4];
    assert base + ".txt" == filename;
    if AllDots(base) then filename else base
  }

  /** A file "Name.txt" registers the prompt under "Name". */
  lemma StemOfNamedFile(name: string)
    requires !AllDots(name)
    ensures IsPromptFile(name + ".txt") && Stem(name + ".txt") == name
  {
    assert (name + ".txt")[..|name + ".txt"| - 4] == name;
  }

  /** The effect of one directory entry on the prompt table. */
  function RegisterOne(prompts: map<string, string>, entry: DirEntry): map<string, string> {
    if IsPromptFile(entry.name) then prompts[Stem(entry.name) := Strip(entry.content)] else prompts
  }

  /** The prompt table after the loop has visited the entries in order. */
  function Register(prompts: map<string, string>, entries: seq<DirEntry>): map<string, string>
    decreases |entries|
  {
    if |entries| == 0 then prompts
    else RegisterOne(Register(prompts, entries[..|entries| - 1]), entries[|entries| - 1])
  }

  lemma RegisterSnoc(prompts: map<string, string>, entries: seq<DirEntry>, entry: DirEntry)
    ensures Register(prompts, entries + [entry]) == RegisterOne(Register(prompts, entries), entry)
  {
    assert (entries + [entry])[..|entries|] == entries;
  }

  /** True when entry i registers a prompt under `key`. */
  predicate Registers(entries: seq<DirEntry>, i: int, key: string) {
    0 <= i < |entries| && IsPromptFile(entries[i].name) && Stem(entries[i].name) == key
  }

  /** A key is in the table exactly when it was there before or some prompt file registers it. */
  lemma {:induction false} RegisterKeys(prompts: map<string, string>, entries: seq<DirEntry>, key: string)
    ensures key in Register(prompts, entries) <==>
            key in prompts || exists i :: Registers(entries, i, key)
    decreases |entries|
  {
    if |entries| > 0 {
      var n := |entries| - 1;
      RegisterKeys(prompts, entries[..n], key);
      assert key in Register(prompts, entries) <==>
             key in Register(prompts, entries[..n]) || Registers(entries, n, key);
      if exists i :: Registers(entries[..n], i, key) {
        var i :| Registers(entries[..n], i, key);
        assert Registers(entries, i, key);
      }
      if exists i :: Registers(entries, i, key) {
        var i :| Registers(entries, i, key);
        if i < n { assert Registers(entries[..n], i, key); }
      }
    }
  }

  /** The value under a key is the stripped text of the last prompt file that registers it. */
  lemma {:induction false} RegisterLastWins(prompts: map<string, string>, entries: seq<DirEntry>, i: nat, key: string)
    requires Registers(entries, i, key)
    requires forall j :: i < j < |entries| ==> !Registers(entries, j, key)
    ensures key in Register(prompts, entries) && Register(prompts, entries)[key] == Strip(entries[i].content)
    decreases |entries|
  {
    var n := |entries| - 1;
    if i < n {
      assert !Registers(entries, n, key);
      forall j | i < j < n ensures !Registers(entries[..n], j, key) {
        assert !Registers(entries, j, key);
      }
      RegisterLastWins(prompts, entries[..n], i, key);
    }
  }

  /** Entries that are not prompt files leave the table unchanged. */
  lemma {:induction false} RegisterIgnoresOtherFiles(prompts: map<string, string>, entries: seq<DirEntry>)
    requires forall i :: 0 <= i < |entries| ==> !IsPromptFile(entries[i].name)
    ensures Register(prompts, entries) == prompts
    decreases |entries|
  {
    if |entries| > 0 {
      RegisterIgnoresOtherFiles(prompts, entries[..|entries| - 1]);
    }
  }

  /** backend/personas.py's PersonaManager. */
  class PersonaManager {
    var prompts: map<string, string>
    const voiceIds: map<string, string>

    /**
     * `directory` is the listing of the prompts directory in os.listdir order,
     * or None when the directory does not exist.
     */
    constructor (env: map<string, string>, directory: Option<seq<DirEntry>>)
      ensures voiceIds == VoiceTable(env)
      ensures directory.None? ==> prompts == map[]
      ensures directory.Some? ==> prompts == Register(map[], directory.value)
    {
      voiceIds := VoiceTable(env);
      prompts := map[];
      new;
      LoadPrompts(directory);
    }

    method LoadPrompts(directory: Option<seq<DirEntry>>)
      modifies this`prompts
      ensures directory.None? ==> prompts == old(prompts)
      ensures directory.Some? ==> prompts == Register(old(prompts), directory.value)
    {
      if directory.None? {
        return;
      }
      var entries := directory.value;
      for i := 0 to |entries|
        invariant prompts == Register(old(prompts), entries[..i])
      {
        var entry := entries[i];
        ghost var before := prompts;
        if IsPromptFile(entry.name) {
          prompts := prompts[Stem(entry.name) := Strip(entry.content)];
        }
        assert prompts == RegisterOne(before, entry);
        assert entries[..i + 1] == entries[..i] + [entry];
        RegisterSnoc(old(prompts), entries[..i], entry);
      }
      assert entries[..|entries|] == entries;
    }

    function GetPrompt(name: string): (p: string)
      reads this
      ensures p == PromptFor(prompts, name)
      ensures name !in prompts ==> p == ""
    {
      PromptFor(prompts, name)
    }

    function GetVoiceId(name: string): (v: string)
      ensures v == VoiceFor(voiceIds, name)
      ensures name !in voiceIds ==> v == DefaultVoice
    {
      VoiceFor(voiceIds, name)
    }
  }
}
