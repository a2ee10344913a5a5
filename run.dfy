/**
  The interactive "Dungeon Master" loop of run.py, without its console and the
  language model behind it: how a raw input line is classified, how the
  character's name and nick are defaulted, the prompt template text, and the
  wiring of the memory aggregator at start-up.
 */
module Run {
  import opened Results
  import opened Memory

  /** The functions the command table dispatches to. */
  datatype Handler = PrintMemory | SaveMemory | PrintHelp | ExitProgram

  /** The `commands` table. */
  const Commands: map<string, Handler> := map[
    "--MEMORY" := PrintMemory,
    ":m" := PrintMemory,
    "--SAVE" := SaveMemory,
    ":w" := SaveMemory,
    "--HELP" := PrintHelp,
    ":help" := PrintHelp,
    ":h" := PrintHelp,
    ":q" := ExitProgram
  ]

  /** The `exit_conditions` tuple. */
  const ExitConditions: seq<string> := [":q", "quit", "exit"]

  /** What the loop does with one input line. */
  datatype Decision =
    | Quit                      // `break`
    | Command(handler: Handler) // run a table entry, then `continue`
    | Turn(query: string)       // send the line to the conversation

  /**
    The loop's decision for one line: the exit test comes before the table
    lookup, and both compare the raw line exactly.
   */
  function Classify(query: string): (d: Decision)
    ensures d == Quit <==> query in ExitConditions
    ensures d.Command? <==> query !in ExitConditions && query in Commands
    ensures d.Command? ==> d.handler == Commands[query] && d.handler != ExitProgram
    ensures d.Turn? <==> query !in ExitConditions && query !in Commands
    ensures d.Turn? ==> d.query == query
  {
    if query in ExitConditions then Quit
    else if query in Commands then Command(Commands[query])
    else Turn(query)
  }

  /** The decisions taken on `lines`, up to (and not including) the first exit condition. */
  function Steps(lines: seq<string>): seq<Decision>
  {
    if lines == [] || lines[0] in ExitConditions then [] else [Classify(lines[0])] + Steps(lines[1..])
  }

  /**
    The `while True` loop over the lines the user types. It stops at the first
    exit condition; running out of lines (end of input) also stops it.
   */
  method ReadEvalLoop(lines: seq<string>) returns (steps: seq<Decision>, consumed: nat, quit: bool)
    ensures steps == Steps(lines)
    ensures consumed <= |lines|
    ensures quit <==> exists i :: 0 <= i < |lines| && lines[i] in ExitConditions
    ensures quit ==> 0 < consumed && lines[consumed - 1] in ExitConditions
    ensures forall i :: 0 <= i < consumed - 1 ==> lines[i] !in ExitConditions
    ensures !quit ==> consumed == |lines|
  {
    steps, consumed, quit := [], 0, false;
    while consumed < |lines|
      invariant consumed <= |lines|
      invariant forall i :: 0 <= i < consumed ==> lines[i] !in ExitConditions
      invariant Steps(lines) == steps + Steps(lines[consumed..])
    {
      var query := lines[consumed];
      assert lines[consumed..][1..] == lines[consumed + 1..];
      consumed := consumed + 1;
      if query in ExitConditions {
        quit := true;
        assert steps == Steps(lines);
        return;
      }
      if query in Commands {
        steps := steps + [Command(Commands[query])];
        continue;
      }
      steps := steps + [Turn(query)];
    }
    assert lines[consumed..] == [];
  }

  /** No decision the loop takes is to quit, and the table's `exit` entry is never run. */
  lemma {:induction false} TableExitIsNeverRun(lines: seq<string>)
    ensures forall d :: d in Steps(lines) ==> d != Quit && d != Command(ExitProgram)
  {
    if lines != [] && lines[0] !in ExitConditions {
      TableExitIsNeverRun(lines[1..]);
    }
  }

  /** Each line before the first exit condition yields exactly its own decision, in order. */
  lemma {:induction false} StepsFollowLines(lines: seq<string>, i: nat)
    requires i < |lines| && forall j :: 0 <= j <= i ==> lines[j] !in ExitConditions
    ensures i < |Steps(lines)| && Steps(lines)[i] == Classify(lines[i])
  {
    if i > 0 {
      StepsFollowLines(lines[1..], i - 1);
    }
  }

  /**
    The loop takes one decision per line up to the first exit condition and
    none after it: the number of decisions is the index of that line, or the
    number of lines when there is none.
   */
  lemma {:induction false} StepsStopAtFirstExit(lines: seq<string>)
    ensures |Steps(lines)| <= |lines|
    ensures forall j :: 0 <= j < |Steps(lines)| ==> lines[j] !in ExitConditions
    ensures |Steps(lines)| < |lines| ==> lines[|Steps(lines)|] in ExitConditions
  {
    if lines != [] && lines[0] !in ExitConditions {
      StepsStopAtFirstExit(lines[1..]);
      forall j | 1 <= j < |Steps(lines)| ensures lines[j] !in ExitConditions {
        assert lines[j] == lines[1..][j - 1];
      }
    }
  }

  /** ":q" quits rather than running its table entry; "quit" and "exit" are not table keys. */
  lemma ExitWordsQuit()
    ensures Classify(":q") == Quit && Classify("quit") == Quit && Classify("exit") == Quit
    ensures "quit" !in Commands && "exit" !in Commands && Commands[":q"] == ExitProgram
  {
  }

  /** Matching is exact: no case folding and no trimming. */
  lemma MatchingIsExact()
    ensures Classify(":m") == Command(PrintMemory) && Classify("--MEMORY") == Command(PrintMemory)
    ensures Classify(":w") == Command(SaveMemory) && Classify("--SAVE") == Command(SaveMemory)
    ensures Classify(":h") == Command(PrintHelp) && Classify(":help") == Command(PrintHelp)
    ensures Classify("--HELP") == Command(PrintHelp)
    ensures Classify(":M") == Turn(":M") && Classify(" :m") == Turn(" :m") && Classify("QUIT") == Turn("QUIT")
  {
  }

  /** The name used when the player gives none. */
  const DefaultCharacterName: string := "Player"

  /** The prefix of the Dungeon Master's lines. */
  const AiPrefix: string := "DM"

  /**
    The character's name and nick from the (already stripped) answers to the
    two questions: an empty name becomes "Player", an empty nick becomes the name.
   */
  function CharacterNames(strippedName: string, strippedNick: string): (names: (string, string))
    ensures names.0 != [] && names.1 != []
    ensures strippedName != [] ==> names.0 == strippedName
    ensures strippedName == [] ==> names.0 == DefaultCharacterName
    ensures strippedNick != [] ==> names.1 == strippedNick
    ensures strippedNick == [] ==> names.1 == names.0
  {
    var name := if strippedName != [] then strippedName else DefaultCharacterName;
    var nick := if strippedNick != [] then strippedNick else name;
    (name, nick)
  }

  /** The first message saved into memory at start-up. */
  function IntroIn(characterName: string, characterNick: string): string
  {
    "Good day to you, I want to create new character. Full name of my character is '" + characterName
    + "'. Just '" + characterNick + "' for a friends."
  }

  /** The reply saved with it. */
  function IntroOut(characterName: string, characterNick: string): string
  {
    "Ok " + characterNick + ". Your new character is " + characterName + ". I will be your Dungeon Master (DM)."
  }

  /** A template field: in the f-string a doubled brace stands for one literal brace. */
  function Placeholder(name: string): string
  {
    "{" + name + "}"
  }

  /** The fixed text at the head of the prompt, up to and including "Context:". */
  const Preamble: string :=
    "The AI is Dungeon Master (DM) for users campaign. The campaign is set in the world of \"Goblin Slayer\" anime.\n"
    + "DM prefers to use entity names instead of pronouns.\n"
    + "When DM creates new non-player character DM provides character name, full name, detailed description and summary of characters personality.\n"
    + "When DM mentions new location DM includes provides these information: full location name, if place is part of a larger territorial unit, location description.\n"
    + "\n"
    + "The AI takes in consideration additional information contained in the \"Context\" section.\n"
    + "\n"
    + "Context:\n"

  /** The prompt template after a given preamble, with the nick and the DM's name filled in. */
  function Template(preamble: string, playerNick: string, dungeonMaster: string): string
  {
    preamble + Placeholder("long_term_memory") + "\n\nConversation:\n" + Placeholder("short_term_memory") + "\n"
    + playerNick + ": " + Placeholder("input") + "\n" + dungeonMaster + ":"
  }

  /** `format_prompt`: its last two lines are the player's turn and the DM's cue. */
  function FormatPrompt(playerNick: string := DefaultCharacterName, dungeonMaster: string := AiPrefix): (prompt: string)
    ensures var tail := "\n" + playerNick + ": {input}\n" + dungeonMaster + ":";
      |tail| <= |prompt| && prompt[|prompt| - |tail|..] == tail
  {
    var prompt := Template(Preamble, playerNick, dungeonMaster);
    var head := Preamble + Placeholder("long_term_memory") + "\n\nConversation:\n" + Placeholder("short_term_memory");
    var tail := "\n" + playerNick + ": {input}\n" + dungeonMaster + ":";
    assert Placeholder("input") == "{input}";
    assert prompt == head + tail;
    prompt
  }

  /** The input variables the prompt template is declared with. */
  const PromptInputVariables: seq<string> := ["long_term_memory", "short_term_memory", "input"]

  predicate NoBraces(s: string)
  {
    '{' !in s && '}' !in s
  }

  /** Reads a field name up to its closing brace; None when the text ends first or a '{' comes. */
  function TakeName(t: string): (r: Option<(string, string)>)
    ensures r.Some? ==> |r.value.1| < |t|
  {
    if t == [] then None
    else if t[0] == '}' then Some(([], t[1..]))
    else if t[0] == '{' then None
    else
      match TakeName(t[1..])
      case None => None
      case Some((name, rest)) => Some(([t[0]] + name, rest))
  }

  /** Adds `name` to a set of fields found so far, keeping a failure a failure. */
  function WithField(name: string, found: Option<set<string>>): Option<set<string>>
  {
    match found
    case None => None
    case Some(fields) => Some({name} + fields)
  }

  /**
    The fields of a template in the brace syntax of Python's `str.format`: a
    doubled brace is a literal brace, `{name}` is a field, and a brace that is
    neither makes the template malformed (None).
   */
  function Fields(t: string): Option<set<string>>
    decreases |t|
  {
    if t == [] then Some({})
    else if |t| >= 2 && t[0] == '{' && t[1] == '{' then Fields(t[2..])
    else if |t| >= 2 && t[0] == '}' && t[1] == '}' then Fields(t[2..])
    else if t[0] == '}' then None
    else if t[0] == '{' then
      match TakeName(t[1..])
      case None => None
      case Some((name, rest)) => WithField(name, Fields(rest))
    else Fields(t[1..])
  }

  /** Text without braces contributes no fields. */
  lemma {:induction false} PlainTextHasNoFields(s: string, t: string)
    requires NoBraces(s)
    ensures Fields(s + t) == Fields(t)
  {
    if s != [] {
      assert (s + t)[1..] == s[1..] + t;
      PlainTextHasNoFields(s[1..], t);
    } else {
      assert s + t == t;
    }
  }

  lemma {:induction false} TakeNameReadsToClosingBrace(name: string, t: string)
    requires NoBraces(name)
    ensures TakeName(name + "}" + t) == Some((name, t))
  {
    if name == [] {
      assert name + "}" + t == "}" + t;
    } else {
      assert (name + "}" + t)[1..] == name[1..] + "}" + t;
      TakeNameReadsToClosingBrace(name[1..], t);
      assert [name[0]] + name[1..] == name;
    }
  }

  /** A placeholder contributes exactly its name. */
  lemma PlaceholderIsOneField(name: string, t: string)
    requires NoBraces(name)
    ensures Fields(Placeholder(name) + t) == WithField(name, Fields(t))
  {
    var s := Placeholder(name) + t;
    assert s[1..] == name + "}" + t;
    TakeNameReadsToClosingBrace(name, t);
    if name == [] {
      assert s[1] == '}';
    } else {
      assert s[1] == name[0];
    }
  }

  /** The player's line and the DM's cue hold exactly the field "input". */
  lemma {:induction false} TurnLinesHaveOnlyInput(playerNick: string, dungeonMaster: string)
    requires NoBraces(playerNick) && NoBraces(dungeonMaster)
    ensures Fields(playerNick + ": " + Placeholder("input") + "\n" + dungeonMaster + ":") == Some({"input"})
  {
    var cue := "\n" + dungeonMaster + ":";
    var prefix := playerNick + ": ";
    assert playerNick + ": " + Placeholder("input") + "\n" + dungeonMaster + ":" == prefix + (Placeholder("input") + cue);
    assert NoBraces(cue) && NoBraces(prefix);
    PlainTextHasNoFields(cue, []);
    assert cue + [] == cue;
    assert Fields(cue) == Some({});
    PlaceholderIsOneField("input", cue);
    assert {"input"} + {} == {"input"};
    PlainTextHasNoFields(prefix, Placeholder("input") + cue);
  }

  /** The conversation part of the template adds the two memory fields to those of the turn lines. */
  lemma {:induction false} MemoryFieldsPrecedeTurn(preamble: string, turn: string)
    requires NoBraces(preamble)
    ensures Fields(preamble + Placeholder("long_term_memory") + "\n\nConversation:\n" + Placeholder("short_term_memory") + "\n" + turn)
      == WithField("long_term_memory", WithField("short_term_memory", Fields(turn)))
  {
    var t3 := Placeholder("short_term_memory") + ("\n" + turn);
    var t1 := Placeholder("long_term_memory") + ("\n\nConversation:\n" + t3);
    PlainTextHasNoFields("\n", turn);
    PlaceholderIsOneField("short_term_memory", "\n" + turn);
    PlainTextHasNoFields("\n\nConversation:\n", t3);
    PlaceholderIsOneField("long_term_memory", "\n\nConversation:\n" + t3);
    PlainTextHasNoFields(preamble, t1);
    assert preamble + Placeholder("long_term_memory") + "\n\nConversation:\n" + Placeholder("short_term_memory") + "\n" + turn
      == preamble + t1;
  }

  /**
    With a preamble, a nick and a DM name free of braces, the template's fields
    are exactly the declared input variables.
   */
  lemma TemplateFieldsAreInputVariables(preamble: string, playerNick: string, dungeonMaster: string)
    requires NoBraces(preamble) && NoBraces(playerNick) && NoBraces(dungeonMaster)
    ensures Fields(Template(preamble, playerNick, dungeonMaster)).Some?
    ensures forall v :: v in Fields(Template(preamble, playerNick, dungeonMaster)).value <==> v in PromptInputVariables
  {
    var turn := playerNick + ": " + Placeholder("input") + "\n" + dungeonMaster + ":";
    TurnLinesHaveOnlyInput(playerNick, dungeonMaster);
    MemoryFieldsPrecedeTurn(preamble, turn);
    assert Template(preamble, playerNick, dungeonMaster)
      == preamble + Placeholder("long_term_memory") + "\n\nConversation:\n" + Placeholder("short_term_memory") + "\n" + turn;
  }

  /** A nick written with braces is read as one more template field. */
  lemma BracedNickAddsField(preamble: string)
    requires NoBraces(preamble)
    ensures Fields(Template(preamble, "{x}", AiPrefix)) == Some({"long_term_memory", "short_term_memory", "x", "input"})
  {
    var turn := "{x}" + ": " + Placeholder("input") + "\n" + AiPrefix + ":";
    var rest := [] + ": " + Placeholder("input") + "\n" + AiPrefix + ":";
    TurnLinesHaveOnlyInput([], AiPrefix);
    assert "{x}" == Placeholder("x");
    assert turn == Placeholder("x") + rest;
    PlaceholderIsOneField("x", rest);
    assert Fields(turn) == Some({"x"} + {"input"});
    MemoryFieldsPrecedeTurn(preamble, turn);
    assert Template(preamble, "{x}", AiPrefix)
      == preamble + Placeholder("long_term_memory") + "\n\nConversation:\n" + Placeholder("short_term_memory") + "\n" + turn;
    assert {"long_term_memory"} + ({"short_term_memory"} + ({"x"} + {"input"}))
      == {"long_term_memory", "short_term_memory", "x", "input"};
  }

  /**
    Start-up: register the long-term and the short-term store, default the
    names, build the prompt and save the introduction into every store.
   */
  method StartSession(ghost log: CallLog, longTermAnswer: Mapping -> Mapping, shortTermAnswer: Mapping -> Mapping,
                      strippedName: string, strippedNick: string)
    returns (bioMemory: MultiModel, characterName: string, characterNick: string, prompt: string)
    modifies log
    ensures fresh(bioMemory) && bioMemory.Valid() && bioMemory.saveOnlyInput
    ensures |bioMemory.memories| == 2
    ensures bioMemory.memories[0].memoryVariables == ["long_term_memory"] && bioMemory.memories[0].answer == longTermAnswer
    ensures bioMemory.memories[1].memoryVariables == ["short_term_memory"] && bioMemory.memories[1].answer == shortTermAnswer
    ensures bioMemory.MemoryVariables() == ["long_term_memory", "short_term_memory"]
    ensures bioMemory.MemoryVariables() + [InputKey] == PromptInputVariables
    ensures (characterName, characterNick) == CharacterNames(strippedName, strippedNick)
    ensures prompt == FormatPrompt(characterNick, AiPrefix)
    ensures log.entries == old(log.entries) + Fanout(bioMemory.memories,
      SaveContextCall(map[InputKey := IntroIn(characterName, characterNick)],
                      map["output" := IntroOut(characterName, characterNick)]))
  {
    var longTerm := new MemoryStore(["long_term_memory"], longTermAnswer);
    var shortTerm := new MemoryStore(["short_term_memory"], shortTermAnswer);
    bioMemory := new MultiModel();
    var added := bioMemory.Add(longTerm);
    assert added.Pass?;
    added := bioMemory.Add(shortTerm);
    assert added.Pass?;
    var names := CharacterNames(strippedName, strippedNick);
    characterName, characterNick := names.0, names.1;
    prompt := FormatPrompt(characterNick, AiPrefix);
    var introIn := IntroIn(characterName, characterNick);
    var introOut := IntroOut(characterName, characterNick);
    var saved := bioMemory.SaveContext(log, map[InputKey := introIn], map["output" := introOut]);
    assert saved.Pass?;
    assert Forwarded(true, map[InputKey := introIn]) == map[InputKey := introIn];
  }
}
