# Mimir memory layer and command loop, modelled in Dafny

Mimir is a small "Dungeon Master" chat program. A player talks to a language model,
and the model's context is built from two memories: a short-term window of recent
turns and a long-term knowledge graph. The program's own logic is small:

- `MultiModel` (memory.py) composes child memory stores behind one memory interface.
  `add` registers a child unless one of its variable names is already registered.
  `memory_variables` lists the registered names. `load_memory_variables` merges the
  children's answers with last-write-wins. `save_context` forwards a turn to every
  child, optionally narrowed to its `"input"` entry. `clear` forwards a clear to
  every child.
- `ChatMessageHistoryBuffer` (memory.py) is a FIFO of chat messages. It drops the
  oldest message before an append when its length equals `max_len` exactly.
- `ConversationGraphMemory` (memory.py) renders the window `messages[-k * 2:]` into
  its extraction prompts (lines 95 and 107). Only that slice is modelled.
- run.py reads the character's name and nick, with defaults for empty answers. It
  builds the prompt template with `format_prompt` and registers two memories. Its
  loop then classifies each typed line as exit, command or conversational turn.

Files:

- `results.dfy`: module `Results`. `Result` and `Outcome` stand for Python
  exceptions (`KeyError`, `IndexError`); `Option` marks a malformed template in
  `Run.TakeName`/`Run.Fields`.
- `memory.dfy`: module `Memory`, the aggregator. Child stores are `MemoryStore`
  objects. Each store declares its variable names and answers a load with a fixed
  function of the inputs. Each save or clear call a store receives is appended to a
  ghost `CallLog`. The log therefore shows which store got which call, in which
  order, and how often.
- `history.dfy`: module `History`, the bounded buffer (a class over
  `seq<Message>`), its specification functions `Evict`/`Push`/`PushAll`, and the
  history window.
- `run.dfy`: module `Run`, the command table, the dispatch loop, name defaulting,
  the prompt template and start-up.

Notes on behaviour:

- Registration is atomic. `add` checks every declared name before it appends
  anything (memory.py:30-35), so a failed `add` leaves both lists unchanged.
- `memory_variables` is a plain copy, not a deduplicated union. A store that
  declares one name twice is accepted, and the registered names then hold a
  duplicate (`DuplicateWithinOneStoreIsAdmitted`). Uniqueness holds only when each
  store's own list is duplicate-free (`DisjointStoresGiveDistinctNames`).
- The buffer's capacity is not a hard ceiling. Eviction happens only when the
  length equals `max_len`. A longer list just grows (`OverfullBufferOnlyGrows`).
  With `max_len == 0` the first append pops from an empty list and raises
  `IndexError` (`ZeroCapacityRaises`).
- The nick is spliced into the template text unescaped. A nick such as `{x}`
  becomes one more template field next to the three declared input variables
  (`BracedNickAddsField`).

## Model

| member | source | states |
|---|---|---|
| Memory.MultiModel.constructor | memory.py:23-26 | a new aggregator has no stores and no names; `save_only_input` defaults to true |
| Memory.MultiModel.Add | memory.py:28-35 | fails exactly when some declared name is already registered, with the first such name in declaration order, and then changes nothing; on success appends the store and its names in order; keeps names duplicate-free when the store's own list is |
| Memory.MultiModel.MemoryVariables | memory.py:37-43 | the registered names are the concatenation of the registered stores' names, in registration order |
| Memory.MultiModel.LoadMemoryVariables | memory.py:45-49 | the result is the left-to-right dict update of every store's answer to the same inputs, in registration order |
| Memory.MultiModel.SaveContext | memory.py:51-55 | with `save_only_input` and no "input" key: `KeyError` before any store is called; otherwise every store receives one save call, in registration order, with the narrowed (or unchanged) inputs and the unchanged outputs |
| Memory.MultiModel.Clear | memory.py:57-59 | every store receives one clear call, in registration order |
| Memory.NarrowToInput | memory.py:52-53 | fails with `KeyError("input")` exactly when "input" is missing; otherwise keeps only the "input" entry, with its value |
| Memory.MemoryStore.LoadMemoryVariables | memory.py:48 | a store answers a load with its answer to the given inputs |
| Memory.MemoryStore.SaveContext | memory.py:55 | a store records the save call it received, with its arguments |
| Memory.MemoryStore.Clear | memory.py:59 | a store records the clear call it received |
| Memory.RegistrationKeepsNamesDistinct | memory.py:30-35 | appending an admissible duplicate-free list to a duplicate-free list keeps it duplicate-free |
| Memory.DuplicateWithinOneStoreIsAdmitted | memory.py:30-35 | for any registered names, a store that declares one name twice and passes the check leaves the registered names not distinct |
| Memory.DisjointStoresGiveDistinctNames | memory.py:28-35 | stores with duplicate-free, pairwise disjoint names give duplicate-free registered names |
| Memory.FanoutReachesEachStoreOnce | memory.py:54-59 | the fan-out has one delivery per store, the i-th to the i-th store; none for zero stores |
| Memory.MergeKeysAreUnion | memory.py:46-49 | a key is in the merged mapping iff some store's answer holds it |
| Memory.MergeLastWriteWins | memory.py:46-49 | on a shared key the merged value is that of the last store whose answer holds it |
| Memory.LoadedKeysAreStoresKeys | memory.py:45-49 | a key is loaded exactly when some registered store's answer to the inputs holds it |
| Memory.LoadedValueIsLastStores | memory.py:45-49 | on a key several stores answer with, the loaded value is that of the last registered store holding it |
| Memory.NoStoresLoadNothing | memory.py:46-49 | with no stores the load result is empty |
| History.Evict | memory.py:65-67 | fails (pop from an empty list) exactly when the list is empty and `max_len` is 0 |
| History.Push | memory.py:69-75 | an append fails exactly when the list is empty and `max_len` is 0 |
| History.HistoryWindow | memory.py:95 | the last `2k` messages for positive `k`; the whole list for `k == 0`; for negative `k` the list without its first `-2k` messages |
| History.PushKeepsLastMaxLen | memory.py:65-75 | at or below capacity, one append leaves exactly the last `max_len` messages, so the length stays within `max_len` |
| History.OverfullBufferOnlyGrows | memory.py:66-67 | above capacity nothing is evicted and the message is appended |
| History.PushAllKeepsLastMaxLen | memory.py:62-75 | starting at or below capacity, any run of appends leaves exactly the last `max_len` of all messages, oldest first |
| History.FirstMessageForgotten | memory.py:62-75 | `max_len + 1` appends to an empty buffer leave all messages but the first |
| History.ZeroCapacityRaises | memory.py:66-67 | with `max_len == 0` the first append raises |
| History.WindowOverBuffer | memory.py:93-98 | the window over a buffer filled from empty is the last `min(2k, max_len)` messages pushed |
| History.ChatMessageHistoryBuffer.constructor | memory.py:62-63 | an empty buffer; `max_len` defaults to 6 |
| History.ChatMessageHistoryBuffer.AllocateMemory | memory.py:65-67 | the new list is `Evict` of the old one; on the error the list is unchanged |
| History.ChatMessageHistoryBuffer.AddAiMessage | memory.py:69-71 | the new list is `Push` of the old one with an AI message; within capacity it stays within capacity |
| History.ChatMessageHistoryBuffer.AddUserMessage | memory.py:73-75 | the new list is `Push` of the old one with a human message; within capacity it stays within capacity |
| Run.Classify | run.py:115-125 | quit iff the line is one of `:q`, `quit`, `exit`; otherwise the table entry iff the line is a key, never the table's `exit`; otherwise a conversational turn with the line itself |
| Run.ReadEvalLoop | run.py:118-125 | the decisions taken are those for the lines before the first exit condition; the loop stops right after that line, or at end of input when there is none |
| Run.TableExitIsNeverRun | run.py:112-121 | no decision taken by the loop is to quit or to run the table's `exit` entry |
| Run.StepsFollowLines | run.py:118-125 | each line before the first exit condition yields its own decision, in order |
| Run.StepsStopAtFirstExit | run.py:118-121 | one decision per line up to the first exit condition and none after it: the number of decisions is the index of that line, or the number of lines when there is none |
| Run.ExitWordsQuit | run.py:104-115 | `:q`, `quit` and `exit` quit; `quit` and `exit` are not table keys; `:q` is, mapped to `exit` |
| Run.MatchingIsExact | run.py:104-122 | every table key gives its handler; `:M`, ` :m` and `QUIT` are conversational turns |
| Run.CharacterNames | run.py:48-51 | an empty name becomes "Player", an empty nick becomes the name, non-empty answers are kept, neither result is empty |
| Run.FormatPrompt | run.py:14-28 | the prompt's last two lines are `<nick>: {input}` and `<dm>:` |
| Run.PlaceholderIsOneField | run.py:23-27 | a doubled-brace placeholder in the f-string is one template field with that name |
| Run.TurnLinesHaveOnlyInput | run.py:27-28 | the player's line and the DM's cue hold exactly the field `input` |
| Run.MemoryFieldsPrecedeTurn | run.py:22-26 | the context and conversation sections add exactly the fields `long_term_memory` and `short_term_memory` |
| Run.TemplateFieldsAreInputVariables | run.py:53-56 | with brace-free text, nick and DM name, the template's fields are exactly the declared input variables |
| Run.BracedNickAddsField | run.py:27 | a nick written `{x}` adds the field `x` to the template |
| Run.StartSession | run.py:42-73 | registering the two memories succeeds with names `long_term_memory`, `short_term_memory`; these plus `input` are the prompt's input variables; exactly two stores are registered, the long-term one first, each with its own answer; the introduction is saved once into each of the two, in order |

## Left out

- The language-model clients, `ConversationChain`, `PromptTemplate`, `LLMChain` and the cached chains (run.py:33-36, 53-63; memory.py:85-91) are network calls and library behaviour. The template's field syntax is modelled by `Run.Fields`, a reading of Python's `str.format` braces.
- `Run.Fields` takes a field's whole text as its name. Conversions (`!r`) and format specs (`:>10`) are not split off. A `{` inside a field makes it reject the template (None), whereas `str.format` accepts a nested field in a format spec such as `{a:{b}}`.
- `get_current_entities` and `get_knowledge_triplets` past the slice (`get_buffer_string`, the extraction chains, `get_entities`, `parse_triples`), and the knowledge graph (memory.py:93-117) are library calls. Only the window slice is modelled.
- Console and file I/O are not modelled: `input()`, `print`, `pprint`, `print_memory`, `save_memory`, `print_help` (run.py:75-101, 117). The loop reads a given sequence of lines. End of input, which raises `EOFError` in Python, ends the loop with `quit` false.
- Run.ReadEvalLoop: assumes every conversational turn and every command returns. In the program an exception from `conversation.predict` (run.py:125) or from a command, such as a write error in `save_memory` (run.py:87-90), ends the `while True` loop and the program; the model has no such exit.
- Python's `str.strip` is not modelled. `Run.CharacterNames` takes the already stripped answers.
- `Run.TemplateFieldsAreInputVariables` is stated for any brace-free preamble. It is not proved for the concrete fixed text of `format_prompt` (run.py:15-22), because reasoning over that long literal is beyond the verifier's budget. That text holds no braces.
- The assignments of `human_prefix` and `ai_prefix` to the short-term memory (run.py:65-66) set fields of a library object and are not modelled.
- Memory.MultiModel.SaveContext, Memory.MultiModel.Clear and Memory.MultiModel.LoadMemoryVariables assume every child returns. In Python the loops at memory.py:47-48, 54-55 and 58-59 have no `try`: a child that raises stops the loop after the earlier children were already called, with nothing rolled back (for instance, a failing language-model call in the knowledge-graph store's save leaves the short-term store unsaved). The model has no such partial fan-out.
- A child store's own behaviour is not modelled. Its load answer is a fixed function of the inputs and does not change after saves or clears. Saves and clears are only recorded.
- Pydantic `Field`/`Config` machinery (memory.py:24-26, 79-83) is not modelled. An aggregator created with pre-filled lists is not modelled either. `save_only_input` is never reassigned, so it is a constant.
- keywords.py and topic.py are not part of this model. They are TF-IDF, TextRank and LDA pipelines from external libraries with floating-point scores.
