/**
  The memory aggregator `MultiModel` of memory.py: several child memory stores
  presented as one store. Children are registered one at a time; their declared
  variable names are merged, and load, save and clear are fanned out to them in
  registration order.
 */
module Memory {
  import opened Results

  /** A Python `dict[str, str]` of inputs or outputs of one conversational turn. */
  type Mapping = map<string, string>

  /** The key `save_context` keeps when only the input is to be saved. */
  const InputKey: string := "input"

  /** The errors this layer raises (both are `KeyError` in Python). */
  datatype MemoryError =
    | NameConflict(variable: string)  // a declared variable name is already registered
    | MissingKey(key: string)         // `inputs["input"]` on a mapping without that key

  /** A call a child store receives from the aggregator. */
  datatype Call = SaveContextCall(inputs: Mapping, outputs: Mapping) | ClearCall

  /** One call as received by one store. */
  datatype Delivery = Delivery(store: MemoryStore, call: Call)

  /**
    A ghost observer: every store appends each save or clear call it receives
    here, in the order it receives them.
   */
  class CallLog {
    ghost var entries: seq<Delivery>

    constructor ()
      ensures entries == []
    {
      entries := [];
    }
  }

  /**
    A child memory store, seen only through the interface the aggregator uses:
    the variable names it declares, the mapping it answers a load with, and the
    save and clear calls it accepts. What a store does with those calls is its
    own business; here it only records them.
   */
  class MemoryStore {
    const memoryVariables: seq<string>
    const answer: Mapping -> Mapping

    constructor (memoryVariables: seq<string>, answer: Mapping -> Mapping)
      ensures this.memoryVariables == memoryVariables && this.answer == answer
    {
      this.memoryVariables := memoryVariables;
      this.answer := answer;
    }

    method LoadMemoryVariables(inputs: Mapping) returns (loaded: Mapping)
      ensures loaded == answer(inputs)
    {
      loaded := answer(inputs);
    }

    method SaveContext(ghost log: CallLog, inputs: Mapping, outputs: Mapping)
      modifies log
      ensures log.entries == old(log.entries) + [Delivery(this, SaveContextCall(inputs, outputs))]
    {
      log.entries := log.entries + [Delivery(this, SaveContextCall(inputs, outputs))];
    }

    method Clear(ghost log: CallLog)
      modifies log
      ensures log.entries == old(log.entries) + [Delivery(this, ClearCall)]
    {
      log.entries := log.entries + [Delivery(this, ClearCall)];
    }
  }

  /** The variable names of the stores `ms`, concatenated in registration order. */
  ghost function Declared(ms: seq<MemoryStore>): seq<string>
  {
    if ms == [] then [] else Declared(ms[..|ms| - 1]) + ms[|ms| - 1].memoryVariables
  }

  /** What each of the stores `ms` answers a load of `inputs` with, in order. */
  ghost function Answers(ms: seq<MemoryStore>, inputs: Mapping): (r: seq<Mapping>)
    ensures |r| == |ms|
    ensures forall i :: 0 <= i < |ms| ==> r[i] == ms[i].answer(inputs)
  {
    if ms == [] then [] else Answers(ms[..|ms| - 1], inputs) + [ms[|ms| - 1].answer(inputs)]
  }

  /** The calls `c` delivered to each of `ms`, one each, in order. */
  ghost function Fanout(ms: seq<MemoryStore>, c: Call): (r: seq<Delivery>)
  {
    if ms == [] then [] else Fanout(ms[..|ms| - 1], c) + [Delivery(ms[|ms| - 1], c)]
  }

  /** Python's left-to-right `dict.update` of an empty dict with each of `ds`. */
  function Merge(ds: seq<Mapping>): Mapping
  {
    if ds == [] then map[] else Merge(ds[..|ds| - 1]) + ds[|ds| - 1]
  }

  ghost predicate Distinct(s: seq<string>)
  {
    forall i, j :: 0 <= i < j < |s| ==> s[i] != s[j]
  }

  /** No name in `declared` is among the `registered` ones: the test `add` makes. */
  ghost predicate Admissible(registered: seq<string>, declared: seq<string>)
  {
    forall n :: n in declared ==> n !in registered
  }

  /** `name` is the first of `declared`, in order, that is already registered. */
  ghost predicate IsFirstConflict(registered: seq<string>, declared: seq<string>, name: string)
  {
    exists j :: 0 <= j < |declared| && declared[j] == name && name in registered &&
      forall j' :: 0 <= j' < j ==> declared[j'] !in registered
  }

  /**
    `save_context`'s narrowing of the inputs: a mapping holding only the "input"
    entry of `inputs`, or `KeyError` when there is none.
   */
  function NarrowToInput(inputs: Mapping): (r: Result<Mapping, MemoryError>)
    ensures r.Success? <==> InputKey in inputs
    ensures r.Failure? ==> r.error == MissingKey(InputKey)
    ensures r.Success? ==> r.value.Keys == {InputKey} && r.value[InputKey] == inputs[InputKey]
  {
    if InputKey in inputs then Success(map[InputKey := inputs[InputKey]]) else Failure(MissingKey(InputKey))
  }

  /** The inputs every child receives from `save_context`, when that call succeeds. */
  function Forwarded(saveOnlyInput: bool, inputs: Mapping): Mapping
    requires saveOnlyInput ==> InputKey in inputs
  {
    if saveOnlyInput then NarrowToInput(inputs).value else inputs
  }

  class MultiModel {
    var memories: seq<MemoryStore>
    var memoryVariables: seq<string>
    const saveOnlyInput: bool

    /** The registered names are those the registered stores declare, in order. */
    ghost predicate Valid()
      reads this
    {
      memoryVariables == Declared(memories)
    }

    constructor (saveOnlyInput: bool := true)
      ensures Valid() && memories == [] && memoryVariables == []
      ensures this.saveOnlyInput == saveOnlyInput
    {
      memories := [];
      memoryVariables := [];
      this.saveOnlyInput := saveOnlyInput;
    }

    /**
      Registers `memory`. Every declared name is checked before anything
      changes, so a conflict leaves the aggregator as it was.
     */
    method Add(memory: MemoryStore) returns (r: Outcome<MemoryError>)
      requires Valid()
      modifies this
      ensures Valid()
      ensures r.Pass? <==> Admissible(old(memoryVariables), memory.memoryVariables)
      ensures r.Fail? ==>
        r.error.NameConflict? && IsFirstConflict(old(memoryVariables), memory.memoryVariables, r.error.variable)
      ensures r.Fail? ==> memories == old(memories) && memoryVariables == old(memoryVariables)
      ensures r.Pass? ==> memories == old(memories) + [memory]
      ensures r.Pass? ==> memoryVariables == old(memoryVariables) + memory.memoryVariables
      ensures r.Pass? && Distinct(old(memoryVariables)) && Distinct(memory.memoryVariables) ==>
        Distinct(memoryVariables)
    {
      for i := 0 to |memory.memoryVariables|
        invariant forall j :: 0 <= j < i ==> memory.memoryVariables[j] !in memoryVariables
      {
        var variableName := memory.memoryVariables[i];
        if variableName in memoryVariables {
          return Fail(NameConflict(variableName));
        }
      }
      RegistrationKeepsNamesDistinct(memoryVariables, memory.memoryVariables);
      memories := memories + [memory];
      memoryVariables := memoryVariables + memory.memoryVariables;
      assert memories[..|memories| - 1] == old(memories);
      return Pass;
    }

    /** The `memory_variables` property: the registered names, as a fresh list. */
    function MemoryVariables(): (names: seq<string>)
      reads this
      requires Valid()
      ensures names == Declared(memories)
    {
      memoryVariables
    }

    /** Merges what every store answers, in registration order; the last answer for a key wins. */
    method LoadMemoryVariables(inputs: Mapping) returns (memorized: Mapping)
      requires Valid()
      ensures memorized == Merge(Answers(memories, inputs))
    {
      memorized := map[];
      for i := 0 to |memories|
        invariant memorized == Merge(Answers(memories[..i], inputs))
      {
        var loaded := memories[i].LoadMemoryVariables(inputs);
        memorized := memorized + loaded;
        assert memories[..i + 1][..i] == memories[..i];
      }
      assert memories[..|memories|] == memories;
    }

    /**
      Forwards one turn to every store in registration order. With
      `saveOnlyInput` the inputs are first narrowed to their "input" entry,
      which fails before any store is called when that entry is missing.
     */
    method SaveContext(ghost log: CallLog, inputs: Mapping, outputs: Mapping) returns (r: Outcome<MemoryError>)
      requires Valid()
      modifies log
      ensures r.Fail? <==> saveOnlyInput && InputKey !in inputs
      ensures r.Fail? ==> r.error == MissingKey(InputKey) && log.entries == old(log.entries)
      ensures r.Pass? ==>
        log.entries == old(log.entries) + Fanout(memories, SaveContextCall(Forwarded(saveOnlyInput, inputs), outputs))
    {
      var forwarded := inputs;
      if saveOnlyInput {
        var narrowed := NarrowToInput(inputs);
        if narrowed.Failure? {
          return Fail(narrowed.error);
        }
        forwarded := narrowed.value;
      }
      for i := 0 to |memories|
        invariant log.entries == old(log.entries) + Fanout(memories[..i], SaveContextCall(forwarded, outputs))
      {
        memories[i].SaveContext(log, forwarded, outputs);
        assert memories[..i + 1][..i] == memories[..i];
      }
      assert memories[..|memories|] == memories;
      return Pass;
    }

    /** Forwards a clear to every store in registration order. */
    method Clear(ghost log: CallLog)
      requires Valid()
      modifies log
      ensures log.entries == old(log.entries) + Fanout(memories, ClearCall)
    {
      for i := 0 to |memories|
        invariant log.entries == old(log.entries) + Fanout(memories[..i], ClearCall)
      {
        memories[i].Clear(log);
        assert memories[..i + 1][..i] == memories[..i];
      }
      assert memories[..|memories|] == memories;
    }
  }

  /** Appending an admissible, duplicate-free list to a duplicate-free list keeps it duplicate-free. */
  lemma RegistrationKeepsNamesDistinct(registered: seq<string>, declared: seq<string>)
    requires Admissible(registered, declared)
    ensures Distinct(registered) && Distinct(declared) ==> Distinct(registered + declared)
  {
    if Distinct(registered) && Distinct(declared) {
      var all := registered + declared;
      forall i, j | 0 <= i < j < |all| ensures all[i] != all[j] {
        if i < |registered| <= j {
          assert all[j] == declared[j - |registered|];
          assert all[j] in declared;
        }
      }
    }
  }

  /**
    `add` compares a store's names only against names registered before it,
    so a store declaring a name twice is admitted and the registered names
    are then no longer distinct, whatever was registered before.
   */
  lemma DuplicateWithinOneStoreIsAdmitted(registered: seq<string>, declared: seq<string>)
    requires Admissible(registered, declared) && !Distinct(declared)
    ensures !Distinct(registered + declared)
  {
    var i, j :| 0 <= i < j < |declared| && declared[i] == declared[j];
    var all := registered + declared;
    assert all[|registered| + i] == declared[i] && all[|registered| + j] == declared[j];
  }

  /** With duplicate-free stores whose names are pairwise disjoint, all registered names are distinct. */
  lemma {:induction false} DisjointStoresGiveDistinctNames(ms: seq<MemoryStore>)
    requires forall i :: 0 <= i < |ms| ==> Distinct(ms[i].memoryVariables)
    requires forall i, j :: 0 <= i < j < |ms| ==> Admissible(ms[i].memoryVariables, ms[j].memoryVariables)
    ensures Distinct(Declared(ms))
  {
    if ms != [] {
      var front := ms[..|ms| - 1];
      DisjointStoresGiveDistinctNames(front);
      var last := ms[|ms| - 1].memoryVariables;
      forall n | n in last ensures n !in Declared(front) {
        forall i | 0 <= i < |front| ensures n !in front[i].memoryVariables {
          assert Admissible(ms[i].memoryVariables, last);
        }
        UndeclaredByAll(front, n);
      }
      RegistrationKeepsNamesDistinct(Declared(front), last);
    }
  }

  /** A name no registered store declares is not registered. */
  lemma {:induction false} UndeclaredByAll(ms: seq<MemoryStore>, n: string)
    requires forall i :: 0 <= i < |ms| ==> n !in ms[i].memoryVariables
    ensures n !in Declared(ms)
  {
    if ms != [] {
      UndeclaredByAll(ms[..|ms| - 1], n);
    }
  }

  /** The fan-out reaches each store once, in registration order, and nothing else. */
  lemma {:induction false} FanoutReachesEachStoreOnce(ms: seq<MemoryStore>, c: Call)
    ensures |Fanout(ms, c)| == |ms|
    ensures forall i :: 0 <= i < |ms| ==> Fanout(ms, c)[i] == Delivery(ms[i], c)
  {
    if ms != [] {
      FanoutReachesEachStoreOnce(ms[..|ms| - 1], c);
    }
  }

  /** A key is in the merge exactly when some merged mapping holds it. */
  lemma {:induction false} MergeKeysAreUnion(ds: seq<Mapping>, k: string)
    ensures k in Merge(ds) <==> exists i :: 0 <= i < |ds| && k in ds[i]
  {
    if ds != [] {
      var front := ds[..|ds| - 1];
      MergeKeysAreUnion(front, k);
      if k in Merge(front) {
        var i :| 0 <= i < |front| && k in front[i];
        assert ds[i] == front[i];
      }
      if exists i :: 0 <= i < |ds| && k in ds[i] {
        var i :| 0 <= i < |ds| && k in ds[i];
        if i < |front| {
          assert front[i] == ds[i];
        }
      }
    }
  }

  /** On a key several mappings hold, the merge keeps the value of the last of them. */
  lemma {:induction false} MergeLastWriteWins(ds: seq<Mapping>, i: nat, k: string)
    requires i < |ds| && k in ds[i]
    requires forall j :: i < j < |ds| ==> k !in ds[j]
    ensures k in Merge(ds) && Merge(ds)[k] == ds[i][k]
  {
    var front := ds[..|ds| - 1];
    if i < |ds| - 1 {
      forall j | i < j < |front| ensures k !in front[j] {
        assert front[j] == ds[j];
      }
      MergeLastWriteWins(front, i, k);
    }
  }

  /** A key is loaded exactly when some registered store answers with it. */
  lemma LoadedKeysAreStoresKeys(ms: seq<MemoryStore>, inputs: Mapping, k: string)
    ensures k in Merge(Answers(ms, inputs)) <==> exists i :: 0 <= i < |ms| && k in ms[i].answer(inputs)
  {
    MergeKeysAreUnion(Answers(ms, inputs), k);
  }

  /** On a key several stores answer with, the load keeps the answer of the last of them. */
  lemma LoadedValueIsLastStores(ms: seq<MemoryStore>, inputs: Mapping, i: nat, k: string)
    requires i < |ms| && k in ms[i].answer(inputs)
    requires forall j :: i < j < |ms| ==> k !in ms[j].answer(inputs)
    ensures k in Merge(Answers(ms, inputs)) && Merge(Answers(ms, inputs))[k] == ms[i].answer(inputs)[k]
  {
    MergeLastWriteWins(Answers(ms, inputs), i, k);
  }

  /** Loading from an aggregator with no stores gives an empty mapping. */
  lemma NoStoresLoadNothing(inputs: Mapping)
    ensures Merge(Answers([], inputs)) == map[]
  {
  }
}
