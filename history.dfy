/**
  The bounded chat history `ChatMessageHistoryBuffer` of memory.py, and the
  window of recent messages that `ConversationGraphMemory` renders into its
  extraction prompts.
 */
module History {
  import opened Results

  /** A chat message, tagged with who said it; its text is opaque here. */
  datatype Message = HumanMessage(content: string) | AIMessage(content: string)

  /** Python's `IndexError: pop from empty list`. */
  datatype HistoryError = PopFromEmptyList

  function Min(a: int, b: int): int { if a <= b then a else b }

  function Max(a: int, b: int): int { if a <= b then b else a }

  /** The last `n` elements of `s`, or all of `s` when it is shorter. */
  function Last<T>(s: seq<T>, n: nat): (r: seq<T>)
    ensures |r| == Min(n, |s|)
    ensures r == s[|s| - |r|..]
  {
    if n >= |s| then s else s[|s| - n..]
  }

  /** `allocate_memory`: drops the oldest message when the length equals `maxLen` exactly. */
  function Evict(messages: seq<Message>, maxLen: int): (r: Result<seq<Message>, HistoryError>)
    ensures r.Failure? <==> messages == [] && maxLen == 0
  {
    if |messages| == maxLen then
      if messages == [] then Failure(PopFromEmptyList) else Success(messages[1..])
    else
      Success(messages)
  }

  /** `add_user_message` / `add_ai_message`: evict, then append `m`. */
  function Push(messages: seq<Message>, maxLen: int, m: Message): (r: Result<seq<Message>, HistoryError>)
    ensures r.Failure? <==> messages == [] && maxLen == 0
  {
    match Evict(messages, maxLen)
    case Failure(e) => Failure(e)
    case Success(kept) => Success(kept + [m])
  }

  /** Pushes each of `ms` in turn, stopping at the first error. */
  function PushAll(messages: seq<Message>, maxLen: int, ms: seq<Message>): Result<seq<Message>, HistoryError>
    decreases |ms|
  {
    if ms == [] then Success(messages)
    else
      match Push(messages, maxLen, ms[0])
      case Failure(e) => Failure(e)
      case Success(next) => PushAll(next, maxLen, ms[1..])
  }

  /** Python's `s[start:]`, where a negative `start` counts from the end. */
  function SliceFrom<T>(s: seq<T>, start: int): (r: seq<T>)
  {
    var from := if start < 0 then Max(start + |s|, 0) else Min(start, |s|);
    s[from..]
  }

  /**
    `messages[-k * 2:]`: the last `2k` messages when `k` is positive; with
    `k == 0` the slice `[-0:]` is `[0:]`, the whole list; a negative `k` drops
    the first `-2k` messages instead.
   */
  function HistoryWindow(messages: seq<Message>, k: int): (window: seq<Message>)
    ensures k > 0 ==> window == Last(messages, 2 * k)
    ensures k == 0 ==> window == messages
    ensures k < 0 ==> window == messages[Min(-2 * k, |messages|)..]
  {
    SliceFrom(messages, -k * 2)
  }

  /** Below or at capacity, one push leaves exactly the last `maxLen` messages. */
  lemma PushKeepsLastMaxLen(messages: seq<Message>, maxLen: int, m: Message)
    requires 1 <= maxLen && |messages| <= maxLen
    ensures Push(messages, maxLen, m) == Success(Last(messages + [m], maxLen))
    ensures |Push(messages, maxLen, m).value| <= maxLen
  {
    if |messages| == maxLen {
      assert messages[1..] + [m] == (messages + [m])[1..];
    }
  }

  /** Above capacity nothing is evicted: the buffer only grows. */
  lemma OverfullBufferOnlyGrows(messages: seq<Message>, maxLen: int, m: Message)
    requires |messages| > maxLen
    ensures Push(messages, maxLen, m) == Success(messages + [m])
  {
  }

  lemma LastOfLastPlus<T>(s: seq<T>, t: seq<T>, n: nat)
    requires 1 <= n
    ensures Last(Last(s, n) + t, n) == Last(s + t, n)
  {
    var u := Last(s, n);
    var a := Last(u + t, n);
    var b := Last(s + t, n);
    assert |a| == |b|;
    forall i | 0 <= i < |a| ensures a[i] == b[i] {
      var j := |u + t| - |a| + i;
      var j' := |s + t| - |b| + i;
      if j < |u| {
        assert (u + t)[j] == u[j] == s[|s| - |u| + j];
        assert j' == |s| - |u| + j;
      } else {
        assert (u + t)[j] == t[j - |u|];
      }
    }
  }

  lemma LastOfLast<T>(s: seq<T>, a: nat, b: nat)
    ensures Last(Last(s, a), b) == Last(s, Min(a, b))
  {
  }

  /**
    Starting at or below capacity, after any run of pushes the buffer holds
    exactly the last `maxLen` of all messages it was given, oldest first.
   */
  lemma {:induction false} PushAllKeepsLastMaxLen(messages: seq<Message>, maxLen: int, ms: seq<Message>)
    requires 1 <= maxLen && |messages| <= maxLen
    ensures PushAll(messages, maxLen, ms) == Success(Last(messages + ms, maxLen))
    decreases |ms|
  {
    if ms != [] {
      PushKeepsLastMaxLen(messages, maxLen, ms[0]);
      var next := Last(messages + [ms[0]], maxLen);
      PushAllKeepsLastMaxLen(next, maxLen, ms[1..]);
      LastOfLastPlus(messages + [ms[0]], ms[1..], maxLen);
      assert messages + [ms[0]] + ms[1..] == messages + ms;
    } else {
      assert messages + ms == messages;
    }
  }

  /** Pushing `maxLen + 1` messages into an empty buffer forgets only the first. */
  lemma FirstMessageForgotten(maxLen: int, ms: seq<Message>)
    requires 1 <= maxLen && |ms| == maxLen + 1
    ensures PushAll([], maxLen, ms) == Success(ms[1..])
  {
    PushAllKeepsLastMaxLen([], maxLen, ms);
    assert [] + ms == ms;
  }

  /** With capacity zero the first push raises, as `[].pop(0)` does. */
  lemma ZeroCapacityRaises(m: Message)
    ensures Push([], 0, m) == Failure(PopFromEmptyList)
  {
  }

  /**
    The window over a buffer filled from empty holds the last `min(2k, maxLen)`
    messages ever pushed.
   */
  lemma WindowOverBuffer(maxLen: int, k: int, ms: seq<Message>)
    requires 1 <= maxLen && k > 0
    ensures PushAll([], maxLen, ms).Success?
    ensures HistoryWindow(PushAll([], maxLen, ms).value, k) == Last(ms, Min(2 * k, maxLen))
  {
    PushAllKeepsLastMaxLen([], maxLen, ms);
    assert [] + ms == ms;
    LastOfLast(ms, maxLen, 2 * k);
  }

  class ChatMessageHistoryBuffer {
    var messages: seq<Message>
    var maxLen: int

    constructor (maxLen: int := 6)
      ensures messages == [] && this.maxLen == maxLen
    {
      messages := [];
      this.maxLen := maxLen;
    }

    method AllocateMemory() returns (r: Outcome<HistoryError>)
      modifies this`messages
      ensures r.Pass? <==> Evict(old(messages), maxLen).Success?
      ensures r.Pass? ==> messages == Evict(old(messages), maxLen).value
      ensures r.Fail? ==> r.error == PopFromEmptyList && messages == old(messages)
    {
      if |messages| == maxLen {
        if messages == [] {
          return Fail(PopFromEmptyList);
        }
        messages := messages[1..];
      }
      return Pass;
    }

    method AddAiMessage(message: string) returns (r: Outcome<HistoryError>)
      modifies this`messages
      ensures r.Pass? <==> Push(old(messages), maxLen, AIMessage(message)).Success?
      ensures r.Pass? ==> messages == Push(old(messages), maxLen, AIMessage(message)).value
      ensures r.Fail? ==> messages == old(messages)
      ensures 1 <= maxLen && |old(messages)| <= maxLen ==> |messages| <= maxLen
    {
      r := AllocateMemory();
      if r.Pass? {
        messages := messages + [AIMessage(message)];
      }
    }

    method AddUserMessage(message: string) returns (r: Outcome<HistoryError>)
      modifies this`messages
      ensures r.Pass? <==> Push(old(messages), maxLen, HumanMessage(message)).Success?
      ensures r.Pass? ==> messages == Push(old(messages), maxLen, HumanMessage(message)).value
      ensures r.Fail? ==> messages == old(messages)
      ensures 1 <= maxLen && |old(messages)| <= maxLen ==> |messages| <= maxLen
    {
      r := AllocateMemory();
      if r.Pass? {
        messages := messages + [HumanMessage(message)];
      }
    }
  }
}
