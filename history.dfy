/**
 * The per-chat conversation history of main.py: a map from chat id to a
 * window of role-tagged turns, capped at MAX_HISTORY user/assistant pairs,
 * and the prompt that is assembled from it for every completion request.
 */
module History {
  import opened Basics

  datatype Role = System | User | Assistant

  /** One message of a conversation, as sent to the completion service. */
  datatype Turn = Turn(role: Role, content: string)

  /** One successful round trip: the user's text and the model's reply. */
  datatype Exchange = Exchange(user: string, reply: string)

  /** Number of user/assistant pairs kept per chat (main.py:25). */
  const MaxHistory: nat := 10

  /** Number of turns kept per chat. */
  const WindowCap: nat := 2 * MaxHistory

  /** The persona directive placed before every prompt (main.py:17-21). */
  const SystemPrompt: string :=
    "You are a helpful assistant named Sana.\n      You speak like a snarky anime girl.\n      Always refer to the user as \"karthick\"."

  // ---------------------------------------------------------------------
  // Windows
  // ---------------------------------------------------------------------

  /** Turns alternate user, assistant, user, ... starting with a user turn. */
  predicate Alternating(w: seq<Turn>)
  {
    forall i :: 0 <= i < |w| ==> w[i].role == (if i % 2 == 0 then User else Assistant)
  }

  /** What every stored window satisfies: bounded, whole pairs, alternating roles. */
  predicate WellFormedWindow(w: seq<Turn>)
  {
    |w| <= WindowCap && |w| % 2 == 0 && Alternating(w)
  }

  /** The turns of one exchange, in the order they are appended. */
  function Pair(e: Exchange): seq<Turn>
  {
    [Turn(User, e.user), Turn(Assistant, e.reply)]
  }

  /** All turns of a list of exchanges, oldest first. */
  function Flatten(es: seq<Exchange>): (r: seq<Turn>)
    ensures |r| == 2 * |es|
    ensures Alternating(r)
  {
    if es == [] then []
    else
      var rest := Flatten(es[1..]);
      var r := Pair(es[0]) + rest;
      assert forall i :: 2 <= i < |r| ==> r[i] == rest[i - 2];
      r
  }

  /**
   * The cap of main.py:70-72: a window longer than WindowCap keeps only its
   * last WindowCap turns.
   */
  function Trim(w: seq<Turn>): (r: seq<Turn>)
    ensures |r| == Min(|w|, WindowCap)
    ensures r == w[|w| - |r|..]
  {
    if |w| > WindowCap then w[|w| - WindowCap..] else w
  }

  /**
   * The window after one successful exchange (main.py:61-72): a user turn and
   * an assistant turn appended, then the oldest turns evicted.
   */
  function Record(w: seq<Turn>, text: string, reply: string): (r: seq<Turn>)
    ensures |r| == Min(|w| + 2, WindowCap)
    ensures |r| <= WindowCap
    ensures r == (w + [Turn(User, text), Turn(Assistant, reply)])[|w| + 2 - |r|..]
    ensures r[|r| - 2..] == [Turn(User, text), Turn(Assistant, reply)]
  {
    Trim(w + [Turn(User, text), Turn(Assistant, reply)])
  }

  /** Appending a pair to an alternating window of even length keeps it alternating. */
  lemma {:induction false} AppendPairAlternating(w: seq<Turn>, text: string, reply: string)
    requires |w| % 2 == 0 && Alternating(w)
    ensures Alternating(w + [Turn(User, text), Turn(Assistant, reply)])
  {
  }

  /** Dropping an even number of turns from the front keeps a window alternating. */
  lemma {:induction false} DropEvenAlternating(w: seq<Turn>, k: nat)
    requires Alternating(w) && k <= |w| && k % 2 == 0
    ensures Alternating(w[k..])
  {
  }

  /** Recording keeps a window well formed: trimming never splits a pair. */
  lemma {:induction false} RecordWellFormed(w: seq<Turn>, text: string, reply: string)
    requires WellFormedWindow(w)
    ensures WellFormedWindow(Record(w, text, reply))
  {
    var full := w + [Turn(User, text), Turn(Assistant, reply)];
    AppendPairAlternating(w, text, reply);
    var r := Record(w, text, reply);
    assert |r| % 2 == 0;
    assert r == full[|full| - |r|..];
    DropEvenAlternating(full, |full| - |r|);
    assert Alternating(r);
  }

  /**
   * The window of a chat that starts empty and then completes the exchanges
   * `es` in order (each one a call of Record).
   */
  function Replay(es: seq<Exchange>): seq<Turn>
  {
    if es == [] then []
    else
      var last := es[|es| - 1];
      Record(Replay(es[..|es| - 1]), last.user, last.reply)
  }

  /** The newest MaxHistory exchanges of `es` (all of them when there are fewer). */
  function Latest(es: seq<Exchange>): (r: seq<Exchange>)
    ensures |r| == Min(|es|, MaxHistory)
    ensures r == es[|es| - |r|..]
  {
    es[|es| - Min(|es|, MaxHistory)..]
  }

  lemma {:induction false} FlattenAppend(a: seq<Exchange>, e: Exchange)
    ensures Flatten(a + [e]) == Flatten(a) + Pair(e)
  {
    if a == [] {
      assert a + [e] == [e];
    } else {
      assert (a + [e])[1..] == a[1..] + [e];
      FlattenAppend(a[1..], e);
    }
  }

  lemma {:induction false} FlattenDropFirst(es: seq<Exchange>)
    requires es != []
    ensures Flatten(es)[2..] == Flatten(es[1..])
  {
  }

  /**
   * After any number of successful exchanges the window holds exactly the
   * turns of the newest MaxHistory exchanges, oldest first: eviction is FIFO
   * and only ever drops whole user/assistant pairs.
   */
  lemma {:induction false} ReplayKeepsLatest(es: seq<Exchange>)
    ensures Replay(es) == Flatten(Latest(es))
  {
    if es != [] {
      var n := |es| - 1;
      var prefix, last := es[..n], es[n];
      assert es == prefix + [last];
      ReplayKeepsLatest(prefix);
      var kept := Latest(prefix);
      FlattenAppend(kept, last);
      var grown := kept + [last];
      assert Replay(es) == Trim(Flatten(grown));
      if |grown| <= MaxHistory {
        assert Latest(es) == grown;
      } else {
        assert Latest(es) == grown[1..];
        FlattenDropFirst(grown);
      }
    }
  }

  /** The turns of at most MaxHistory exchanges form a well-formed window. */
  lemma {:induction false} FlattenWellFormed(es: seq<Exchange>)
    requires |es| <= MaxHistory
    ensures WellFormedWindow(Flatten(es))
  {
  }

  /** After N exchanges from empty the window has min(2N, 20) turns and is well formed (so even). */
  lemma {:induction false} ReplayLength(es: seq<Exchange>)
    ensures |Replay(es)| == Min(2 * |es|, WindowCap)
    ensures WellFormedWindow(Replay(es))
  {
    ReplayKeepsLatest(es);
    var kept := Latest(es);
    FlattenWellFormed(kept);
    assert |Flatten(kept)| == 2 * Min(|es|, MaxHistory);
  }

  /** Eleven exchanges: the window is the last ten; the first pair is gone. */
  lemma {:induction false} ElevenExchanges(es: seq<Exchange>)
    requires |es| == MaxHistory + 1
    ensures Replay(es) == Flatten(es[1..])
    ensures |Replay(es)| == WindowCap
  {
    ReplayKeepsLatest(es);
  }

  // ---------------------------------------------------------------------
  // The store, as a value
  // ---------------------------------------------------------------------

  /** Every window in the store is well formed. */
  predicate ValidHistory(h: map<int, seq<Turn>>)
  {
    forall c :: c in h ==> WellFormedWindow(h[c])
  }

  /** The stored window of a chat; a chat never seen has none (main.py:33). */
  function Window(h: map<int, seq<Turn>>, chat: int): (w: seq<Turn>)
    ensures chat !in h ==> w == []
    ensures chat in h ==> w == h[chat]
  {
    if chat in h then h[chat] else []
  }

  /** The system turn that opens every prompt. */
  function SystemTurn(): Turn { Turn(System, SystemPrompt) }

  /**
   * The message list handed to the completion service (main.py:28-44): the
   * system turn, the chat's stored turns in order, then the new user turn.
   */
  function Prompt(h: map<int, seq<Turn>>, chat: int, text: string): (p: seq<Turn>)
    ensures |p| == |Window(h, chat)| + 2
    ensures p[0] == SystemTurn()
    ensures p[|p| - 1] == Turn(User, text)
    ensures p[1..|p| - 1] == Window(h, chat)
  {
    [SystemTurn()] + Window(h, chat) + [Turn(User, text)]
  }

  /**
   * In a store whose windows are well formed, the prompt has exactly one
   * system turn, and it comes first; the turns after it alternate user and
   * assistant and end on the new user turn.
   */
  lemma {:induction false} PromptRoles(h: map<int, seq<Turn>>, chat: int, text: string)
    requires ValidHistory(h)
    ensures var p := Prompt(h, chat, text);
      p[0].role == System &&
      (forall i :: 1 <= i < |p| ==> p[i].role != System) &&
      Alternating(p[1..])
  {
  }

  /** The store after recording an exchange for `chat` (main.py:58-72). */
  function RecordIn(h: map<int, seq<Turn>>, chat: int, text: string, reply: string): (r: map<int, seq<Turn>>)
    ensures chat in r && r[chat] == Record(Window(h, chat), text, reply)
    ensures r.Keys == h.Keys + {chat}
    ensures forall c :: c in h && c != chat ==> r[c] == h[c]
  {
    h[chat := Record(Window(h, chat), text, reply)]
  }

  lemma {:induction false} RecordInValid(h: map<int, seq<Turn>>, chat: int, text: string, reply: string)
    requires ValidHistory(h)
    ensures ValidHistory(RecordIn(h, chat, text, reply))
  {
    RecordWellFormed(Window(h, chat), text, reply);
  }

  /**
   * The store after /clear (main.py:91-92): a known chat keeps its key with an
   * empty window, an unknown chat is not added.
   */
  function ClearIn(h: map<int, seq<Turn>>, chat: int): (r: map<int, seq<Turn>>)
    ensures chat in h ==> chat in r && r[chat] == []
    ensures chat !in h ==> r == h
    ensures r.Keys == h.Keys
    ensures forall c :: c in h && c != chat ==> r[c] == h[c]
  {
    if chat in h then h[chat := []] else h
  }

  // ---------------------------------------------------------------------
  // The store, as the mutable dictionary of main.py:24
  // ---------------------------------------------------------------------

  class HistoryStore {
    var history: map<int, seq<Turn>>

    ghost predicate Valid()
      reads this
    {
      ValidHistory(history)
    }

    /** The store starts with no chats (main.py:24). */
    constructor ()
      ensures Valid() && history == map[]
    {
      history := map[];
    }

    /**
     * Builds the message list of main.py:28-44 by appending to a list; only
     * reads the store.
     */
    method BuildMessages(chat: int, text: string) returns (messages: seq<Turn>)
      ensures messages == Prompt(history, chat, text)
    {
      messages := [SystemTurn()];
      if chat in history {
        var stored := history[chat];
        for i := 0 to |stored|
          invariant messages == [SystemTurn()] + stored[..i]
        {
          messages := messages + [Turn(stored[i].role, stored[i].content)];
        }
        assert stored[..|stored|] == stored;
      }
      messages := messages + [Turn(User, text)];
    }

    /**
     * Appends the user turn and the assistant turn to the chat's window,
     * creating it if needed, then trims it (main.py:58-72).
     */
    method RecordExchange(chat: int, text: string, reply: string)
      requires Valid()
      modifies this
      ensures Valid()
      ensures history == RecordIn(old(history), chat, text, reply)
      ensures forall c :: c != chat ==> Window(history, c) == Window(old(history), c)
    {
      RecordInValid(history, chat, text, reply);
      ghost var before := history;
      if chat !in history {
        history := history[chat := []];
      }
      var window := history[chat];
      assert window == Window(before, chat);
      window := window + [Turn(User, text)];
      window := window + [Turn(Assistant, reply)];
      assert window == Window(before, chat) + [Turn(User, text), Turn(Assistant, reply)];
      if |window| > WindowCap {
        window := window[|window| - WindowCap..];
      }
      assert window == Record(Window(before, chat), text, reply);
      history := history[chat := window];
      assert history == before[chat := window];
    }

    /**
     * ask_llm (main.py:27-74): builds the prompt, hands it to the completion
     * service `complete`, and records the exchange only when a reply came
     * back. A failed call leaves the store exactly as it was.
     */
    method AskLlm(text: string, chat: int, complete: seq<Turn> -> Option<string>)
      returns (reply: Option<string>)
      requires Valid()
      modifies this
      ensures Valid()
      ensures reply == complete(Prompt(old(history), chat, text))
      ensures reply.None? ==> history == old(history)
      ensures reply.Some? ==> history == RecordIn(old(history), chat, text, reply.value)
    {
      var messages := BuildMessages(chat, text);
      reply := complete(messages);
      if reply.Some? {
        RecordExchange(chat, text, reply.value);
      }
    }

    /**
     * The store update of clear_history (main.py:91-95); `cleared` tells
     * which of the two replies is sent.
     */
    method Clear(chat: int) returns (cleared: bool)
      requires Valid()
      modifies this
      ensures Valid()
      ensures cleared <==> chat in old(history)
      ensures history == ClearIn(old(history), chat)
    {
      cleared := chat in history;
      if cleared {
        history := history[chat := []];
      }
    }
  }
}
