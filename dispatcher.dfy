/**
 * The chat handlers of main.py that touch the history: the text-message
 * handler and the /clear command. Transport calls become return values.
 */
module Dispatcher {
  import opened Basics
  import opened History
  import opened Chunking

  /** What handle_message does with one incoming message. */
  datatype Outcome =
    | Ignored                          // no text: nothing is sent (main.py:103-104)
    | Replied(messages: seq<string>)   // the reply, split for the transport
    | ErrorNotice                      // the completion call failed (main.py:124-126)

  const ClearedReply: string := "Conversation history cleared! Starting fresh~"
  const NothingToClearReply: string := "There's no history to clear!"

  /**
   * handle_message (main.py:101-126): ignores a message without text;
   * otherwise asks the model, records the exchange on success, and sends the
   * reply in pieces the transport accepts. On failure the history is untouched.
   */
  method HandleMessage(store: HistoryStore, chat: int, text: string,
                       complete: seq<Turn> -> Option<string>)
    returns (outcome: Outcome)
    requires store.Valid()
    modifies store
    ensures store.Valid()
    ensures text == [] ==> outcome == Ignored && store.history == old(store.history)
    ensures text != [] ==>
      match complete(Prompt(old(store.history), chat, text))
      case None =>
        outcome == ErrorNotice && store.history == old(store.history)
      case Some(reply) =>
        outcome == Replied(Replies(reply)) &&
        store.history == RecordIn(old(store.history), chat, text, reply)
  {
    if text == [] {
      return Ignored;
    }
    var reply := store.AskLlm(text, chat, complete);
    match reply
    case None =>
      outcome := ErrorNotice;
    case Some(r) =>
      outcome := Replied(Replies(r));
  }

  /**
   * clear_history (main.py:88-95): empties a known chat's window and confirms,
   * or says there was nothing to clear and changes nothing.
   */
  method ClearHistory(store: HistoryStore, chat: int) returns (message: string)
    requires store.Valid()
    modifies store
    ensures store.Valid()
    ensures store.history == ClearIn(old(store.history), chat)
    ensures message == if chat in old(store.history) then ClearedReply else NothingToClearReply
  {
    var cleared := store.Clear(chat);
    message := if cleared then ClearedReply else NothingToClearReply;
  }
}
