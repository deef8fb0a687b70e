/**
 * The outside world main.py talks to, reduced to logs: the Telegram bot API
 * (`send_message`, `delete_message`) and the Supabase `signal_requests` table.
 */
module Transport {
  import opened Screens

  /** What the bot asked Telegram to do. A delete is recorded whether or not it succeeds. */
  datatype Event =
    | Deleted(chatId: int, messageId: int)
    | Sent(chatId: int, messageId: int, body: Body, markup: Markup)

  class Gateway {
    var log: seq<Event>
    /** The message id Telegram assigns to the next message sent. */
    var nextMessageId: int

    constructor ()
      ensures log == [] && nextMessageId == 1
    {
      log, nextMessageId := [], 1;
    }

    /** `_delete_message_safe`: the attempt is recorded; a failure is ignored. */
    method DeleteMessage(chatId: int, messageId: int)
      modifies this
      ensures log == old(log) + [Deleted(chatId, messageId)]
      ensures nextMessageId == old(nextMessageId)
    {
      log := log + [Deleted(chatId, messageId)];
    }

    /** `bot.send_message`: the sent message and the id it was given. */
    method SendMessage(chatId: int, body: Body, markup: Markup) returns (messageId: int)
      modifies this
      ensures messageId == old(nextMessageId)
      ensures log == old(log) + [Sent(chatId, messageId, body, markup)]
      ensures nextMessageId == old(nextMessageId) + 1
    {
      messageId := nextMessageId;
      log := log + [Sent(chatId, messageId, body, markup)];
      nextMessageId := nextMessageId + 1;
    }
  }

  /** A row of `signal_requests`. */
  datatype SignalRequest = SignalRequest(userId: int, requestType: string, status: string)

  /** The Supabase client; `accepts` is false when `insert(...).execute()` raises. */
  class SignalSink {
    const accepts: bool
    var rows: seq<SignalRequest>

    constructor (accepts: bool)
      ensures this.accepts == accepts && rows == []
    {
      this.accepts := accepts;
      rows := [];
    }

    method Insert(r: SignalRequest) returns (ok: bool)
      modifies this
      ensures ok == accepts
      ensures rows == if accepts then old(rows) + [r] else old(rows)
    {
      ok := accepts;
      if accepts {
        rows := rows + [r];
      }
    }
  }
}
