/** What the three scripts share about their calls to the Telegram Bot API. */
module Telegram {
  import opened Text

  /** TELEGRAM_BOT_TOKEN and TELEGRAM_CHAT_ID as os.environ.get() gives them. */
  datatype Credentials = Credentials(token: Option<string>, chatId: Option<string>)

  /** The guard `not token or not chat_id` lets the send through: both are
      set and neither is the empty string. */
  predicate Configured(c: Credentials) {
    c.token.Some? && c.token.value != "" && c.chatId.Some? && c.chatId.value != ""
  }
}
