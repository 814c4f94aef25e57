/** What the bot and the relay share about Telegram chats and usernames. */
module Chat {
  import opened Text

  /** What `get_chat` returns for a username. */
  datatype ChatInfo = ChatInfo(id: int, isPrivate: bool)

  /** `username.replace('@', '').lower()`, the cache key. */
  function Clean(username: string): string {
    Lower(RemoveChar(username, '@'))
  }
}
