/**
 * The two persistent tables of the bot (models.py). Each table is a map keyed
 * by the pair (user_id, chat_id): the `unique_together` constraint of both
 * tables becomes the fact that a map holds at most one value per key, and the
 * surrogate `id` primary key is not modelled.
 */
module Records {

  datatype Option<+T> = None | Some(value: T)

  /** The unique key of both tables: one user in one chat. */
  datatype ChatKey = ChatKey(userId: int, chatId: int)

  /**
   * A blacklist row. The names and the reason are nullable columns;
   * `createdAt` is filled in by the database when the row is inserted.
   */
  datatype BlacklistedUser = BlacklistedUser(
    username: Option<string>,
    firstName: Option<string>,
    lastName: Option<string>,
    reason: Option<string>,
    createdAt: int)

  /** A pending challenge: both columns are non-nullable. */
  datatype PendingVerification = PendingVerification(messageId: int, expiresAt: int)

  type Table<V> = map<ChatKey, V>

  /**
   * `Model.create`: inserts a row, or fails with an integrity error when a
   * row with the same (user_id, chat_id) already exists.
   */
  function Create<V>(t: Table<V>, k: ChatKey, row: V): (r: Option<Table<V>>)
    ensures r.None? <==> k in t
    ensures r.Some? ==> r.value.Keys == t.Keys + {k} && r.value[k] == row
    ensures r.Some? ==> forall k' :: k' in t ==> r.value[k'] == t[k']
  {
    if k in t then None else Some(t[k := row])
  }

  /** The keys of the rows that belong to one chat. */
  function RowsOfChat<V>(t: Table<V>, chatId: int): (keys: set<ChatKey>)
    ensures keys <= t.Keys
    ensures forall k :: k in t && k.chatId == chatId ==> k in keys
    ensures forall k :: k in keys ==> k.chatId == chatId
  {
    set k | k in t.Keys && k.chatId == chatId
  }

  /** `filter(chat_id=c).delete()`: removes every row of chat c and no other. */
  function DeleteChat<V>(t: Table<V>, chatId: int): (r: Table<V>)
    ensures r.Keys == t.Keys - RowsOfChat(t, chatId)
    ensures forall k :: k in r ==> r[k] == t[k]
  {
    map k | k in t.Keys && k.chatId != chatId :: t[k]
  }

  /**
   * Both tables key on the pair, so a user blacklisted in one chat can still be
   * blacklisted in another chat, and the first row is kept as it was.
   */
  lemma SameUserSeveralChats(t: Table<BlacklistedUser>, u: int, c1: int, c2: int, row: BlacklistedUser)
    requires c1 != c2 && ChatKey(u, c1) in t && ChatKey(u, c2) !in t
    ensures Create(t, ChatKey(u, c2), row).Some?
    ensures var t' := Create(t, ChatKey(u, c2), row).value;
      ChatKey(u, c1) in t' && t'[ChatKey(u, c1)] == t[ChatKey(u, c1)]
  {
  }

  /** Deleting one chat's rows leaves the other chats' row count intact. */
  lemma DeleteChatCount<V>(t: Table<V>, chatId: int)
    ensures |t.Keys| == |DeleteChat(t, chatId).Keys| + |RowsOfChat(t, chatId)|
  {
  }
}
