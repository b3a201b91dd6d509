/** `ConversationMemory`: the Python agent's in-process store of message lists, one per user. */
module Memory {
  import opened Messages

  class ConversationMemory {
    /** `_storage`: user id to the list last saved for that user. */
    var storage: map<string, seq<Message>>

    constructor ()
      ensures storage == map[]
    {
      storage := map[];
    }

    /** `get_history`: the saved list, or `[]` for a user never saved or since cleared. */
    function GetHistory(userId: string): (r: seq<Message>)
      reads this
      ensures userId in storage ==> r == storage[userId]
      ensures userId !in storage ==> r == []
    {
      if userId in storage then storage[userId] else []
    }

    /** `save_history`: the list replaces whatever was saved before; nothing is appended,
        and no other user's history changes. */
    method SaveHistory(userId: string, messages: seq<Message>)
      modifies this
      ensures storage == old(storage)[userId := messages]
      ensures GetHistory(userId) == messages
      ensures forall u :: u != userId ==> GetHistory(u) == old(GetHistory(u))
    {
      storage := storage[userId := messages];
    }

    /** `clear_history`: forgets that user, a silent no-op for an unknown one. */
    method ClearHistory(userId: string)
      modifies this
      ensures storage == old(storage) - {userId}
      ensures GetHistory(userId) == []
      ensures userId !in old(storage) ==> storage == old(storage)
      ensures forall u :: u != userId ==> GetHistory(u) == old(GetHistory(u))
    {
      if userId in storage {
        storage := storage - {userId};
      }
    }
  }
}
