/**
 * The client's ChatStore: a map of chats keyed by id that remembers the order
 * in which keys were first inserted (as a JavaScript `Map` does), the selected
 * chat id, and the list of messages of the open chat.
 */
module ChatStore {
  import opened Wrappers

  /** The client's message shape. */
  datatype ClientMessage = ClientMessage(id: string, chatId: string, senderId: string, content: string, createdAt: string, isRead: bool)

  /** The client's chat shape; `unread` may be missing. An id of "" stands for a falsy `_id`. */
  datatype ClientChat = ClientChat(
    id: string,
    name: string,
    participants: seq<string>,
    kind: string,
    lastMessage: Option<ClientMessage>,
    avatar: Option<string>,
    unread: Option<int>)

  /** The chats together with their keys in first-insertion order. */
  datatype Table = Table(chats: map<string, ClientChat>, order: seq<string>)

  /** The order lists each key exactly once, and no chat is ever stored under "". */
  ghost predicate WellFormed(t: Table) {
    && (forall i, j :: 0 <= i < j < |t.order| ==> t.order[i] != t.order[j])
    && (forall k :: k in t.chats <==> k in t.order)
    && "" !in t.chats
  }

  /** One step of `setChats`'s `forEach`: skip a chat with a falsy id, else `Map.set`. */
  function Put(t: Table, c: ClientChat): (r: Table)
    ensures WellFormed(t) ==> WellFormed(r)
    ensures |t.order| <= |r.order| && r.order[..|t.order|] == t.order
  {
    if c.id == "" then t
    else Table(t.chats[c.id := c], if c.id in t.chats then t.order else t.order + [c.id])
  }

  /** The table after `setChats(input)`, taking the chats in order. */
  function Merge(t: Table, input: seq<ClientChat>): (r: Table)
    ensures WellFormed(t) ==> WellFormed(r)
    decreases |input|
  {
    if input == [] then t else Put(Merge(t, input[..|input| - 1]), input[|input| - 1])
  }

  /** The last chat in `input` with id `k`, if any. */
  function LastWith(input: seq<ClientChat>, k: string): (r: Option<ClientChat>)
    ensures r.Some? ==> r.value in input && r.value.id == k
    ensures r.None? ==> forall i :: 0 <= i < |input| ==> input[i].id != k
    decreases |input|
  {
    if input == [] then None
    else if input[|input| - 1].id == k then Some(input[|input| - 1])
    else LastWith(input[..|input| - 1], k)
  }

  /** A chat with id `k` that no later input chat shares is the one `LastWith` finds. */
  lemma {:induction false} LastWithIsLast(input: seq<ClientChat>, k: string, i: int)
    requires 0 <= i < |input| && input[i].id == k
    requires forall j :: i < j < |input| ==> input[j].id != k
    ensures LastWith(input, k) == Some(input[i])
    decreases |input|
  {
    if i < |input| - 1 {
      var init := input[..|input| - 1];
      assert forall j :: i < j < |init| ==> init[j] == input[j];
      LastWithIsLast(init, k, i);
    }
  }

  /**
   * After a merge a key is present iff it was before or some input chat has it
   * (never ""), and its chat is the last input chat with that key, or the old
   * one when the input has none.
   */
  lemma {:induction false} MergeContents(t: Table, input: seq<ClientChat>, k: string)
    requires WellFormed(t)
    ensures k in Merge(t, input).chats <==> k in t.chats || (k != "" && LastWith(input, k).Some?)
    ensures k in Merge(t, input).chats && k != "" && LastWith(input, k).Some? ==> Merge(t, input).chats[k] == LastWith(input, k).value
    ensures k in t.chats && LastWith(input, k).None? ==> Merge(t, input).chats[k] == t.chats[k]
    decreases |input|
  {
    if input != [] {
      MergeContents(t, input[..|input| - 1], k);
    }
  }

  /** A merge never moves a key already in the map: the old order is a prefix of the new one. */
  lemma {:induction false} MergeKeepsOrder(t: Table, input: seq<ClientChat>)
    ensures |t.order| <= |Merge(t, input).order| && Merge(t, input).order[..|t.order|] == t.order
    decreases |input|
  {
    if input != [] {
      var mid := Merge(t, input[..|input| - 1]);
      MergeKeepsOrder(t, input[..|input| - 1]);
      assert Merge(t, input).order[..|mid.order|] == mid.order;
      assert Merge(t, input).order[..|t.order|] == mid.order[..|mid.order|][..|t.order|];
    }
  }

  /** `Array.from(chats.values())`: the chats in first-insertion order of their keys. */
  function ChatList(t: Table): (r: seq<ClientChat>)
    requires WellFormed(t)
    ensures |r| == |t.chats| && |r| == |t.order|
    ensures forall i :: 0 <= i < |r| ==> r[i] == t.chats[t.order[i]]
  {
    OrderCoversKeys(t);
    seq(|t.order|, i requires 0 <= i < |t.order| => t.chats[t.order[i]])
  }

  /** The number of keys is the length of the order. */
  lemma OrderCoversKeys(t: Table)
    requires WellFormed(t)
    ensures |t.chats| == |t.order|
  {
    var keys := set i | 0 <= i < |t.order| :: t.order[i];
    assert keys == t.chats.Keys;
    DistinctCardinality(t.order);
  }

  lemma {:induction false} DistinctCardinality(s: seq<string>)
    requires forall i, j :: 0 <= i < j < |s| ==> s[i] != s[j]
    ensures |set i | 0 <= i < |s| :: s[i]| == |s|
    decreases |s|
  {
    if s != [] {
      var init := s[..|s| - 1];
      DistinctCardinality(init);
      var a := set i | 0 <= i < |init| :: init[i];
      var b := set i | 0 <= i < |s| :: s[i];
      assert b == a + {s[|s| - 1]};
      assert s[|s| - 1] !in a;
    }
  }

  /** `chats.get(selectedChatId || "")`. */
  function SelectedChat(t: Table, selected: Option<string>): (r: Option<ClientChat>)
    requires WellFormed(t)
    ensures selected.None? ==> r.None?
    ensures r.Some? ==> selected.Some? && selected.value in t.chats && r.value == t.chats[selected.value]
    ensures selected.Some? && selected.value in t.chats ==> r == Some(t.chats[selected.value])
  {
    var key := if selected.None? || selected.value == "" then "" else selected.value;
    if key in t.chats then Some(t.chats[key]) else None
  }

  /** `(chat.unread || 0)`. */
  function UnreadOrZero(c: ClientChat): int {
    if c.unread.None? then 0 else c.unread.value
  }

  /** The store, with its fields as the class holds them. */
  class Store {
    var table: Table
    var selectedChatId: Option<string>
    var messages: seq<ClientMessage>

    ghost predicate Valid()
      reads this
    {
      WellFormed(table)
    }

    constructor ()
      ensures Valid() && table == Table(map[], []) && selectedChatId.None? && messages == []
    {
      table := Table(map[], []);
      selectedChatId := None;
      messages := [];
    }

    /** setChats: put every chat with an id into the map, in input order. */
    method SetChats(input: seq<ClientChat>)
      requires Valid()
      modifies this
      ensures Valid()
      ensures table == Merge(old(table), input)
      ensures selectedChatId == old(selectedChatId) && messages == old(messages)
    {
      var i := 0;
      while i < |input|
        invariant 0 <= i <= |input|
        invariant table == Merge(old(table), input[..i])
        invariant WellFormed(table)
        invariant selectedChatId == old(selectedChatId) && messages == old(messages)
      {
        var chat := input[i];
        if chat.id != "" {
          table := Table(table.chats[chat.id := chat], if chat.id in table.chats then table.order else table.order + [chat.id]);
        }
        assert input[..i + 1][..i] == input[..i];
        i := i + 1;
      }
      assert input[..|input|] == input;
    }

    /** selectChat: only the selected id changes. */
    method SelectChat(chatId: string)
      modifies this
      ensures selectedChatId == Some(chatId) && table == old(table) && messages == old(messages)
    {
      selectedChatId := Some(chatId);
    }

    /** addMessage: append at the end. */
    method AddMessage(m: ClientMessage)
      modifies this
      ensures messages == old(messages) + [m] && table == old(table) && selectedChatId == old(selectedChatId)
    {
      messages := messages + [m];
    }

    /** resetMessages: empty the list. */
    method ResetMessages()
      modifies this
      ensures messages == [] && table == old(table) && selectedChatId == old(selectedChatId)
    {
      messages := [];
    }

    /** updateLastMessage: set the chat's last message; an unknown id changes nothing. */
    method UpdateLastMessage(chatId: string, m: ClientMessage)
      requires Valid()
      modifies this
      ensures Valid() && table.order == old(table).order
      ensures chatId in old(table).chats ==> table.chats == old(table).chats[chatId := old(table).chats[chatId].(lastMessage := Some(m))]
      ensures chatId !in old(table).chats ==> table == old(table)
      ensures selectedChatId == old(selectedChatId) && messages == old(messages)
    {
      if chatId in table.chats {
        var chat := table.chats[chatId].(lastMessage := Some(m));
        table := Table(table.chats[chatId := chat], table.order);
      }
    }

    /** increaseUnreadMessage: one more unread message, counting a missing count as 0. */
    method IncreaseUnreadMessage(chatId: string)
      requires Valid()
      modifies this
      ensures Valid() && table.order == old(table).order
      ensures chatId in old(table).chats ==>
                table.chats == old(table).chats[chatId := old(table).chats[chatId].(unread := Some(UnreadOrZero(old(table).chats[chatId]) + 1))]
      ensures chatId !in old(table).chats ==> table == old(table)
      ensures selectedChatId == old(selectedChatId) && messages == old(messages)
    {
      if chatId in table.chats {
        var chat := table.chats[chatId];
        chat := chat.(unread := Some((if chat.unread.None? then 0 else chat.unread.value) + 1));
        table := Table(table.chats[chatId := chat], table.order);
      }
    }

    /** resetUnreadMessage: the count becomes 0; an unknown id changes nothing. */
    method ResetUnreadMessage(chatId: string)
      requires Valid()
      modifies this
      ensures Valid() && table.order == old(table).order
      ensures chatId in old(table).chats ==> table.chats == old(table).chats[chatId := old(table).chats[chatId].(unread := Some(0))]
      ensures chatId !in old(table).chats ==> table == old(table)
      ensures selectedChatId == old(selectedChatId) && messages == old(messages)
    {
      if chatId in table.chats {
        var chat := table.chats[chatId].(unread := Some(0));
        table := Table(table.chats[chatId := chat], table.order);
      }
    }
  }

  /** Merging chats that all lack an id changes nothing. */
  lemma {:induction false} MergeIdless(t: Table, input: seq<ClientChat>)
    requires forall i :: 0 <= i < |input| ==> input[i].id == ""
    ensures Merge(t, input) == t
    decreases |input|
  {
    if input != [] {
      MergeIdless(t, input[..|input| - 1]);
    }
  }
}
