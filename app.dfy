/** The application-wide history store: the list of saved conversations,
    loaded once from the browser's key/value storage and written back in
    full every time a conversation is added. */
module App {
  import opened Records

  /** The one storage key the history lives under. */
  const StorageKey: string := "soul_ai_chats"

  /** The browser's `localStorage`: string values under string keys. */
  class Storage {
    var items: map<string, string>

    constructor (items: map<string, string>)
      ensures this.items == items
    {
      this.items := items;
    }

    /** `getItem(key)`: the stored text, or null (None) when the key is absent. */
    function GetItem(key: string): (r: Option<string>)
      reads this
      ensures r.Some? <==> key in items
      ensures r.Some? ==> r.value == items[key]
    {
      if key in items then Some(items[key]) else None
    }

    /** `setItem(key, value)`: overwrites one key and no other. */
    method SetItem(key: string, value: string)
      modifies this
      ensures items == old(items)[key := value]
      ensures GetItem(key) == Some(value)
      ensures forall k :: k != key ==> GetItem(k) == old(GetItem(k))
    {
      items := items[key := value];
    }
  }

  /** What the history relies on from `JSON.stringify` and `JSON.parse`:
      the text of a list is never empty, and parsing it gives the list back. */
  ghost predicate RoundTrips(serialize: seq<ChatRecord> -> string,
                             parse: string -> Option<seq<ChatRecord>>)
  {
    forall chats :: serialize(chats) != "" && parse(serialize(chats)) == Some(chats)
  }

  /** The `savedChats` initializer: a missing value, an empty string (falsy)
      and a value that does not parse all give the empty history; `parse`
      answers None where `JSON.parse` throws. */
  function LoadHistory(saved: Option<string>, parse: string -> Option<seq<ChatRecord>>)
    : (chats: seq<ChatRecord>)
    ensures saved == None ==> chats == []
    ensures saved == Some("") ==> chats == []
    ensures saved.Some? && parse(saved.value) == None ==> chats == []
    ensures chats != [] ==> saved.Some? && parse(saved.value) == Some(chats)
    ensures saved.Some? && saved.value != "" && parse(saved.value).Some? ==> chats == parse(saved.value).value
  {
    match saved
    case None => []
    case Some(text) =>
      if text == "" then []
      else
        match parse(text)
        case None => []
        case Some(chats) => chats
  }

  /** Whatever list is written, loading it again gives the same list in the
      same order. */
  lemma LoadAfterSave(serialize: seq<ChatRecord> -> string,
                      parse: string -> Option<seq<ChatRecord>>, chats: seq<ChatRecord>)
    requires RoundTrips(serialize, parse)
    ensures LoadHistory(Some(serialize(chats)), parse) == chats
  {
    assert serialize(chats) != "" && parse(serialize(chats)) == Some(chats);
  }

  /** The `App` component's history state and its `addChat` function.
      `Valid` says that reloading the page would give back exactly the list
      held in memory. */
  class AppState {
    const store: Storage
    const serialize: seq<ChatRecord> -> string
    const parse: string -> Option<seq<ChatRecord>>
    var savedChats: seq<ChatRecord>

    ghost predicate Valid()
      reads this, store
    {
      && RoundTrips(serialize, parse)
      && LoadHistory(store.GetItem(StorageKey), parse) == savedChats
    }

    /** Loads the history once, from the single storage key. */
    constructor (store: Storage, serialize: seq<ChatRecord> -> string,
                 parse: string -> Option<seq<ChatRecord>>)
      requires RoundTrips(serialize, parse)
      ensures Valid()
      ensures this.store == store && this.serialize == serialize && this.parse == parse
      ensures savedChats == LoadHistory(store.GetItem(StorageKey), parse)
    {
      this.store := store;
      this.serialize := serialize;
      this.parse := parse;
      savedChats := LoadHistory(store.GetItem(StorageKey), parse);
    }

    /** `addChat`: the new record goes in front of every older one, and the
        whole new list is written back under the history key. */
    method AddChat(chatData: ChatRecord)
      requires Valid()
      modifies this, store
      ensures Valid()
      ensures savedChats == [chatData] + old(savedChats)
      ensures |savedChats| == |old(savedChats)| + 1
      ensures savedChats[0] == chatData && savedChats[1..] == old(savedChats)
      ensures store.items == old(store.items)[StorageKey := serialize(savedChats)]
    {
      var newChats := [chatData] + savedChats;
      store.SetItem(StorageKey, serialize(newChats));
      savedChats := newChats;
      LoadAfterSave(serialize, parse, newChats);
    }
  }
}
