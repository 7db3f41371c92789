/**
 * The client chat store: the visible message list with its optimistic send,
 * confirm-by-id and rollback-by-id edits, the push-event filter, the selected
 * conversation, the fetched contact and chat lists and the sound setting.
 */
module ChatStore {
  import opened Domain

  /** A message as the client holds it; `isOptimistic` marks a pending local record. */
  datatype ClientMessage = ClientMessage(
    id: string,
    senderId: string,
    receiverId: string,
    text: Option<string>,
    image: Option<string>,
    createdAt: string,
    isOptimistic: bool)

  datatype Tab = Chats | Contacts

  /** A `newMessage` listener: the partner and the sound setting it captured when it was registered. */
  datatype MessageHandler = MessageHandler(partnerId: string, soundEnabled: bool)

  predicate HasId(msgs: seq<ClientMessage>, id: string)
  {
    exists i :: 0 <= i < |msgs| && msgs[i].id == id
  }

  /** Decimal digits of a natural number, most significant first. */
  function Decimal(n: nat): (s: string)
    ensures |s| >= 1
    ensures forall i :: 0 <= i < |s| ==> '0' <= s[i] <= '9'
    decreases n
  {
    var d := [(48 + n % 10) as char];
    if n < 10 then d else Decimal(n / 10) + d
  }

  /** `temp-${Date.now()}`: the temporary id of an optimistic record. */
  function TempId(clock: nat): string
  {
    "temp-" + Decimal(clock)
  }

  /** Different numbers have different decimal renderings. */
  lemma {:induction false} DecimalInjective(a: nat, b: nat)
    requires Decimal(a) == Decimal(b)
    ensures a == b
    decreases a
  {
    var da, db := Decimal(a), Decimal(b);
    assert da[|da| - 1] == (48 + a % 10) as char;
    assert db[|db| - 1] == (48 + b % 10) as char;
    if a < 10 || b < 10 {
      assert |da| == 1 && |db| == 1;
      assert a < 10 && b < 10;
    } else {
      assert Decimal(a / 10) == da[..|da| - 1] == db[..|db| - 1] == Decimal(b / 10);
      DecimalInjective(a / 10, b / 10);
    }
  }

  /** Two sends at different clock readings get different temporary ids. */
  lemma TempIdInjective(c1: nat, c2: nat)
    requires c1 != c2
    ensures TempId(c1) != TempId(c2)
  {
    if TempId(c1) == TempId(c2) {
      assert Decimal(c1) == TempId(c1)[5..] == TempId(c2)[5..] == Decimal(c2);
      DecimalInjective(c1, c2);
    }
  }

  /** The optimistic record appended before the send request goes out. */
  function Optimistic(me: PublicUser, partner: PublicUser, data: Payload, tempId: string, createdAt: string): ClientMessage
  {
    ClientMessage(tempId, me.id, partner.id, data.text, data.image, createdAt, true)
  }

  /** `messages.map(msg => msg._id === id ? r : msg)`: every entry with the id becomes `r`, in place. */
  function ReplaceById(msgs: seq<ClientMessage>, id: string, r: ClientMessage): (out: seq<ClientMessage>)
    ensures |out| == |msgs|
    ensures forall i :: 0 <= i < |msgs| && msgs[i].id == id ==> out[i] == r
    ensures forall i :: 0 <= i < |msgs| && msgs[i].id != id ==> out[i] == msgs[i]
    ensures r.id != id ==> !HasId(out, id)
  {
    if msgs == [] then []
    else [if msgs[0].id == id then r else msgs[0]] + ReplaceById(msgs[1..], id, r)
  }

  /** `messages.filter(msg => msg._id !== id)`: drops exactly the entries with the id. */
  function RemoveById(msgs: seq<ClientMessage>, id: string): (out: seq<ClientMessage>)
    ensures |out| <= |msgs|
    ensures !HasId(out, id)
    ensures forall m :: m in out <==> m in msgs && m.id != id
  {
    if msgs == [] then []
    else if msgs[0].id == id then RemoveById(msgs[1..], id)
    else [msgs[0]] + RemoveById(msgs[1..], id)
  }

  /** Filtering distributes over concatenation, so the kept entries stay in their relative order. */
  lemma {:induction false} RemoveByIdAppend(a: seq<ClientMessage>, b: seq<ClientMessage>, id: string)
    ensures RemoveById(a + b, id) == RemoveById(a, id) + RemoveById(b, id)
  {
    if a == [] {
      assert a + b == b;
    } else {
      assert (a + b)[1..] == a[1..] + b;
      RemoveByIdAppend(a[1..], b, id);
    }
  }

  /** A list with no entry carrying the id is left as it is. */
  lemma {:induction false} RemoveByIdAbsent(msgs: seq<ClientMessage>, id: string)
    requires !HasId(msgs, id)
    ensures RemoveById(msgs, id) == msgs
  {
    if msgs != [] {
      assert msgs[0].id != id;
      assert !HasId(msgs[1..], id) by {
        forall i | 0 <= i < |msgs[1..]| ensures msgs[1..][i].id != id {
          assert msgs[1..][i] == msgs[i + 1];
        }
      }
      RemoveByIdAbsent(msgs[1..], id);
      assert msgs == [msgs[0]] + msgs[1..];
    }
  }

  /** Append-then-rollback of a fresh temporary id restores the original list. */
  lemma RollbackUndoesAppend(msgs: seq<ClientMessage>, opt: ClientMessage)
    requires !HasId(msgs, opt.id)
    ensures RemoveById(msgs + [opt], opt.id) == msgs
  {
    RemoveByIdAppend(msgs, [opt], opt.id);
    RemoveByIdAbsent(msgs, opt.id);
    assert RemoveById([opt], opt.id) == [];
  }

  /** Append-then-confirm of a fresh temporary id puts the server record exactly where the optimistic one was. */
  lemma ConfirmReplacesAppended(msgs: seq<ClientMessage>, opt: ClientMessage, server: ClientMessage)
    requires !HasId(msgs, opt.id)
    ensures ReplaceById(msgs + [opt], opt.id, server) == msgs + [server]
  {
    var out := ReplaceById(msgs + [opt], opt.id, server);
    forall i | 0 <= i < |msgs|
      ensures out[i] == msgs[i]
    {
      assert (msgs + [opt])[i] == msgs[i];
    }
    assert out[|msgs|] == server;
  }

  /** `JSON.stringify` of the sound setting, as written to local storage. */
  function SoundJson(b: bool): string
  {
    if b then "true" else "false"
  }

  /**
   * The initial sound setting: `JSON.parse(stored || "true")`, falling back to
   * true when parsing fails. Only the two boolean literals are read as JSON.
   */
  function InitialSoundSetting(stored: Option<string>): (enabled: bool)
    ensures forall b :: stored == Some(SoundJson(b)) ==> enabled == b
    ensures !Truthy(stored) ==> enabled
  {
    if !Truthy(stored) then true
    else if stored.value == "false" then false
    else true
  }

  class Store {
    var allContacts: seq<PublicUser>
    var chats: seq<PublicUser>
    var messages: seq<ClientMessage>
    var activeTab: Tab
    var selectedUser: Option<PublicUser>
    var isUsersLoading: bool
    var isMessagesLoading: bool
    var isSoundEnabled: bool
    /** The `isSoundEnabled` entry of local storage. */
    var storedSound: Option<string>
    /** The `newMessage` listeners on the auth store's socket. */
    var handlers: seq<MessageHandler>

    /** Every subscribe first removes the previous listener, so at most one is ever registered. */
    ghost predicate Valid()
      reads this
    {
      |handlers| <= 1
    }

    constructor (stored: Option<string>)
      ensures Valid()
      ensures allContacts == [] && chats == [] && messages == []
      ensures activeTab == Chats && selectedUser == None
      ensures !isUsersLoading && !isMessagesLoading
      ensures isSoundEnabled == InitialSoundSetting(stored) && storedSound == stored
      ensures handlers == []
    {
      allContacts, chats, messages := [], [], [];
      activeTab, selectedUser := Chats, None;
      isUsersLoading, isMessagesLoading := false, false;
      isSoundEnabled, storedSound := InitialSoundSetting(stored), stored;
      handlers := [];
    }

    /** Flips the setting and persists it, so a reload reads back the new value. */
    method ToggleSound()
      modifies this`isSoundEnabled, this`storedSound
      ensures isSoundEnabled == !old(isSoundEnabled)
      ensures storedSound == Some(SoundJson(isSoundEnabled))
      ensures InitialSoundSetting(storedSound) == isSoundEnabled
    {
      var next := !isSoundEnabled;
      storedSound := Some(SoundJson(next));
      isSoundEnabled := next;
    }

    method SetActiveTab(tab: Tab)
      modifies this`activeTab
      ensures activeTab == tab
    {
      activeTab := tab;
    }

    /** Selecting a conversation (or none) always empties the visible list. */
    method SetSelectedUser(user: Option<PublicUser>)
      modifies this`selectedUser, this`messages
      ensures selectedUser == user && messages == []
    {
      selectedUser, messages := user, [];
    }

    /** The contacts fetch; `response` is None when the request fails. */
    method GetAllContacts(response: Option<seq<PublicUser>>)
      modifies this`allContacts, this`isUsersLoading
      ensures allContacts == if response.Some? then response.value else old(allContacts)
      ensures !isUsersLoading
    {
      isUsersLoading := true;
      if response.Some? {
        allContacts := response.value;
      }
      isUsersLoading := false;
    }

    /** The chat-partner fetch; `response` is None when the request fails. */
    method GetMyChatPartners(response: Option<seq<PublicUser>>)
      modifies this`chats, this`isUsersLoading
      ensures chats == if response.Some? then response.value else old(chats)
      ensures !isUsersLoading
    {
      isUsersLoading := true;
      if response.Some? {
        chats := response.value;
      }
      isUsersLoading := false;
    }

    /** The history fetch: a failure keeps the list already shown. */
    method GetMessagesByUserId(response: Option<seq<ClientMessage>>)
      modifies this`messages, this`isMessagesLoading
      ensures messages == if response.Some? then response.value else old(messages)
      ensures !isMessagesLoading
    {
      isMessagesLoading := true;
      if response.Some? {
        messages := response.value;
      }
      isMessagesLoading := false;
    }

    /**
     * The synchronous first half of a send: with a selected partner and a
     * logged-in user, append one optimistic record stamped with the temporary id.
     */
    method BeginSend(authUser: Option<PublicUser>, data: Payload, clock: nat, createdAt: string)
      returns (started: bool, tempId: string)
      modifies this`messages
      ensures tempId == TempId(clock)
      ensures started <==> selectedUser.Some? && authUser.Some?
      ensures !started ==> messages == old(messages)
      ensures started ==> messages == old(messages) + [Optimistic(authUser.value, selectedUser.value, data, tempId, createdAt)]
    {
      tempId := TempId(clock);
      if selectedUser.None? || authUser.None? {
        return false, tempId;
      }
      var optimistic := Optimistic(authUser.value, selectedUser.value, data, tempId, createdAt);
      messages := messages + [optimistic];
      started := true;
    }

    /** The request succeeded: the record with the temporary id becomes the server's record. */
    method ConfirmSend(tempId: string, server: ClientMessage)
      modifies this`messages
      ensures messages == ReplaceById(old(messages), tempId, server)
    {
      messages := ReplaceById(messages, tempId, server);
    }

    /** The request failed: the record with the temporary id is dropped. */
    method RollbackSend(tempId: string)
      modifies this`messages
      ensures messages == RemoveById(old(messages), tempId)
    {
      messages := RemoveById(messages, tempId);
    }

    /**
     * A whole send, run to completion: the optimistic append, then the
     * confirmation (`reply` is the server's record) or the rollback (`reply` is None).
     */
    method SendMessage(authUser: Option<PublicUser>, data: Payload, clock: nat, createdAt: string, reply: Option<ClientMessage>)
      modifies this`messages
      ensures selectedUser.None? || authUser.None? ==> messages == old(messages)
      ensures selectedUser.Some? && authUser.Some? && !HasId(old(messages), TempId(clock)) ==>
        messages == if reply.Some? then old(messages) + [reply.value] else old(messages)
    {
      var started, tempId := BeginSend(authUser, data, clock, createdAt);
      if !started {
        return;
      }
      ghost var opt := Optimistic(authUser.value, selectedUser.value, data, tempId, createdAt);
      if reply.Some? {
        ConfirmSend(tempId, reply.value);
        if !HasId(old(messages), tempId) {
          ConfirmReplacesAppended(old(messages), opt, reply.value);
        }
      } else {
        RollbackSend(tempId);
        if !HasId(old(messages), tempId) {
          RollbackUndoesAppend(old(messages), opt);
        }
      }
    }

    /** `subscribeToMessages`: replace any listener by one bound to the selected partner. */
    method Subscribe(hasSocket: bool)
      requires Valid()
      modifies this`handlers
      ensures Valid()
      ensures selectedUser.None? || !hasSocket ==> handlers == old(handlers)
      ensures selectedUser.Some? && hasSocket ==> handlers == [MessageHandler(selectedUser.value.id, isSoundEnabled)]
    {
      if selectedUser.None? || !hasSocket {
        return;
      }
      handlers := [];
      handlers := handlers + [MessageHandler(selectedUser.value.id, isSoundEnabled)];
    }

    /** `unsubscribeFromMessages`. */
    method Unsubscribe(hasSocket: bool)
      requires Valid()
      modifies this`handlers
      ensures Valid()
      ensures handlers == if hasSocket then [] else old(handlers)
    {
      if hasSocket {
        handlers := [];
      }
    }

    /**
     * A `newMessage` push reaching the registered listener: a message from
     * anyone but the partner it was bound to is dropped, otherwise it is
     * appended; `playSound` says whether the notification sound starts.
     */
    method OnNewMessage(m: ClientMessage) returns (playSound: bool)
      requires Valid()
      modifies this`messages
      ensures handlers == [] || m.senderId != handlers[0].partnerId ==> messages == old(messages) && !playSound
      ensures handlers != [] && m.senderId == handlers[0].partnerId ==>
        messages == old(messages) + [m] && playSound == handlers[0].soundEnabled
    {
      playSound := false;
      if handlers == [] {
        return;
      }
      var h := handlers[0];
      if m.senderId != h.partnerId {
        return;
      }
      messages := messages + [m];
      playSound := h.soundEnabled;
    }
  }
}
