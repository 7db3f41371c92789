/**
 * The message controller over an in-memory store: the contact list, one
 * conversation in time order, the caller's chat partners, and the send
 * handler's chain of checks ending in one append.
 */
module MessageController {
  import opened Domain

  /** A persisted message; `createdAt` is the store's timestamp as a number. */
  datatype StoredMessage = StoredMessage(
    id: string,
    senderId: string,
    receiverId: string,
    text: Option<string>,
    image: Option<string>,
    createdAt: int)

  /** An HTTP reply: a status with a JSON body, or a status with `{ message }`. */
  datatype Response<T> = Ok(status: int, body: T) | Error(status: int, message: string)

  const UnauthorizedMessage := "Unauthorized: User not found"
  const ChatIdRequiredMessage := "Bad request: chat user ID is required"
  const ContentRequiredMessage := "Text or image is required."
  const SelfMessageMessage := "Cannot send messages to yourself."
  const ReceiverNotFoundMessage := "Receiver not found."
  const InternalErrorMessage := "Internal server error"

  // ---------------------------------------------------------------- contacts

  /** Every user but `me`, in store order, with the password stripped. */
  function OthersOf(users: seq<User>, me: string): (cs: seq<PublicUser>)
    ensures |cs| <= |users|
    ensures forall c :: c in cs ==> c.id != me && exists u :: u in users && c == Sanitize(u)
    ensures forall u :: u in users && u.id != me ==> Sanitize(u) in cs
  {
    if users == [] then []
    else if users[0].id == me then OthersOf(users[1..], me)
    else [Sanitize(users[0])] + OthersOf(users[1..], me)
  }

  /** `GET /contacts`; `storeFault` stands for a query that throws. */
  function GetAllContacts(users: seq<User>, caller: Option<string>, storeFault: bool): (r: Response<seq<PublicUser>>)
    ensures !Truthy(caller) ==> r == Error(401, UnauthorizedMessage)
    ensures Truthy(caller) && storeFault ==> r == Error(500, InternalErrorMessage)
    ensures Truthy(caller) && !storeFault ==>
      (r.Ok? && r.status == 200 &&
       forall c :: c in r.body <==> c.id != caller.value && exists u :: u in users && c == Sanitize(u))
  {
    if !Truthy(caller) then Error(401, UnauthorizedMessage)
    else if storeFault then Error(500, InternalErrorMessage)
    else Ok(200, OthersOf(users, caller.value))
  }

  // ------------------------------------------------------------ conversation

  /** `{sender, receiver}` is the unordered pair `{a, b}`. */
  predicate InPair(m: StoredMessage, a: string, b: string)
  {
    (m.senderId == a && m.receiverId == b) || (m.senderId == b && m.receiverId == a)
  }

  /** The messages of one conversation, in store order, each as often as it is stored. */
  function FilterPair(msgs: seq<StoredMessage>, a: string, b: string): (r: seq<StoredMessage>)
    ensures forall m :: multiset(r)[m] == if InPair(m, a, b) then multiset(msgs)[m] else 0
  {
    if msgs == [] then []
    else
      assert msgs == [msgs[0]] + msgs[1..];
      if InPair(msgs[0], a, b) then [msgs[0]] + FilterPair(msgs[1..], a, b)
      else FilterPair(msgs[1..], a, b)
  }

  lemma {:induction false} FilterPairSymmetric(msgs: seq<StoredMessage>, a: string, b: string)
    ensures FilterPair(msgs, a, b) == FilterPair(msgs, b, a)
  {
    if msgs != [] {
      FilterPairSymmetric(msgs[1..], a, b);
    }
  }

  ghost predicate SortedByTime(s: seq<StoredMessage>)
  {
    forall i, j :: 0 <= i < j < |s| ==> s[i].createdAt <= s[j].createdAt
  }

  /** Inserts `m` after every entry that is not later than it, so equal times keep their order. */
  function Insert(m: StoredMessage, s: seq<StoredMessage>): (r: seq<StoredMessage>)
    requires SortedByTime(s)
    ensures SortedByTime(r)
    ensures multiset(r) == multiset(s) + multiset{m}
    ensures forall x :: x in r ==> x == m || x in s
  {
    if s == [] then [m]
    else if m.createdAt < s[0].createdAt then [m] + s
    else
      var rest := Insert(m, s[1..]);
      assert s == [s[0]] + s[1..];
      assert forall x :: x in rest ==> s[0].createdAt <= x.createdAt;
      [s[0]] + rest
  }

  /** `.sort({ createdAt: 1 })`, ties in store order. */
  function SortByTime(s: seq<StoredMessage>): (r: seq<StoredMessage>)
    ensures SortedByTime(r)
    ensures multiset(r) == multiset(s)
  {
    if s == [] then []
    else
      assert s == s[..|s| - 1] + [s[|s| - 1]];
      Insert(s[|s| - 1], SortByTime(s[..|s| - 1]))
  }

  /** The conversation between `a` and `b`, oldest first. */
  function Conversation(msgs: seq<StoredMessage>, a: string, b: string): (r: seq<StoredMessage>)
    ensures SortedByTime(r)
    ensures forall m :: multiset(r)[m] == if InPair(m, a, b) then multiset(msgs)[m] else 0
    ensures forall m :: m in r <==> m in msgs && InPair(m, a, b)
  {
    var all := FilterPair(msgs, a, b);
    var r := SortByTime(all);
    assert forall m :: m in r <==> m in multiset(r);
    r
  }

  /** Either party asking gets the same messages in the same order. */
  lemma ConversationSymmetric(msgs: seq<StoredMessage>, a: string, b: string)
    ensures Conversation(msgs, a, b) == Conversation(msgs, b, a)
  {
    FilterPairSymmetric(msgs, a, b);
  }

  /** `GET /:id`. */
  function GetMessagesByUserId(msgs: seq<StoredMessage>, caller: Option<string>, other: Option<string>, storeFault: bool)
    : (r: Response<seq<StoredMessage>>)
    ensures !Truthy(caller) ==> r == Error(401, UnauthorizedMessage)
    ensures Truthy(caller) && !Truthy(other) ==> r == Error(400, ChatIdRequiredMessage)
    ensures Truthy(caller) && Truthy(other) && storeFault ==> r == Error(500, InternalErrorMessage)
    ensures Truthy(caller) && Truthy(other) && !storeFault ==>
      r.Ok? && r.status == 200 && SortedByTime(r.body) &&
      r.body == Conversation(msgs, caller.value, other.value) &&
      (forall m :: multiset(r.body)[m] == if InPair(m, caller.value, other.value) then multiset(msgs)[m] else 0)
  {
    if !Truthy(caller) then Error(401, UnauthorizedMessage)
    else if !Truthy(other) then Error(400, ChatIdRequiredMessage)
    else if storeFault then Error(500, InternalErrorMessage)
    else Ok(200, Conversation(msgs, caller.value, other.value))
  }

  // ----------------------------------------------------------- chat partners

  predicate Involves(m: StoredMessage, me: string)
  {
    m.senderId == me || m.receiverId == me
  }

  /** The party of `m` that is not `me` (the receiver when `me` sent it). */
  function OtherSide(m: StoredMessage, me: string): string
  {
    if m.senderId == me then m.receiverId else m.senderId
  }

  ghost predicate IsPartner(msgs: seq<StoredMessage>, me: string, x: string)
  {
    exists m :: m in msgs && Involves(m, me) && OtherSide(m, me) == x
  }

  /** The other side of every message involving `me`, in store order, with repeats. */
  function OtherSides(msgs: seq<StoredMessage>, me: string): (r: seq<string>)
    ensures forall x :: x in r <==> IsPartner(msgs, me, x)
  {
    if msgs == [] then []
    else
      var rest := OtherSides(msgs[1..], me);
      assert forall m :: m in msgs[1..] ==> m in msgs;
      assert forall m :: m in msgs ==> m == msgs[0] || m in msgs[1..];
      if Involves(msgs[0], me) then [OtherSide(msgs[0], me)] + rest else rest
  }

  /** `Array.from(new Set(s))`: first occurrences, in order. */
  function Dedupe(s: seq<string>): (r: seq<string>)
    ensures Distinct(r)
    ensures forall x :: x in r <==> x in s
  {
    if s == [] then []
    else
      var init := s[..|s| - 1];
      var d := Dedupe(init);
      assert s == init + [s[|s| - 1]];
      if s[|s| - 1] in d then d else d + [s[|s| - 1]]
  }

  /** The distinct ids of everyone `me` has exchanged a message with. */
  function PartnerIds(msgs: seq<StoredMessage>, me: string): (ids: seq<string>)
    ensures Distinct(ids)
    ensures forall x :: x in ids <==> IsPartner(msgs, me, x)
  {
    Dedupe(OtherSides(msgs, me))
  }

  predicate DistinctIds(ps: seq<PublicUser>)
  {
    forall i, j :: 0 <= i < j < |ps| ==> ps[i].id != ps[j].id
  }

  /** `User.find({ _id: { $in: ids } })`: the users with a listed id, in store order. */
  function UsersWithIds(users: seq<User>, ids: seq<string>): (r: seq<PublicUser>)
    ensures forall p :: p in r ==> p.id in ids && exists u :: u in users && p == Sanitize(u)
    ensures forall u :: u in users && u.id in ids ==> Sanitize(u) in r
    ensures UniqueIds(users) ==> DistinctIds(r)
  {
    if users == [] then []
    else
      var rest := UsersWithIds(users[1..], ids);
      assert forall u :: u in users[1..] ==> u in users;
      assert UniqueIds(users) ==> UniqueIds(users[1..]) && forall u :: u in users[1..] ==> u.id != users[0].id;
      if users[0].id in ids then [Sanitize(users[0])] + rest else rest
  }

  /** `GET /chats`. */
  function GetChatPartners(users: seq<User>, msgs: seq<StoredMessage>, caller: Option<string>, storeFault: bool)
    : (r: Response<seq<PublicUser>>)
    ensures !Truthy(caller) ==> r == Error(401, UnauthorizedMessage)
    ensures Truthy(caller) && storeFault ==> r == Error(500, InternalErrorMessage)
    ensures Truthy(caller) && !storeFault ==>
      (r.Ok? && r.status == 200 &&
       forall p :: p in r.body ==> exists u :: u in users && p == Sanitize(u) && IsPartner(msgs, caller.value, u.id))
    ensures Truthy(caller) && !storeFault ==>
      (forall u :: u in users && IsPartner(msgs, caller.value, u.id) ==> Sanitize(u) in r.body)
    ensures Truthy(caller) && !storeFault && UniqueIds(users) ==> DistinctIds(r.body)
  {
    if !Truthy(caller) then Error(401, UnauthorizedMessage)
    else if storeFault then Error(500, InternalErrorMessage)
    else Ok(200, UsersWithIds(users, PartnerIds(msgs, caller.value)))
  }

  // -------------------------------------------------------------------- send

  datatype Rejection = Rejection(status: int, message: string)

  predicate ReceiverExists(users: seq<User>, receiver: Option<string>)
  {
    receiver.Some? && exists u :: u in users && u.id == receiver.value
  }

  /**
   * The send handler's checks in their order: caller (401), content (400),
   * self-addressed (400), receiver lookup (500 if the store throws, else 404).
   * None means the message may be created.
   */
  function SendRejection(sender: Option<string>, receiver: Option<string>, data: Payload, users: seq<User>, storeFault: bool)
    : (r: Option<Rejection>)
    ensures !Truthy(sender) ==> r == Some(Rejection(401, UnauthorizedMessage))
    ensures Truthy(sender) && !HasContent(data) ==> r == Some(Rejection(400, ContentRequiredMessage))
    ensures Truthy(sender) && HasContent(data) && receiver == sender ==> r == Some(Rejection(400, SelfMessageMessage))
    ensures Truthy(sender) && HasContent(data) && receiver != sender && storeFault ==>
      r == Some(Rejection(500, InternalErrorMessage))
    ensures Truthy(sender) && HasContent(data) && receiver != sender && !storeFault && !ReceiverExists(users, receiver) ==>
      r == Some(Rejection(404, ReceiverNotFoundMessage))
    ensures r.None? <==> Truthy(sender) && HasContent(data) && receiver != sender && !storeFault && ReceiverExists(users, receiver)
  {
    if !Truthy(sender) then Some(Rejection(401, UnauthorizedMessage))
    else if !HasContent(data) then Some(Rejection(400, ContentRequiredMessage))
    else if receiver == sender then Some(Rejection(400, SelfMessageMessage))
    else if storeFault then Some(Rejection(500, InternalErrorMessage))
    else if !ReceiverExists(users, receiver) then Some(Rejection(404, ReceiverNotFoundMessage))
    else None
  }

  /** The message collection and the user collection the handlers read. */
  class MessageDb {
    var users: seq<User>
    var messages: seq<StoredMessage>

    constructor (users0: seq<User>, messages0: seq<StoredMessage>)
      ensures users == users0 && messages == messages0
    {
      users, messages := users0, messages0;
    }

    /**
     * `POST /send/:id`. `upload` is the image host's URL for the image (None
     * when the upload throws); `saveFault` says whether `save()` throws;
     * `newId` and `now` are the store's id and time. Nothing is pushed to the receiver: that step is commented out.
     */
    method SendMessage(sender: Option<string>, receiver: Option<string>, data: Payload, storeFault: bool,
                       upload: Option<string>, saveFault: bool, newId: string, now: int)
      returns (resp: Response<StoredMessage>)
      modifies this`messages
      ensures var rej := SendRejection(sender, receiver, data, old(users), storeFault);
        rej.Some? ==> resp == Error(rej.value.status, rej.value.message) && messages == old(messages)
      ensures var rej := SendRejection(sender, receiver, data, old(users), storeFault);
        rej.None? && Truthy(data.image) && upload.None? ==>
          resp == Error(500, InternalErrorMessage) && messages == old(messages)
      ensures var rej := SendRejection(sender, receiver, data, old(users), storeFault);
        rej.None? && (!Truthy(data.image) || upload.Some?) && saveFault ==>
          resp == Error(500, InternalErrorMessage) && messages == old(messages)
      ensures var rej := SendRejection(sender, receiver, data, old(users), storeFault);
        rej.None? && (!Truthy(data.image) || upload.Some?) && !saveFault ==>
          resp.Ok? && resp.status == 201 && messages == old(messages) + [resp.body] &&
          resp.body == StoredMessage(newId, sender.value, receiver.value, data.text,
                                     if Truthy(data.image) then upload else None, now)
      ensures resp.Ok? ==> Truthy(resp.body.text) || resp.body.image.Some?
    {
      var rej := SendRejection(sender, receiver, data, users, storeFault);
      if rej.Some? {
        return Error(rej.value.status, rej.value.message);
      }
      var imageUrl: Option<string> := None;
      if Truthy(data.image) {
        if upload.None? {
          return Error(500, InternalErrorMessage);
        }
        imageUrl := upload;
      }
      var m := StoredMessage(newId, sender.value, receiver.value, data.text, imageUrl, now);
      if saveFault {
        return Error(500, InternalErrorMessage);
      }
      messages := messages + [m];
      resp := Ok(201, m);
    }
  }
}
