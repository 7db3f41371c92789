/**
 * The client auth store: the logged-in user, the realtime socket (an
 * abstract handle), the online-user list it receives, and the flags of the
 * pending session check and signup.
 */
module AuthStore {
  import opened Domain

  /** A client socket handle, opened with the user id as its connection query. */
  datatype ClientSocket = ClientSocket(handle: nat, userId: string)

  class Store {
    var authUser: Option<PublicUser>
    var isCheckingAuth: bool
    var isSigningUp: bool
    var isLoggingIn: bool
    var socket: Option<ClientSocket>
    var onlineUsers: seq<string>
    /** Every socket on which `disconnect()` has been called, in order. */
    var closedSockets: seq<ClientSocket>

    /** Without a socket nobody is shown online. */
    ghost predicate Valid()
      reads this
    {
      socket.None? ==> onlineUsers == []
    }

    constructor ()
      ensures Valid()
      ensures authUser == None && isCheckingAuth && !isSigningUp && !isLoggingIn
      ensures socket == None && onlineUsers == [] && closedSockets == []
    {
      authUser := None;
      isCheckingAuth, isSigningUp, isLoggingIn := true, false, false;
      socket, onlineUsers, closedSockets := None, [], [];
    }

    /** `onlineUsers.includes(id)`, as the contact, chat and header lists test it. */
    predicate IsOnline(id: string)
      reads this
    {
      id in onlineUsers
    }

    /** The session check; `response` is None when the request fails. */
    method CheckAuth(response: Option<PublicUser>)
      modifies this`authUser, this`isCheckingAuth
      ensures authUser == response
      ensures !isCheckingAuth
    {
      if response.Some? {
        authUser := response;
      } else {
        authUser := None;
      }
      isCheckingAuth := false;
    }

    /** `connectSocket`: opens `handle` only for a logged-in user without a socket. */
    method ConnectSocket(handle: nat)
      requires Valid()
      modifies this`socket
      ensures Valid()
      ensures authUser.None? || old(socket).Some? ==> socket == old(socket)
      ensures authUser.Some? && old(socket).None? ==> socket == Some(ClientSocket(handle, authUser.value.id))
    {
      if authUser.None? || socket.Some? {
        return;
      }
      socket := Some(ClientSocket(handle, authUser.value.id));
    }

    /** The socket's `getOnlineUsers` listener: the broadcast list replaces the old one. */
    method OnOnlineUsers(users: seq<string>)
      requires Valid() && socket.Some?
      modifies this`onlineUsers
      ensures Valid()
      ensures onlineUsers == users
      ensures forall id :: IsOnline(id) <==> id in users
    {
      onlineUsers := users;
    }

    /** `disconnectSocket`: closes and forgets the socket and clears the online list. */
    method DisconnectSocket()
      requires Valid()
      modifies this`socket, this`onlineUsers, this`closedSockets
      ensures Valid()
      ensures socket == None
      ensures old(socket).None? ==> onlineUsers == old(onlineUsers) && closedSockets == old(closedSockets)
      ensures old(socket).Some? ==> onlineUsers == [] && closedSockets == old(closedSockets) + [old(socket).value]
    {
      if socket.Some? {
        closedSockets := closedSockets + [socket.value];
        socket, onlineUsers := None, [];
      }
    }

    /** `signup`; `response` is None when the request fails, `handle` is the socket it would open. */
    method Signup(response: Option<PublicUser>, handle: nat)
      requires Valid()
      modifies this`authUser, this`isSigningUp, this`socket
      ensures Valid()
      ensures !isSigningUp
      ensures response.None? ==> authUser == old(authUser) && socket == old(socket)
      ensures response.Some? ==>
        authUser == response &&
        socket == if old(socket).Some? then old(socket) else Some(ClientSocket(handle, response.value.id))
    {
      isSigningUp := true;
      if response.Some? {
        authUser := response;
        ConnectSocket(handle);
      }
      isSigningUp := false;
    }

    /**
     * `logout`. The request has no error handler: when it fails (`requestOk`
     * false) the rejection propagates and nothing changes.
     */
    method Logout(requestOk: bool)
      requires Valid()
      modifies this`authUser, this`socket, this`onlineUsers, this`closedSockets
      ensures Valid()
      ensures !requestOk ==>
        authUser == old(authUser) && socket == old(socket) &&
        onlineUsers == old(onlineUsers) && closedSockets == old(closedSockets)
      ensures requestOk ==>
        authUser == None && socket == None && onlineUsers == [] &&
        closedSockets == old(closedSockets) + (if old(socket).Some? then [old(socket).value] else [])
    {
      if !requestOk {
        return;
      }
      DisconnectSocket();
      authUser := None;
    }

    /** `updateProfile`; like logout it has no error handler, so a failure changes nothing. */
    method UpdateProfile(response: Option<PublicUser>)
      modifies this`authUser
      ensures authUser == if response.Some? then response else old(authUser)
    {
      if response.Some? {
        authUser := response;
      }
    }
  }
}
