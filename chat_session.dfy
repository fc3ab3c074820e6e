/** The direct-message page (client/src/pages/Msg.jsx): choosing a peer opens a
    chat room (closing the previous socket, fetching the room and its history,
    then connecting a socket whose frames are appended as they arrive), and the
    guarded send of the draft. Replies of the HTTP requests are arguments; the
    socket is a small object with the WebSocket ready states. */
module ChatSession {
  import opened Common

  const Connecting := 0
  const Open := 1
  const Closing := 2
  const Closed := 3

  /** A user in the sidebar. */
  datatype User = User(id: int, username: string)

  /** A chat message object as the server sends it (history entry or live
      frame); the page only stores and renders it. */
  datatype Message = Message(json: string)

  /** The frame `JSON.stringify({message: input})`. */
  datatype OutFrame = OutFrame(message: string)

  /** The HTTP requests the page issues, in order. */
  datatype Request = RoomRequest(user2Id: int) | HistoryRequest(room: string)

  /** The room request's reply: it failed (threw), or its body's `room_name`
      (None when the body has none). */
  datatype RoomReply = RoomFailed | RoomBody(roomName: Option<string>)

  /** `${room}` in a URL: an absent room name renders as "undefined". */
  function RoomPath(room: Option<string>): string {
    if room.Some? then room.value else "undefined"
  }

  /** handleSend's decision: a frame carrying the untrimmed draft when the draft
      is not blank and a socket is stored in the open state; nothing otherwise. */
  function SendFrame(input: string, stored: bool, readyState: int): (r: Option<OutFrame>)
    ensures r.Some? <==> JsTrim(input) != "" && stored && readyState == Open
    ensures r.Some? ==> r.value.message == input
  {
    if JsTrim(input) == "" || !stored || readyState != Open then None else Some(OutFrame(input))
  }

  /** A whitespace-only draft is never sent, whatever the socket's state. */
  lemma BlankDraftNeverSent(input: string, stored: bool, readyState: int)
    requires AllSpace(input, IsJsSpace)
    ensures SendFrame(input, stored, readyState) == None
  {
    TrimEmptyIff(input, IsJsSpace);
  }

  /** A WebSocket: its ready state and the frames sent through it. */
  class Socket {
    const url: string
    var readyState: int
    var sent: seq<OutFrame>

    constructor(url: string)
      ensures this.url == url && readyState == Connecting && sent == []
    {
      this.url := url;
      readyState := Connecting;
      sent := [];
    }

    /** The connection is established. */
    method Opened()
      requires readyState == Connecting
      modifies this
      ensures readyState == Open && sent == old(sent)
    {
      readyState := Open;
    }

    /** `close()`: a connecting or open socket starts closing; a closing or
        closed one is left as it is. Either way it is no longer open. */
    method Close()
      requires Connecting <= readyState <= Closed
      modifies this
      ensures readyState == (if old(readyState) <= Open then Closing else old(readyState))
      ensures readyState != Open && sent == old(sent)
    {
      if readyState <= Open {
        readyState := Closing;
      }
    }

    /** `send(frame)` on an open socket. */
    method Send(frame: OutFrame)
      requires readyState == Open
      modifies this
      ensures sent == old(sent) + [frame] && readyState == old(readyState)
    {
      sent := sent + [frame];
    }
  }

  class Chat {
    var users: seq<User>
    var selectedUser: Option<User>
    var roomName: Option<string>
    var messages: seq<Message>
    var input: string
    /** `wsRef.current`. */
    var ws: Socket?
    var requests: seq<Request>
    /** The history installed for the current room and the frames received since. */
    ghost var history: seq<Message>
    ghost var live: seq<Message>

    /** History always precedes live frames in the message list. */
    ghost predicate Valid()
      reads this, ws
    {
      messages == history + live
      && (ws != null ==> Connecting <= ws.readyState <= Closed)
    }

    constructor()
      ensures Valid() && users == [] && selectedUser == None && roomName == None
      ensures messages == [] && input == "" && ws == null && requests == []
    {
      users, selectedUser, roomName, messages, input := [], None, None, [], "";
      ws, requests := null, [];
      history, live := [], [];
    }

    /** fetchUsers: the reply replaces the list; a failed request keeps it. */
    method UsersFetched(reply: Option<seq<User>>)
      modifies this
      ensures reply.Some? ==> users == reply.value
      ensures reply.None? ==> users == old(users)
      ensures selectedUser == old(selectedUser) && messages == old(messages) && ws == old(ws)
      ensures history == old(history) && live == old(live) && roomName == old(roomName)
      ensures input == old(input) && requests == old(requests)
    {
      if reply.Some? {
        users := reply.value;
      }
    }

    /** handleUserClick, run to completion with the replies it awaits. The user is
        selected and the list and room name are emptied first; a stored socket is
        closed before the room is requested for `user2_id` = the user's id. The
        room name becomes the reply's `room_name`, the history is requested for
        that room and replaces the list, and only then is a new socket for the
        room created and stored. A failure at any step ends the handler there and
        leaves the old, closed socket stored. */
    method SelectUser(user: User, room: RoomReply, historyReply: Option<seq<Message>>)
      requires Valid()
      modifies this, ws
      ensures Valid() && selectedUser == Some(user) && input == old(input) && users == old(users)
      ensures old(ws) != null ==> old(ws).readyState != Open && old(ws).sent == old(ws.sent)
      ensures room.RoomFailed? ==>
        requests == old(requests) + [RoomRequest(user.id)]
        && roomName == None && messages == [] && ws == old(ws)
      ensures room.RoomBody? ==>
        requests == old(requests) + [RoomRequest(user.id), HistoryRequest(RoomPath(room.roomName))]
        && roomName == room.roomName
      ensures room.RoomBody? && historyReply.None? ==> messages == [] && ws == old(ws)
      ensures room.RoomBody? && historyReply.Some? ==>
        messages == historyReply.value && history == historyReply.value && live == []
        && ws != null && fresh(ws) && ws.url == RoomPath(room.roomName)
        && ws.readyState == Connecting && ws.sent == []
    {
      selectedUser := Some(user);
      messages := [];
      roomName := None;
      history, live := [], [];
      if ws != null {
        ws.Close();
      }
      requests := requests + [RoomRequest(user.id)];
      if room.RoomFailed? {
        return;
      }
      roomName := room.roomName;
      var path := RoomPath(room.roomName);
      requests := requests + [HistoryRequest(path)];
      if historyReply.None? {
        return;
      }
      messages := historyReply.value;
      history := historyReply.value;
      var socket := new Socket(path);
      ws := socket;
    }

    /** `socket.onmessage` of the stored, open socket: the frame goes at the end
        and every earlier message stays where it was. */
    method Deliver(m: Message)
      requires Valid() && ws != null && ws.readyState == Open
      modifies this
      ensures Valid() && messages == old(messages) + [m]
      ensures |messages| == |old(messages)| + 1 && messages[..|old(messages)|] == old(messages)
      ensures history == old(history) && live == old(live) + [m]
      ensures ws == old(ws) && roomName == old(roomName) && input == old(input)
    {
      messages := messages + [m];
      live := live + [m];
    }

    /** The draft input's onChange. */
    method SetInput(value: string)
      modifies this
      ensures input == value
      ensures messages == old(messages) && ws == old(ws) && history == old(history) && live == old(live)
      ensures users == old(users) && selectedUser == old(selectedUser) && roomName == old(roomName) && requests == old(requests)
    {
      input := value;
    }

    /** handleSend: exactly the frame SendFrame allows goes out on the stored
        socket and the draft is cleared; otherwise nothing is sent and the draft
        is kept. */
    method Send()
      requires Valid()
      modifies this, ws
      ensures Valid() && ws == old(ws)
      ensures var frame := SendFrame(old(input), old(ws) != null, if old(ws) != null then old(ws.readyState) else Closed);
        (frame.Some? ==> ws.sent == old(ws.sent) + [frame.value] && input == "")
        && (frame.None? ==> input == old(input) && (ws != null ==> ws.sent == old(ws.sent)))
      ensures ws != null ==> ws.readyState == old(ws.readyState)
      ensures messages == old(messages) && history == old(history) && live == old(live)
    {
      var frame := SendFrame(input, ws != null, if ws != null then ws.readyState else Closed);
      if frame.Some? {
        ws.Send(frame.value);
        input := "";
      }
    }
  }
}
