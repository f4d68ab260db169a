/** The in-memory collaboration store: a table of session records keyed by
    id, plus the id of the "active" session that the one-argument operations
    (send a message, replace the whiteboard, add a task, read back) act on.

    Identifiers (the first eight characters of a uuid4) and the values of
    datetime.now() are inputs of the operations that use them. Nothing checks
    that an id is new: creating a session under an existing id replaces it. */
module Collaborative {
  import opened Base

  /** A participant, appended by JoinSession. */
  datatype User = User(id: string, name: string, joined: Instant, active: bool)

  /** A message of the session feed; `kind` is the record's 'type' key. */
  datatype Message = Message(id: string, user: string, text: string, timestamp: Instant, kind: string)

  /** A task, created open and unassigned. */
  datatype Task = Task(id: string, description: string, created: Instant, completed: bool, assignee: Option<string>)

  /** The record held for one session; `kind` is its 'type' key. */
  datatype Session = Session(
    id: string, name: string, kind: string, maxUsers: int, created: Instant,
    users: seq<User>, messages: seq<Message>, whiteboard: string, tasks: seq<Task>)

  const DefaultMaxUsers: int := 10
  const Anonymous: string := "Anonymous"
  const InviteBase: string := "https://your-app.com/collab/"

  /** The record create_session stores: no users, messages or tasks, an empty whiteboard. */
  function NewSession(id: string, name: string, kind: string, maxUsers: int, now: Instant): (s: Session)
    ensures s.id == id && s.name == name && s.kind == kind && s.maxUsers == maxUsers && s.created == now
    ensures s.users == [] && s.messages == [] && s.whiteboard == "" && s.tasks == []
  {
    Session(id, name, kind, maxUsers, now, [], [], "", [])
  }

  /** The display name join_session gives a participant who brings none:
      "User_" followed by the participant's 1-based position. */
  function DefaultUserName(count: nat): (r: string)
    ensures |r| == 5 + |Decimal(count + 1)|
    ensures r[..5] == "User_" && r[5..] == Decimal(count + 1)
  {
    "User_" + Decimal(count + 1)
  }

  /** Two default names are equal only when they were generated for the same
      participant count, so participants that join without a name, one after
      another, get pairwise different names. */
  lemma {:induction false} DefaultUserNameInjective(a: nat, b: nat)
    requires DefaultUserName(a) == DefaultUserName(b)
    ensures a == b
  {
    assert DefaultUserName(a)[5..] == DefaultUserName(b)[5..];
    DecimalInjective(a + 1, b + 1);
  }

  /** The names of a session's participants, in join order. */
  function Names(users: seq<User>): (r: seq<string>)
    ensures |r| == |users|
    ensures forall i :: 0 <= i < |users| ==> r[i] == users[i].name
  {
    if users == [] then [] else [users[0].name] + Names(users[1..])
  }

  class CollaborationSession {
    var sessions: map<string, Session>
    var active: Option<string>

    /** The active pointer only ever names a session in the table: it is set by
        create_session right after the insertion and by join_session only for a
        known id, and no operation removes a session. */
    ghost predicate Valid()
      reads this
    {
      active.Some? ==> active.value in sessions
    }

    /** `if self.active_session:`, Python truthiness of an optional string:
        there is a pointer and it is not the empty string. */
    predicate HasActive()
      reads this
    {
      active.Some? && active.value != ""
    }

    constructor ()
      ensures Valid()
      ensures sessions == map[] && active == None
    {
      sessions := map[];
      active := None;
    }

    /** `maxUsers` is None when the caller leaves max_users at its default. */
    method CreateSession(id: string, name: string, kind: string, maxUsers: Option<int>, now: Instant) returns (sessionId: string)
      requires Valid()
      modifies this
      ensures Valid()
      ensures sessionId == id
      ensures sessions == old(sessions)[id := NewSession(id, name, kind, if maxUsers.Some? then maxUsers.value else DefaultMaxUsers, now)]
      ensures maxUsers.None? ==> sessions[id].maxUsers == DefaultMaxUsers
      ensures forall k :: k in old(sessions) && k != id ==> k in sessions && sessions[k] == old(sessions)[k]
      ensures active == Some(id)
    {
      var capacity := if maxUsers.Some? then maxUsers.value else DefaultMaxUsers;
      sessions := sessions[id := NewSession(id, name, kind, capacity, now)];
      active := Some(id);
      sessionId := id;
    }

    /** Joins a participant. `username` is None when the caller gives no name.
        The session's max_users is never consulted. */
    method JoinSession(sessionId: string, username: Option<string>, userId: string, now: Instant) returns (ok: bool)
      requires Valid()
      modifies this
      ensures Valid()
      ensures ok <==> sessionId in old(sessions)
      ensures !ok ==> sessions == old(sessions) && active == old(active)
      ensures ok ==> active == Some(sessionId)
      ensures ok ==>
        var s := old(sessions)[sessionId];
        var name := if username.Some? then username.value else DefaultUserName(|s.users|);
        sessions == old(sessions)[sessionId := s.(users := s.users + [User(userId, name, now, true)])]
    {
      if sessionId in sessions {
        var s := sessions[sessionId];
        var name: string;
        if username.None? {
          name := DefaultUserName(|s.users|);
        } else {
          name := username.value;
        }
        var user := User(userId, name, now, true);
        sessions := sessions[sessionId := s.(users := s.users + [user])];
        active := Some(sessionId);
        ok := true;
      } else {
        ok := false;
      }
    }

    /** Posts to the active session's feed. `user` is None when the caller
        gives no sender, which then reads "Anonymous". */
    method SendMessage(message: string, user: Option<string>, msgId: string, now: Instant) returns (ok: bool)
      requires Valid()
      modifies this
      ensures Valid() && active == old(active)
      ensures ok == old(HasActive())
      ensures !ok ==> sessions == old(sessions)
      ensures ok ==>
        var id := active.value;
        var s := old(sessions)[id];
        var sender := if user.Some? then user.value else Anonymous;
        sessions == old(sessions)[id := s.(messages := s.messages + [Message(msgId, sender, message, now, "message")])]
      ensures ok ==> GetMessages() == old(GetMessages()) + [GetMessages()[|GetMessages()| - 1]]
      ensures ok ==> GetMessages()[|GetMessages()| - 1].text == message
    {
      if HasActive() {
        var id := active.value;
        var s := sessions[id];
        var sender := if user.Some? then user.value else Anonymous;
        var msg := Message(msgId, sender, message, now, "message");
        sessions := sessions[id := s.(messages := s.messages + [msg])];
        ok := true;
      } else {
        ok := false;
      }
    }

    /** The active session's feed, or nothing when no session is active. */
    function GetMessages(): (r: seq<Message>)
      requires Valid()
      reads this
      ensures !HasActive() ==> r == []
      ensures HasActive() ==> r == sessions[active.value].messages
    {
      if HasActive() then sessions[active.value].messages else []
    }

    /** The names of every participant of the active session, in join order.
        The 'active' flag of a participant is not consulted. */
    function GetActiveUsers(): (r: seq<string>)
      requires Valid()
      reads this
      ensures !HasActive() ==> r == []
      ensures HasActive() ==> |r| == |sessions[active.value].users|
      ensures HasActive() ==> forall i :: 0 <= i < |r| ==> r[i] == sessions[active.value].users[i].name
    {
      if HasActive() then Names(sessions[active.value].users) else []
    }

    /** Replaces the active session's whiteboard text, last writer wins. */
    method UpdateWhiteboard(content: string) returns (ok: bool)
      requires Valid()
      modifies this
      ensures Valid() && active == old(active)
      ensures ok == old(HasActive())
      ensures !ok ==> sessions == old(sessions)
      ensures ok ==>
        var id := active.value;
        sessions == old(sessions)[id := old(sessions)[id].(whiteboard := content)]
      ensures ok ==> ExportData() == Some(old(sessions)[active.value].(whiteboard := content))
      ensures ok && old(sessions)[active.value].whiteboard == content ==> sessions == old(sessions)
    {
      if HasActive() {
        var id := active.value;
        sessions := sessions[id := sessions[id].(whiteboard := content)];
        ok := true;
      } else {
        ok := false;
      }
    }

    /** Appends an open, unassigned task to the active session. */
    method AddTask(description: string, taskId: string, now: Instant) returns (ok: bool)
      requires Valid()
      modifies this
      ensures Valid() && active == old(active)
      ensures ok == old(HasActive())
      ensures !ok ==> sessions == old(sessions)
      ensures ok ==>
        var id := active.value;
        var s := old(sessions)[id];
        sessions == old(sessions)[id := s.(tasks := s.tasks + [Task(taskId, description, now, false, None)])]
    {
      if HasActive() {
        var id := active.value;
        var s := sessions[id];
        var task := Task(taskId, description, now, false, None);
        sessions := sessions[id := s.(tasks := s.tasks + [task])];
        ok := true;
      } else {
        ok := false;
      }
    }

    /** The link shown for inviting others: the base address followed by the
        active id, or the empty string when no session is active. */
    function GetInviteLink(): (r: string)
      reads this
      ensures !HasActive() <==> r == ""
      ensures HasActive() ==> |r| == |InviteBase| + |active.value|
      ensures HasActive() ==> r[..|InviteBase|] == InviteBase && r[|InviteBase|..] == active.value
    {
      if HasActive() then InviteBase + active.value else ""
    }

    /** The whole active record, or nothing (the empty dict) when no session is active. */
    function ExportData(): (r: Option<Session>)
      requires Valid()
      reads this
      ensures r.Some? <==> HasActive()
      ensures r.Some? ==> r.value == sessions[active.value]
    {
      if HasActive() then Some(sessions[active.value]) else None
    }
  }

  /** Capacity is advisory: a session created for at most two users accepts a
      third join, and all three participants are recorded. */
  method JoinIgnoresCapacity(now: Instant) returns (accepted: seq<bool>, users: nat)
    ensures accepted == [true, true, true]
    ensures users == 3
  {
    var store := new CollaborationSession();
    var id := store.CreateSession("a1b2c3d4", "Brainstorm", "General", Some(2), now);
    var first := store.JoinSession(id, Some("Ana"), "u0000001", now);
    var second := store.JoinSession(id, Some("Budi"), "u0000002", now);
    var third := store.JoinSession(id, None, "u0000003", now);
    accepted := [first, second, third];
    users := |store.sessions[id].users|;
  }
}
