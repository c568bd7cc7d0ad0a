/**
 * The WebSocket bookkeeping of task-service/src/sockets/socketServer.js:
 * which socket each user is on, which user each socket belongs to, and
 * which task rooms each user has joined. Rooms themselves (socket.io's
 * adapter) and every emit are not part of this model.
 */
module SocketServer {
  import opened Json
  import opened Http

  type SocketId = string
  type TaskId = string

  /** `socket.userId`, copied from `decoded.id`: undefined when the payload has no id. */
  type UserKey = Option<string>

  /** The three maps (connectedUsers, socketUsers, userRooms) as one value. */
  datatype Registry = Registry(
    connectedUsers: map<UserKey, SocketId>,
    socketUsers: map<SocketId, UserKey>,
    userRooms: map<UserKey, set<TaskId>>)

  const EmptyRegistry: Registry := Registry(map[], map[], map[])

  /** The tasks a user is recorded in; none for a user without an entry. */
  function TasksOf(g: Registry, uid: UserKey): set<TaskId>
  {
    if uid in g.userRooms then g.userRooms[uid] else {}
  }

  /** The ids a list holds. */
  function Elems(ids: seq<TaskId>): set<TaskId>
  {
    set t | t in ids
  }

  // ---------------------------------------------------------------------
  // Handshake
  // ---------------------------------------------------------------------

  datatype Handshake = Accepted(userId: UserKey, userEmail: Option<string>) | Refused(message: string)

  /** The io.use middleware on `socket.handshake.auth.token`. */
  function CheckHandshake(token: Option<string>, verify: string -> Verified): (h: Handshake)
    ensures !Truthy(token) ==> h == Refused("Authentication error: No token provided")
    ensures Truthy(token) && !verify(token.value).Decoded? ==> h == Refused("Authentication error: Invalid token")
    ensures h.Accepted? <==> Truthy(token) && verify(token.value).Decoded?
    ensures h.Accepted? ==>
      h.userId == Field(verify(token.value).payload, "id") && h.userEmail == Field(verify(token.value).payload, "email")
  {
    if !Truthy(token) then Refused("Authentication error: No token provided")
    else match verify(token.value)
      case Decoded(decoded) => Accepted(Field(decoded, "id"), Field(decoded, "email"))
      case _ => Refused("Authentication error: Invalid token")
  }

  // ---------------------------------------------------------------------
  // Effects of the handlers and helpers
  // ---------------------------------------------------------------------

  /** The connection handler: both directions of the user/socket link are recorded. */
  function AfterConnect(g: Registry, sid: SocketId, uid: UserKey): (r: Registry)
    ensures uid in r.connectedUsers && r.connectedUsers[uid] == sid
    ensures sid in r.socketUsers && r.socketUsers[sid] == uid
    ensures forall u | u != uid :: (u in r.connectedUsers <==> u in g.connectedUsers)
    ensures forall u | u != uid && u in g.connectedUsers :: r.connectedUsers[u] == g.connectedUsers[u]
    ensures forall s | s != sid :: (s in r.socketUsers <==> s in g.socketUsers)
    ensures forall s | s != sid && s in g.socketUsers :: r.socketUsers[s] == g.socketUsers[s]
    ensures r.userRooms == g.userRooms
  {
    g.(connectedUsers := g.connectedUsers[uid := sid], socketUsers := g.socketUsers[sid := uid])
  }

  /** addUserToTask: an entry is created for an unseen user, then the task added. */
  function AfterAddTask(g: Registry, uid: UserKey, taskId: TaskId): (r: Registry)
    ensures uid in r.userRooms && TasksOf(r, uid) == TasksOf(g, uid) + {taskId}
    ensures forall u | u != uid :: TasksOf(r, u) == TasksOf(g, u) && (u in r.userRooms <==> u in g.userRooms)
    ensures r.connectedUsers == g.connectedUsers && r.socketUsers == g.socketUsers
  {
    var tasks := if uid in g.userRooms then g.userRooms[uid] else {};
    g.(userRooms := g.userRooms[uid := tasks + {taskId}])
  }

  /** removeUserFromTask: only that task goes; an unknown user is left alone, an emptied set is kept. */
  function AfterRemoveTask(g: Registry, uid: UserKey, taskId: TaskId): (r: Registry)
    ensures uid !in g.userRooms ==> r == g
    ensures uid in g.userRooms ==> uid in r.userRooms && TasksOf(r, uid) == TasksOf(g, uid) - {taskId}
    ensures forall u | u != uid :: TasksOf(r, u) == TasksOf(g, u) && (u in r.userRooms <==> u in g.userRooms)
    ensures r.connectedUsers == g.connectedUsers && r.socketUsers == g.socketUsers
  {
    if uid in g.userRooms then g.(userRooms := g.userRooms[uid := g.userRooms[uid] - {taskId}]) else g
  }

  /** removeUserFromAllTasks: the user's whole entry goes. */
  function AfterRemoveAll(g: Registry, uid: UserKey): (r: Registry)
    ensures uid !in r.userRooms && TasksOf(r, uid) == {}
    ensures forall u | u != uid :: TasksOf(r, u) == TasksOf(g, u) && (u in r.userRooms <==> u in g.userRooms)
    ensures r.connectedUsers == g.connectedUsers && r.socketUsers == g.socketUsers
  {
    g.(userRooms := g.userRooms - {uid})
  }

  /** The join-tasks handler: addUserToTask for each id, in order. */
  function AfterJoinAll(g: Registry, uid: UserKey, taskIds: seq<TaskId>): Registry
    decreases |taskIds|
  {
    if taskIds == [] then g
    else AfterAddTask(AfterJoinAll(g, uid, taskIds[..|taskIds| - 1]), uid, taskIds[|taskIds| - 1])
  }

  /** The disconnect handler for socket `sid` whose user is `uid`. */
  function AfterDisconnect(g: Registry, sid: SocketId, uid: UserKey): (r: Registry)
    ensures uid !in r.connectedUsers && sid !in r.socketUsers && uid !in r.userRooms
    ensures forall u | u != uid :: (u in r.connectedUsers <==> u in g.connectedUsers) && TasksOf(r, u) == TasksOf(g, u)
    ensures forall u | u != uid && u in g.connectedUsers :: r.connectedUsers[u] == g.connectedUsers[u]
    ensures forall s | s != sid :: (s in r.socketUsers <==> s in g.socketUsers)
    ensures forall s | s != sid && s in g.socketUsers :: r.socketUsers[s] == g.socketUsers[s]
  {
    AfterRemoveAll(g.(connectedUsers := g.connectedUsers - {uid}, socketUsers := g.socketUsers - {sid}), uid)
  }

  // ---------------------------------------------------------------------
  // Properties
  // ---------------------------------------------------------------------

  lemma ElemsSnoc(ids: seq<TaskId>)
    requires ids != []
    ensures Elems(ids) == Elems(ids[..|ids| - 1]) + {ids[|ids| - 1]}
  {
    assert ids == ids[..|ids| - 1] + [ids[|ids| - 1]];
  }

  /** The user's rooms after joining `ids`, from a state `g`; the links are untouched. */
  predicate JoinedAll(g: Registry, uid: UserKey, ids: seq<TaskId>)
  {
    if ids == [] then AfterJoinAll(g, uid, ids) == g
    else AfterJoinAll(g, uid, ids) == g.(userRooms := g.userRooms[uid := TasksOf(g, uid) + Elems(ids)])
  }

  /** If joining all but the last id adds exactly those ids, joining them all adds exactly all of them. */
  lemma JoinOneMore(g: Registry, uid: UserKey, ids: seq<TaskId>)
    requires ids != [] && JoinedAll(g, uid, ids[..|ids| - 1])
    ensures JoinedAll(g, uid, ids)
  {
    var init, last := ids[..|ids| - 1], ids[|ids| - 1];
    var mid := AfterJoinAll(g, uid, init);
    var joined := TasksOf(g, uid) + Elems(ids);
    assert mid.connectedUsers == g.connectedUsers && mid.socketUsers == g.socketUsers
        && mid.userRooms - {uid} == g.userRooms - {uid}
        && TasksOf(mid, uid) + {last} == joined by {
      ElemsSnoc(ids);
      if init == [] {
        assert Elems(init) == {} by {
          assert forall t :: t !in init;
        }
      }
    }
    assert AfterJoinAll(g, uid, ids) == mid.(userRooms := mid.userRooms[uid := joined]);
    UpdateAgreeing(mid.userRooms, g.userRooms, uid, joined);
  }

  /** Joining a list of tasks adds exactly those tasks to the user's set; an empty list changes nothing. */
  lemma {:induction false} JoinAllAddsEach(g: Registry, uid: UserKey, taskIds: seq<TaskId>)
    ensures taskIds == [] ==> AfterJoinAll(g, uid, taskIds) == g
    ensures taskIds != [] ==>
      AfterJoinAll(g, uid, taskIds) == g.(userRooms := g.userRooms[uid := TasksOf(g, uid) + Elems(taskIds)])
    decreases |taskIds|
  {
    if taskIds != [] {
      JoinAllAddsEach(g, uid, taskIds[..|taskIds| - 1]);
      JoinOneMore(g, uid, taskIds);
    }
  }

  /** Two maps that agree away from `k` agree everywhere once `k` is set in both. */
  lemma UpdateAgreeing<K, V>(a: map<K, V>, b: map<K, V>, k: K, v: V)
    requires a - {k} == b - {k}
    ensures a[k := v] == b[k := v]
  {
    forall x | x != k
      ensures (x in a <==> x in b) && (x in a ==> a[x] == b[x])
    {
      assert x in a <==> x in a - {k};
      assert x in b <==> x in b - {k};
      if x in a {
        assert a[x] == (a - {k})[x];
      }
    }
  }

  /** Adding the same task twice is the same as adding it once. */
  lemma AddTaskIdempotent(g: Registry, uid: UserKey, taskId: TaskId)
    ensures AfterAddTask(AfterAddTask(g, uid, taskId), uid, taskId) == AfterAddTask(g, uid, taskId)
  {
    var r := AfterAddTask(g, uid, taskId);
    assert r.userRooms[uid] + {taskId} == r.userRooms[uid];
  }

  /**
   * Leaving the only task of a user who had no entry does not restore the
   * old state: an empty set stays behind until the user disconnects.
   */
  lemma LeaveKeepsEmptyEntry(g: Registry, uid: UserKey, taskId: TaskId)
    requires uid !in g.userRooms
    ensures var r := AfterRemoveTask(AfterAddTask(g, uid, taskId), uid, taskId);
      uid in r.userRooms && TasksOf(r, uid) == {} && r != g
  {
  }

  /**
   * A user who reconnects on a new socket and whose old socket then
   * disconnects is no longer listed as connected, although the new socket
   * still maps to the user.
   */
  lemma StaleDisconnectForgetsLiveUser(g: Registry, uid: UserKey, oldSid: SocketId, newSid: SocketId)
    requires oldSid != newSid
    ensures var r := AfterDisconnect(AfterConnect(AfterConnect(g, oldSid, uid), newSid, uid), oldSid, uid);
      uid !in r.connectedUsers && newSid in r.socketUsers && r.socketUsers[newSid] == uid && uid !in r.userRooms
  {
  }

  /** The three maps held by the server, updated in place by the handlers. */
  class SocketRegistry {
    var connectedUsers: map<UserKey, SocketId>
    var socketUsers: map<SocketId, UserKey>
    var userRooms: map<UserKey, set<TaskId>>

    function Snapshot(): Registry
      reads this
    {
      Registry(connectedUsers, socketUsers, userRooms)
    }

    constructor()
      ensures Snapshot() == EmptyRegistry
    {
      connectedUsers, socketUsers, userRooms := map[], map[], map[];
    }

    method Connect(sid: SocketId, uid: UserKey)
      modifies this
      ensures Snapshot() == AfterConnect(old(Snapshot()), sid, uid)
    {
      connectedUsers := connectedUsers[uid := sid];
      socketUsers := socketUsers[sid := uid];
    }

    /** addUserToTask, also what the join-task handler does to the maps. */
    method AddUserToTask(uid: UserKey, taskId: TaskId)
      modifies this
      ensures Snapshot() == AfterAddTask(old(Snapshot()), uid, taskId)
    {
      if uid !in userRooms {
        userRooms := userRooms[uid := {}];
      }
      userRooms := userRooms[uid := userRooms[uid] + {taskId}];
    }

    /** removeUserFromTask, also what the leave-task handler does to the maps. */
    method RemoveUserFromTask(uid: UserKey, taskId: TaskId)
      modifies this
      ensures Snapshot() == AfterRemoveTask(old(Snapshot()), uid, taskId)
    {
      if uid in userRooms {
        userRooms := userRooms[uid := userRooms[uid] - {taskId}];
      }
    }

    method RemoveUserFromAllTasks(uid: UserKey)
      modifies this
      ensures Snapshot() == AfterRemoveAll(old(Snapshot()), uid)
    {
      userRooms := userRooms - {uid};
    }

    /** The join-tasks handler. */
    method JoinTasks(uid: UserKey, taskIds: seq<TaskId>)
      modifies this
      ensures Snapshot() == AfterJoinAll(old(Snapshot()), uid, taskIds)
    {
      var i := 0;
      while i < |taskIds|
        invariant 0 <= i <= |taskIds|
        invariant Snapshot() == AfterJoinAll(old(Snapshot()), uid, taskIds[..i])
      {
        assert taskIds[..i + 1][..i] == taskIds[..i];
        AddUserToTask(uid, taskIds[i]);
        i := i + 1;
      }
      assert taskIds[..|taskIds|] == taskIds;
    }

    /** The disconnect handler for socket `sid`, whose handshake recorded `uid`. */
    method Disconnect(sid: SocketId, uid: UserKey)
      modifies this
      ensures Snapshot() == AfterDisconnect(old(Snapshot()), sid, uid)
    {
      connectedUsers := connectedUsers - {uid};
      socketUsers := socketUsers - {sid};
      RemoveUserFromAllTasks(uid);
    }

    /** getUserTasks: the user's set as a list, each task once; [] for an unknown user. */
    method GetUserTasks(uid: UserKey) returns (tasks: seq<TaskId>)
      ensures uid !in userRooms ==> tasks == []
      ensures forall t :: t in tasks <==> t in TasksOf(Snapshot(), uid)
      ensures forall i, j | 0 <= i < j < |tasks| :: tasks[i] != tasks[j]
    {
      tasks := [];
      if uid !in userRooms {
        return;
      }
      var rest := userRooms[uid];
      while rest != {}
        invariant forall t :: t in userRooms[uid] <==> t in rest || t in tasks
        invariant forall t | t in tasks :: t !in rest
        invariant forall i, j | 0 <= i < j < |tasks| :: tasks[i] != tasks[j]
      {
        var t :| t in rest;
        tasks := tasks + [t];
        rest := rest - {t};
      }
    }
  }
}
