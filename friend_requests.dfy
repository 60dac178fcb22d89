/**
 * The friend-request handshake (`FriendRequestManager`): sending writes the
 * recipient's inbox entry and then the sender's pending outbox entry;
 * responding writes only under the responder's own subtree; an outbox entry
 * whose status leaves 0 is turned into a friend edge (status 1) and deleted.
 * Every operation returns the store writes it issues, in issue order; the
 * outcome of each awaited write is an input.
 */
module FriendRequests {
  import opened Wrappers
  import opened Store

  /** `FriendResponse.status`: 0 pending, 1 accepted, 2 rejected. */
  const Pending: int := 0
  const Accepted: int := 1
  const Rejected: int := 2

  /** An outbox entry as the script reads it back; `userId` is the entry's key. */
  datatype FriendResponse = FriendResponse(userId: Uid, username: Option<string>, status: int)

  /**
   * The record the sender writes under its own outbox when it sends: the
   * JSON of a `FriendResponse` with every public field, `userId` left unset
   * (written as ""), the sender's name and the pending status.
   */
  function OutboxRecord(username: string): Value {
    Obj(map["userId" := Str(""), "username" := Str(username), "status" := Int(Pending)])
  }

  /**
   * `GetFriendResponseFromSnapshot`: None for a snapshot that does not exist,
   * and also for a value that is not a record (the JSON read throws there and
   * the handler does nothing). A missing or non-integer status reads as 0.
   */
  function ParseFriendResponse(snap: Snap): (r: Option<FriendResponse>)
    ensures !snap.Exists() ==> r.None?
    ensures r.Some? <==> snap.Exists() && snap.value.value.Obj?
    ensures r.Some? ==> r.value.userId == snap.key
    ensures r.Some? && !(snap.Child("status").Exists() && snap.Child("status").value.value.Int?) ==>
              r.value.status == Pending
  {
    match snap.value
    case None => None
    case Some(v) =>
      if !v.Obj? then None
      else
        var fields := v.fields;
        var name := if "username" in fields && fields["username"].Str? then Some(fields["username"].s) else None;
        var status := if "status" in fields && fields["status"].Int? then fields["status"].i else Pending;
        Some(FriendResponse(snap.key, name, status))
  }

  /** What a sender writes to its outbox reads back as a pending response from the recipient. */
  lemma OutboxRecordReadsBack(target: Uid, username: string)
    ensures ParseFriendResponse(Snap(target, Some(OutboxRecord(username)))) ==
            Some(FriendResponse(target, Some(username), Pending))
  {
  }

  /** `SaveFriend`: nothing without an own uid; otherwise the friend edge (a null name deletes it). */
  function SaveFriendOps(myUserId: Uid, friendUserId: Uid, friendUsername: Option<string>): (ops: seq<StoreOp>)
    ensures myUserId == "" ==> ops == []
    ensures myUserId != "" ==> |ops| == 1 && OpPath(ops[0]) == FriendEntry(myUserId, friendUserId)
    ensures myUserId != "" && friendUsername.Some? ==> ops[0] == Set(FriendEntry(myUserId, friendUserId), Str(friendUsername.value))
  {
    if myUserId == "" then []
    else [SetOrDelete(FriendEntry(myUserId, friendUserId), if friendUsername.Some? then Some(Str(friendUsername.value)) else None)]
  }

  /**
   * `ProcessFriendResponse`: a pending (or missing) response does nothing; an
   * accepted one saves the friend edge; any non-zero status then deletes the
   * outbox entry.
   */
  function ProcessFriendResponseOps(myUserId: Uid, resp: Option<FriendResponse>): (ops: seq<StoreOp>)
    ensures resp.None? || resp.value.status == Pending || myUserId == "" ==> ops == []
    ensures resp.Some? && resp.value.status == Accepted && myUserId != "" ==>
              ops == SaveFriendOps(myUserId, resp.value.userId, resp.value.username) + [Delete(OutboxEntry(myUserId, resp.value.userId))]
    ensures resp.Some? && resp.value.status != Pending && resp.value.status != Accepted && myUserId != "" ==>
              ops == [Delete(OutboxEntry(myUserId, resp.value.userId))]
    ensures forall op :: op in ops ==> OwnerOf(OpPath(op)) == Some(myUserId)
  {
    match resp
    case None => []
    case Some(r) =>
      if r.status == Pending then []
      else
        var save := if r.status == Accepted then SaveFriendOps(myUserId, r.userId, r.username) else [];
        save + (if myUserId != "" then [Delete(OutboxEntry(myUserId, r.userId))] else [])
  }

  /** `HandleFriendResponseAdded`: an added outbox entry that is still pending is ignored. */
  function ResponseAddedOps(myUserId: Uid, ev: ChildEvent): (ops: seq<StoreOp>)
    ensures ev.Failed? ==> ops == []
    ensures ev.Delivered? ==> ops == ProcessFriendResponseOps(myUserId, ParseFriendResponse(ev.snap))
  {
    match ev
    case Failed(_) => []
    case Delivered(snap) =>
      var resp := ParseFriendResponse(snap);
      if resp.None? || resp.value.status == Pending then [] else ProcessFriendResponseOps(myUserId, resp)
  }

  /** `HandleFriendResponseChanged`: every delivered change goes through `ProcessFriendResponse`. */
  function ResponseChangedOps(myUserId: Uid, ev: ChildEvent): (ops: seq<StoreOp>)
  {
    match ev
    case Failed(_) => []
    case Delivered(snap) => ProcessFriendResponseOps(myUserId, ParseFriendResponse(snap))
  }

  /** A change that leaves an outbox entry pending issues no write, whether it arrives as added or changed. */
  lemma PendingIsIgnored(myUserId: Uid, target: Uid, username: string)
    ensures ResponseAddedOps(myUserId, Delivered(Snap(target, Some(OutboxRecord(username))))) == []
    ensures ResponseChangedOps(myUserId, Delivered(Snap(target, Some(OutboxRecord(username))))) == []
  {
    OutboxRecordReadsBack(target, username);
  }

  /**
   * `SendFriendRequest`: the recipient's inbox entry (the sender's name; a
   * null name deletes it) and, only after that write succeeds, the sender's
   * pending outbox record. `myUserId == ""` stands for a manager that has no
   * user yet, where building the path throws before any write.
   */
  function SendOps(myUserId: Uid, myUsername: Option<string>, friendUserId: Uid, inboxOk: bool, outboxOk: bool): (ops: seq<StoreOp>)
    ensures myUserId == "" ==> ops == []
    ensures myUserId != "" && inboxOk ==> |ops| == (if outboxOk then 2 else 1)
    ensures myUserId != "" && inboxOk ==> OpPath(ops[0]) == InboxEntry(friendUserId, myUserId)
    ensures myUserId != "" && inboxOk && outboxOk ==>
              ops[1] == Set(OutboxEntry(myUserId, friendUserId), OutboxRecord(myUsername.GetOr("")))
    ensures !inboxOk ==> ops == []
  {
    if myUserId == "" || !inboxOk then []
    else
      var inbox := SetOrDelete(InboxEntry(friendUserId, myUserId), if myUsername.Some? then Some(Str(myUsername.value)) else None);
      [inbox] + (if outboxOk then [Set(OutboxEntry(myUserId, friendUserId), OutboxRecord(myUsername.GetOr("")))] else [])
  }

  /**
   * `RespondFriendRequestAsync` once the own uid is known: the friend edge on
   * accept (not awaited), then the delete of the own inbox entry (awaited).
   */
  function RespondOps(me: Uid, friendUserId: Uid, friendUserName: string, status: int, deleteOk: bool): (ops: seq<StoreOp>)
    requires me != ""
    ensures status == Accepted ==> |ops| >= 1 && ops[0] == Set(FriendEntry(me, friendUserId), Str(friendUserName))
    ensures status != Accepted ==> forall op :: op in ops ==> op.Delete?
    ensures deleteOk <==> Delete(InboxEntry(me, friendUserId)) in ops
    ensures deleteOk ==> ops[|ops| - 1] == Delete(InboxEntry(me, friendUserId))
    ensures |ops| <= 2
  {
    (if status == Accepted then SaveFriendOps(me, friendUserId, Some(friendUserName)) else [])
    + (if deleteOk then [Delete(InboxEntry(me, friendUserId))] else [])
  }

  /** Responding never writes to the sender's subtree, nor anywhere outside the responder's. */
  lemma RespondStaysInOwnSubtree(me: Uid, friendUserId: Uid, friendUserName: string, status: int, deleteOk: bool)
    requires me != "" && friendUserId != me
    ensures forall op :: op in RespondOps(me, friendUserId, friendUserName, status, deleteOk) ==>
              OwnerOf(OpPath(op)) == Some(me) && OwnerOf(OpPath(op)) != Some(friendUserId)
  {
  }

  /** The user name `GetUsername` yields: the stored value's text, or "" when it is missing or the read fails. */
  function UsernameFrom(uid: Uid, read: Read): (name: string)
    ensures uid == "" || read.ReadFailed? || read.value.None? ==> name == ""
    ensures uid != "" && read.Got? && read.value.Some? ==> name == Display(read.value.value)
  {
    if uid == "" then ""
    else match read
      case ReadFailed => ""
      case Got(v) => if v.Some? then Display(v.value) else ""
  }

  /** The outbox record after the recipient's acceptance has been recorded on it (status 1). */
  function AcceptedRecord(username: string): Value {
    Obj(map["username" := Str(username), "status" := Int(Accepted)])
  }

  /**
   * The whole accepted handshake between a sender `a` and a recipient `b`:
   * `a` sends; `b` accepts (the inbox entry's text is the name it passes on);
   * the status of `a`'s outbox entry becomes 1 (a write this model takes as
   * given); `a` processes that change. Both friend edges then exist and no
   * request entry is left. The edge `a` writes carries the name stored in its
   * own outbox record, which is `a`'s own name.
   */
  lemma {:induction false} AcceptedHandshake(db: Db, a: Uid, b: Uid, nameA: string)
    requires a != "" && b != "" && a != b
    ensures
      var db1 := ApplyAll(db, SendOps(a, Some(nameA), b, true, true));
      InboxEntry(b, a) in db1 && Display(db1[InboxEntry(b, a)]) == nameA
    ensures
      var db1 := ApplyAll(db, SendOps(a, Some(nameA), b, true, true));
      var db2 := ApplyAll(db1, RespondOps(b, a, nameA, Accepted, true));
      var db3 := Apply(db2, Set(OutboxEntry(a, b), AcceptedRecord(nameA)));
      var db4 := ApplyAll(db3, ResponseChangedOps(a, Delivered(Snap(b, Some(AcceptedRecord(nameA))))));
      && FriendEntry(b, a) in db4 && db4[FriendEntry(b, a)] == Str(nameA)
      && FriendEntry(a, b) in db4 && db4[FriendEntry(a, b)] == Str(nameA)
      && InboxEntry(b, a) !in db4
      && OutboxEntry(a, b) !in db4
  {
    SendWrites(db, a, b, nameA);
    var db1 := ApplyAll(db, SendOps(a, Some(nameA), b, true, true));
    AcceptThenRecord(db1, a, b, nameA);
    var db2 := ApplyAll(db1, RespondOps(b, a, nameA, Accepted, true));
    var db3 := Apply(db2, Set(OutboxEntry(a, b), AcceptedRecord(nameA)));
    AcceptedChangeAfterAccept(db3, a, b, nameA);
  }

  /** The recipient's acceptance, then the record it leaves in the sender's outbox. */
  lemma AcceptThenRecord(db1: Db, a: Uid, b: Uid, nameA: string)
    requires a != "" && b != "" && a != b
    ensures var db2 := ApplyAll(db1, RespondOps(b, a, nameA, Accepted, true));
            var db3 := Apply(db2, Set(OutboxEntry(a, b), AcceptedRecord(nameA)));
            && FriendEntry(b, a) in db3 && db3[FriendEntry(b, a)] == Str(nameA)
            && InboxEntry(b, a) !in db3
  {
    AcceptWrites(db1, a, b, nameA);
    assert FriendEntry(b, a)[2] != OutboxEntry(a, b)[2];
    assert InboxEntry(b, a)[3] != OutboxEntry(a, b)[3];
  }

  /** The sender processing the accepted record keeps the recipient's side as it is. */
  lemma AcceptedChangeAfterAccept(db3: Db, a: Uid, b: Uid, nameA: string)
    requires a != "" && b != "" && a != b
    requires FriendEntry(b, a) in db3 && db3[FriendEntry(b, a)] == Str(nameA) && InboxEntry(b, a) !in db3
    ensures var db4 := ApplyAll(db3, ResponseChangedOps(a, Delivered(Snap(b, Some(AcceptedRecord(nameA))))));
            && FriendEntry(b, a) in db4 && db4[FriendEntry(b, a)] == Str(nameA)
            && FriendEntry(a, b) in db4 && db4[FriendEntry(a, b)] == Str(nameA)
            && InboxEntry(b, a) !in db4
            && OutboxEntry(a, b) !in db4
  {
    AcceptedChangeWrites(db3, a, b, nameA);
    assert FriendEntry(b, a)[1] != FriendEntry(a, b)[1];
    assert FriendEntry(a, b)[2] != OutboxEntry(a, b)[2];
    assert FriendEntry(a, b)[1] != InboxEntry(b, a)[1];
    assert FriendEntry(b, a)[1] != OutboxEntry(a, b)[1];
  }

  /** A complete send stores the sender's name in the recipient's inbox and a pending record in the own outbox. */
  lemma SendWrites(db: Db, a: Uid, b: Uid, nameA: string)
    requires a != ""
    ensures var db1 := ApplyAll(db, SendOps(a, Some(nameA), b, true, true));
            && InboxEntry(b, a) in db1 && db1[InboxEntry(b, a)] == Str(nameA)
            && OutboxEntry(a, b) in db1 && db1[OutboxEntry(a, b)] == OutboxRecord(nameA)
  {
    var ops1 := SendOps(a, Some(nameA), b, true, true);
    assert ops1 == [Set(InboxEntry(b, a), Str(nameA)), Set(OutboxEntry(a, b), OutboxRecord(nameA))];
    ApplyTwo(db, ops1[0], ops1[1]);
    assert InboxEntry(b, a)[3] != OutboxEntry(a, b)[3];
  }

  /** Accepting with a successful delete writes the own friend edge and removes the inbox entry. */
  lemma AcceptWrites(db: Db, a: Uid, b: Uid, nameA: string)
    requires b != ""
    ensures ApplyAll(db, RespondOps(b, a, nameA, Accepted, true)) ==
            Apply(Apply(db, Set(FriendEntry(b, a), Str(nameA))), Delete(InboxEntry(b, a)))
  {
    var ops2 := RespondOps(b, a, nameA, Accepted, true);
    assert ops2 == [Set(FriendEntry(b, a), Str(nameA)), Delete(InboxEntry(b, a))];
    ApplyTwo(db, ops2[0], ops2[1]);
  }

  /** Processing the accepted record writes the sender's friend edge and removes the outbox entry. */
  lemma AcceptedChangeWrites(db: Db, a: Uid, b: Uid, nameA: string)
    requires a != "" && b != ""
    ensures ApplyAll(db, ResponseChangedOps(a, Delivered(Snap(b, Some(AcceptedRecord(nameA)))))) ==
            Apply(Apply(db, Set(FriendEntry(a, b), Str(nameA))), Delete(OutboxEntry(a, b)))
  {
    var resp := ParseFriendResponse(Snap(b, Some(AcceptedRecord(nameA))));
    assert resp == Some(FriendResponse(b, Some(nameA), Accepted));
    var ops4 := ResponseChangedOps(a, Delivered(Snap(b, Some(AcceptedRecord(nameA)))));
    assert ops4 == [Set(FriendEntry(a, b), Str(nameA)), Delete(OutboxEntry(a, b))];
    ApplyTwo(db, ops4[0], ops4[1]);
  }

  class FriendRequestManager {
    /** The own uid ("" while unknown, standing for null or empty). */
    var myUserId: Uid
    /** The own user name; None until the first user name read completes. */
    var myUsername: Option<string>
    /** `Start` has run. */
    var started: bool
    /** `OnAuthStateChanged` is registered on the auth state: `Start` found no user and none has signed in since. */
    var waitingForAuth: bool
    /** The uid whose user name read (`GetUsername`) is in flight, if any. */
    var pendingRead: Option<Uid>
    /** The users whose inbox and outbox listeners were registered, in order. */
    var listenedFor: seq<Uid>

    constructor ()
      ensures myUserId == "" && myUsername.None?
      ensures !started && !waitingForAuth && pendingRead.None? && listenedFor == []
    {
      myUserId := "";
      myUsername := None;
      started := false;
      waitingForAuth := false;
      pendingRead := None;
      listenedFor := [];
    }

    /**
     * The manager is set up for at most one user: before `Start` nothing is
     * under way; while it waits for a sign-in no read and no listener exists;
     * and the read in flight and the registered listeners belong to one
     * initialisation at most.
     */
    ghost predicate Valid()
      reads this
    {
      && (!started ==> !waitingForAuth && pendingRead.None? && listenedFor == [])
      && (waitingForAuth ==> pendingRead.None? && listenedFor == [])
      && |listenedFor| + (if pendingRead.Some? then 1 else 0) <= 1
    }

    /**
     * `Start`: with a signed-in user, initialise for it; otherwise register
     * `OnAuthStateChanged` and wait.
     */
    method Start(current: Option<Uid>)
      requires Valid() && !started
      modifies this
      ensures Valid() && started
      ensures current.None? ==> waitingForAuth && myUserId == old(myUserId) && pendingRead.None?
      ensures current.Some? ==> !waitingForAuth && myUserId == current.value && pendingRead == Some(current.value)
      ensures myUsername == old(myUsername) && listenedFor == old(listenedFor)
    {
      started := true;
      if current.None? {
        waitingForAuth := true;
        return;
      }
      InitializeForUser(current.value);
    }

    /**
     * `OnAuthStateChanged`, reached only while registered: a sign-out is
     * ignored; the first signed-in user unregisters the handler and starts
     * the initialisation. Any later change of user reaches nothing, so the
     * manager stays bound to that first user.
     */
    method OnAuthStateChanged(current: Option<Uid>)
      requires Valid()
      modifies this
      ensures Valid()
      ensures !old(waitingForAuth) || current.None? ==>
                myUserId == old(myUserId) && waitingForAuth == old(waitingForAuth) && pendingRead == old(pendingRead)
      ensures old(waitingForAuth) && current.Some? ==>
                !waitingForAuth && myUserId == current.value && pendingRead == Some(current.value)
      ensures myUsername == old(myUsername) && listenedFor == old(listenedFor) && started == old(started)
    {
      if !waitingForAuth || current.None? {
        return;
      }
      waitingForAuth := false;
      InitializeForUser(current.value);
    }

    /** `InitializeForUser` up to its await: the uid is set and its user name read starts. */
    method InitializeForUser(uid: Uid)
      modifies this
      ensures myUserId == uid && pendingRead == Some(uid)
      ensures myUsername == old(myUsername) && listenedFor == old(listenedFor)
      ensures started == old(started) && waitingForAuth == old(waitingForAuth)
    {
      myUserId := uid;
      pendingRead := Some(uid);
    }

    /**
     * The rest of `InitializeForUser`, once `GetUsername` completed with
     * `username`: the name is stored and the inbox and outbox listeners are
     * registered under the current uid. Without a read in flight there is
     * no continuation to run.
     */
    method AfterUsernameRead(username: Read)
      requires Valid()
      modifies this
      ensures Valid()
      ensures old(pendingRead).None? ==>
                myUsername == old(myUsername) && listenedFor == old(listenedFor) && pendingRead.None?
      ensures old(pendingRead).Some? ==>
                && myUsername == Some(UsernameFrom(old(pendingRead).value, username))
                && listenedFor == old(listenedFor) + [myUserId]
                && pendingRead.None?
      ensures myUserId == old(myUserId) && started == old(started) && waitingForAuth == old(waitingForAuth)
    {
      if pendingRead.None? {
        return;
      }
      myUsername := Some(UsernameFrom(pendingRead.value, username));
      listenedFor := listenedFor + [myUserId];
      pendingRead := None;
    }

    /** `SendFriendRequest`: true exactly when both writes were made. */
    method SendFriendRequest(friendUserId: Uid, inboxOk: bool, outboxOk: bool) returns (ok: bool, ops: seq<StoreOp>)
      ensures ok <==> myUserId != "" && inboxOk && outboxOk
      ensures ops == SendOps(myUserId, myUsername, friendUserId, inboxOk, outboxOk)
      ensures ok ==> |ops| == 2
    {
      ops := SendOps(myUserId, myUsername, friendUserId, inboxOk, outboxOk);
      ok := myUserId != "" && inboxOk && outboxOk;
    }

    /**
     * `RespondFriendRequestAsync`: the response writes, and the uid passed to
     * `OnInboxRequestRemoved` when the inbox delete succeeded.
     */
    method RespondFriendRequestAsync(friendUserId: Uid, friendUserName: string, status: int,
                                     current: Option<Uid>, deleteOk: bool)
      returns (ops: seq<StoreOp>, removed: Option<Uid>)
      modifies this
      ensures myUsername == old(myUsername)
      ensures started == old(started) && waitingForAuth == old(waitingForAuth)
      ensures pendingRead == old(pendingRead) && listenedFor == old(listenedFor)
      ensures old(myUserId) != "" ==> myUserId == old(myUserId)
      ensures old(myUserId) == "" ==> myUserId == (if current.Some? then current.value else "")
      ensures myUserId == "" ==> ops == [] && removed.None?
      ensures myUserId != "" ==> ops == RespondOps(myUserId, friendUserId, friendUserName, status, deleteOk)
      ensures removed == (if myUserId != "" && deleteOk then Some(friendUserId) else None)
    {
      ops, removed := [], None;
      if myUserId == "" {
        if current.None? {
          return;
        }
        myUserId := current.value;
      }
      if myUserId == "" {
        return;
      }
      ops := RespondOps(myUserId, friendUserId, friendUserName, status, deleteOk);
      if deleteOk {
        removed := Some(friendUserId);
      }
    }

    method HandleFriendResponseAdded(ev: ChildEvent) returns (ops: seq<StoreOp>)
      ensures ops == ResponseAddedOps(myUserId, ev)
    {
      ops := ResponseAddedOps(myUserId, ev);
    }

    method HandleFriendResponseChanged(ev: ChildEvent) returns (ops: seq<StoreOp>)
      ensures ops == ResponseChangedOps(myUserId, ev)
    {
      ops := ResponseChangedOps(myUserId, ev);
    }

    /** `HandleFriendRequestAdded`: the (uid, name) raised through `OnInboxRequestAdded`. */
    method HandleFriendRequestAdded(ev: ChildEvent) returns (added: Option<(Uid, string)>)
      ensures added.Some? <==> ev.Delivered? && ev.snap.Exists()
      ensures added.Some? ==> added.value == (ev.snap.key, Display(ev.snap.value.value))
    {
      if ev.Delivered? && ev.snap.Exists() {
        added := Some((ev.snap.key, Display(ev.snap.value.value)));
      } else {
        added := None;
      }
    }

    /** `HandleFriendRequestRemoved`: the uid raised through `OnInboxRequestRemoved`. */
    method HandleFriendRequestRemoved(ev: ChildEvent) returns (removed: Option<Uid>)
      ensures removed.Some? <==> ev.Delivered?
      ensures removed.Some? ==> removed.value == ev.snap.key
    {
      removed := if ev.Delivered? then Some(ev.snap.key) else None;
    }
  }

  /**
   * Started before any sign-in, the manager initialises for the first user
   * `a`; a later switch to `b` leaves it bound to `a`: its uid stays `a` and
   * only `a`'s listeners are registered.
   */
  method SignInThenSwitch(a: Uid, b: Uid, username: Read) returns (m: FriendRequestManager)
    ensures m.myUserId == a && m.listenedFor == [a] && m.pendingRead.None?
    ensures m.myUsername == Some(UsernameFrom(a, username))
  {
    m := new FriendRequestManager();
    m.Start(None);
    m.OnAuthStateChanged(Some(a));
    m.AfterUsernameRead(username);
    m.OnAuthStateChanged(Some(b));
  }
}
