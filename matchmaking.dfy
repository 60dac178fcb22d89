/**
 * The matchmaking screen (`MatchmakingManager`): a list of online users to
 * challenge, a list of incoming match requests, the two subscriptions that
 * feed them, a main-thread queue drained by `Update` without catching, and
 * the two store actions: sending a match request and answering one.
 */
module Matchmaking {
  import opened Wrappers
  import opened Store
  import Labels

  const PendingState := "pending"

  /** The label a match row or an incoming-request row shows: the name, else the shortened uid. */
  function RowLabel(uid: Uid, name: string): (r: string)
    ensures name != "" ==> r == name
    ensures name == "" ==> r == Labels.ShortUid(uid)
  {
    Labels.LabelOr(name, Labels.ShortUid(uid))
  }

  /** The name of an online entry: its value's text, or "". */
  function OnlineName(snap: Snap): string {
    DisplayOpt(snap.value).GetOr("")
  }

  /**
   * The name of an incoming request: its value's text; only when there is no
   * value, the text of a "username" child (which then cannot exist), else "".
   */
  function IncomingName(snap: Snap): (name: string)
    ensures snap.value.Some? ==> name == Display(snap.value.value)
    ensures snap.value.None? ==> name == ""
  {
    if snap.value.Some? then Display(snap.value.value)
    else ""
  }

  /** A request stored as a record never shows its "username" field: the record's own text is used. */
  lemma RecordRequestShowsDictionaryText(key: Uid, fields: map<string, Value>)
    ensures IncomingName(Snap(key, Some(Obj(fields)))) == DictionaryText
  {
  }

  datatype Task =
    | Teardown
    | UnsubscribeOnline               // UnsubscribeOnlineSafe after a permission error
    | UnsubscribeIncoming             // UnsubscribeIncomingSafe after a permission error
    | SeedOnline(children: seq<Snap>)
    | SeedIncoming(children: seq<Snap>)
    | OnlineAdded(snap: Snap)
    | OnlineRemoved(key: Uid)
    | IncomingAdded(snap: Snap)
    | IncomingRemoved(key: Uid)

  datatype MatchState = MatchState(
    onlineConfigured: bool,           // match-row prefab and its content assigned
    incomingConfigured: bool,         // incoming-row prefab and its content assigned
    onlineRows: map<Uid, string>,     // uid -> row label
    incomingRows: map<Uid, string>,   // sender uid -> row label
    myUid: Option<Uid>,
    myUsername: string,
    onlineRef: Option<Path>,
    myRequestsRef: Option<Path>,
    attached: multiset<Path>)

  predicate Consistent(s: MatchState) {
    && "" !in s.onlineRows && "" !in s.incomingRows
    && (!s.onlineConfigured ==> s.onlineRows == map[])
    && (!s.incomingConfigured ==> s.incomingRows == map[])
  }

  /** `AddOnlineRowSafe`: never the empty uid, a listed uid or the user's own uid; needs the prefab. */
  function WithOnlineRow(s: MatchState, uid: Uid, name: string): (r: MatchState)
    ensures uid == "" || uid in s.onlineRows || Some(uid) == s.myUid || !s.onlineConfigured ==> r == s
    ensures !(uid == "" || uid in s.onlineRows || Some(uid) == s.myUid || !s.onlineConfigured) ==>
              r == s.(onlineRows := s.onlineRows[uid := RowLabel(uid, name)])
  {
    if uid == "" || uid in s.onlineRows || Some(uid) == s.myUid || !s.onlineConfigured then s
    else s.(onlineRows := s.onlineRows[uid := RowLabel(uid, name)])
  }

  /** `RemoveOnlineRowSafe`: an empty or absent uid changes nothing. */
  function WithoutOnlineRow(s: MatchState, uid: Uid): (r: MatchState)
    ensures uid == "" || uid !in s.onlineRows ==> r == s
    ensures uid != "" && uid in s.onlineRows ==> r == s.(onlineRows := s.onlineRows - {uid})
  {
    if uid == "" || uid !in s.onlineRows then s else s.(onlineRows := s.onlineRows - {uid})
  }

  /** `AddIncomingRowSafe`: never the empty uid or a listed one; needs the prefab. */
  function WithIncomingRow(s: MatchState, uid: Uid, name: string): (r: MatchState)
    ensures uid == "" || uid in s.incomingRows || !s.incomingConfigured ==> r == s
    ensures !(uid == "" || uid in s.incomingRows || !s.incomingConfigured) ==>
              r == s.(incomingRows := s.incomingRows[uid := RowLabel(uid, name)])
  {
    if uid == "" || uid in s.incomingRows || !s.incomingConfigured then s
    else s.(incomingRows := s.incomingRows[uid := RowLabel(uid, name)])
  }

  /** `RemoveIncomingRowSafe`: an empty or absent uid changes nothing. */
  function WithoutIncomingRow(s: MatchState, uid: Uid): (r: MatchState)
    ensures uid == "" || uid !in s.incomingRows ==> r == s
    ensures uid != "" && uid in s.incomingRows ==> r == s.(incomingRows := s.incomingRows - {uid})
  {
    if uid == "" || uid !in s.incomingRows then s else s.(incomingRows := s.incomingRows - {uid})
  }

  /** `UnsubscribeOnlineSafe`: detach and forget the ref, if there is one. */
  function OnlineDetached(s: MatchState): (r: MatchState)
    ensures r.onlineRef.None?
    ensures s.onlineRef.Some? ==> r == s.(attached := s.attached - multiset{s.onlineRef.value}, onlineRef := None)
    ensures s.onlineRef.None? ==> r == s
  {
    if s.onlineRef.Some? then s.(attached := s.attached - multiset{s.onlineRef.value}, onlineRef := None) else s
  }

  /** `UnsubscribeIncomingSafe`: detach and forget the ref, if there is one. */
  function IncomingDetached(s: MatchState): (r: MatchState)
    ensures r.myRequestsRef.None?
    ensures s.myRequestsRef.Some? ==> r == s.(attached := s.attached - multiset{s.myRequestsRef.value}, myRequestsRef := None)
    ensures s.myRequestsRef.None? ==> r == s
  {
    if s.myRequestsRef.Some? then s.(attached := s.attached - multiset{s.myRequestsRef.value}, myRequestsRef := None) else s
  }

  /** `Teardown`: both subscriptions detached, both lists emptied. */
  function TornDown(s: MatchState): (r: MatchState)
    ensures r.onlineRows == map[] && r.incomingRows == map[]
    ensures r.onlineRef.None? && r.myRequestsRef.None?
    ensures r.myUid == s.myUid && r.myUsername == s.myUsername
    ensures r.attached == IncomingDetached(OnlineDetached(s)).attached
  {
    IncomingDetached(OnlineDetached(s)).(onlineRows := map[], incomingRows := map[])
  }

  function SeededOnline(s: MatchState, children: seq<Snap>): MatchState
    decreases |children|
  {
    if children == [] then s
    else
      var last := children[|children| - 1];
      WithOnlineRow(SeededOnline(s, children[..|children| - 1]), last.key, OnlineName(last))
  }

  function SeededIncoming(s: MatchState, children: seq<Snap>): MatchState
    decreases |children|
  {
    if children == [] then s
    else
      var last := children[|children| - 1];
      WithIncomingRow(SeededIncoming(s, children[..|children| - 1]), last.key, IncomingName(last))
  }

  function Run(s: MatchState, t: Task): MatchState {
    match t
    case Teardown => TornDown(s)
    case UnsubscribeOnline => OnlineDetached(s)
    case UnsubscribeIncoming => IncomingDetached(s)
    case SeedOnline(children) => SeededOnline(s, children)
    case SeedIncoming(children) => SeededIncoming(s, children)
    case OnlineAdded(snap) => if !snap.Exists() then s else WithOnlineRow(s, snap.key, OnlineName(snap))
    case OnlineRemoved(key) => WithoutOnlineRow(s, key)
    case IncomingAdded(snap) => if !snap.Exists() then s else WithIncomingRow(s, snap.key, IncomingName(snap))
    case IncomingRemoved(key) => WithoutIncomingRow(s, key)
  }

  function RunAll(s: MatchState, ts: seq<Task>): MatchState
    decreases |ts|
  {
    if ts == [] then s else Run(RunAll(s, ts[..|ts| - 1]), ts[|ts| - 1])
  }

  lemma RunAllSnoc(s: MatchState, ts: seq<Task>, t: Task)
    ensures RunAll(s, ts + [t]) == Run(RunAll(s, ts), t)
  {
    assert (ts + [t])[..|ts|] == ts;
  }

  /** One more task of a drain: the state it leaves is that task run on the state before it. */
  lemma RunAllStep(s: MatchState, q: seq<Task>, i: nat)
    requires i < |q|
    ensures RunAll(s, q[..i + 1]) == Run(RunAll(s, q[..i]), q[i])
  {
    assert q[..i + 1] == q[..i] + [q[i]];
    RunAllSnoc(s, q[..i], q[i]);
  }

  lemma {:induction false} SeededOnlineKeepsConsistent(s: MatchState, children: seq<Snap>)
    requires Consistent(s)
    ensures Consistent(SeededOnline(s, children))
    ensures SeededOnline(s, children).(onlineRows := s.onlineRows) == s
    decreases |children|
  {
    if children != [] {
      SeededOnlineKeepsConsistent(s, children[..|children| - 1]);
    }
  }

  lemma {:induction false} SeededIncomingKeepsConsistent(s: MatchState, children: seq<Snap>)
    requires Consistent(s)
    ensures Consistent(SeededIncoming(s, children))
    ensures SeededIncoming(s, children).(incomingRows := s.incomingRows) == s
    decreases |children|
  {
    if children != [] {
      SeededIncomingKeepsConsistent(s, children[..|children| - 1]);
    }
  }

  lemma RunKeepsConsistent(s: MatchState, t: Task)
    requires Consistent(s)
    ensures Consistent(Run(s, t))
  {
    match t
    case SeedOnline(children) => SeededOnlineKeepsConsistent(s, children);
    case SeedIncoming(children) => SeededIncomingKeepsConsistent(s, children);
    case _ =>
  }

  lemma {:induction false} RunAllKeepsConsistent(s: MatchState, ts: seq<Task>)
    requires Consistent(s)
    ensures Consistent(RunAll(s, ts))
    decreases |ts|
  {
    if ts != [] {
      RunAllKeepsConsistent(s, ts[..|ts| - 1]);
      RunKeepsConsistent(RunAll(s, ts[..|ts| - 1]), ts[|ts| - 1]);
    }
  }

  /** The initial online load never lists the signed-in user. */
  lemma {:induction false} SeededOnlineExcludesSelf(s: MatchState, children: seq<Snap>)
    requires s.myUid.Some? && s.myUid.value !in s.onlineRows
    ensures s.myUid.value !in SeededOnline(s, children).onlineRows
    decreases |children|
  {
    if children != [] {
      SeededOnlineExcludesSelf(s, children[..|children| - 1]);
      SeededOnlineFrame(s, children[..|children| - 1]);
    }
  }

  lemma {:induction false} SeededOnlineFrame(s: MatchState, children: seq<Snap>)
    ensures SeededOnline(s, children).myUid == s.myUid
    decreases |children|
  {
    if children != [] {
      SeededOnlineFrame(s, children[..|children| - 1]);
    }
  }

  /** The payload of a match request: the own name, or the own uid when the name is empty. */
  function Payload(myUid: Uid, myUsername: string): (p: string)
    ensures myUsername != "" ==> p == myUsername
    ensures myUsername == "" ==> p == myUid
  {
    if myUsername == "" then myUid else myUsername
  }

  /**
   * `SendMatchRequest`: the writes that took effect. Nothing without both
   * uids; the request in the target's list first, then (if that write
   * succeeded) the copy in the own "matchRequests-outbox".
   */
  function SendMatchRequestOps(myUid: Option<Uid>, myUsername: string, targetUid: Uid, requestOk: bool, mirrorOk: bool): (ops: seq<StoreOp>)
    ensures myUid.None? || myUid.value == "" || targetUid == "" || !requestOk ==> ops == []
    ensures myUid.Some? && myUid.value != "" && targetUid != "" && requestOk ==>
              && |ops| == (if mirrorOk then 2 else 1)
              && ops[0] == Set(MatchRequestEntry(targetUid, myUid.value), Str(Payload(myUid.value, myUsername)))
              && (mirrorOk ==> ops[1] == Set(MatchRequestMirror(myUid.value, targetUid), Str(Payload(myUid.value, myUsername))))
  {
    if myUid.None? || myUid.value == "" || targetUid == "" || !requestOk then []
    else
      var payload := Str(Payload(myUid.value, myUsername));
      [Set(MatchRequestEntry(targetUid, myUid.value), payload)]
        + (if mirrorOk then [Set(MatchRequestMirror(myUid.value, targetUid), payload)] else [])
  }

  /** The record of a new match: both participants, state "pending", its creator and creation second. */
  function MatchRecord(me: Uid, sender: Uid, now: int): Value {
    Obj(map["participants" := Obj(map[me := Bool(true), sender := Bool(true)]),
            "state" := Str(PendingState),
            "createdBy" := Str(me),
            "createdAt" := Int(now)])
  }

  /**
   * `RespondMatchRequest`: the writes that took effect. Nothing without both
   * uids. The request is deleted first; only when that succeeded and the
   * answer is an accept is a match record written, under the pushed key
   * `matchKey`, stamped with `now`. A request from the user's own uid gets
   * no match: the participants dictionary would hold that uid twice, its
   * initializer throws, and the handler only logs.
   */
  function RespondMatchRequestOps(myUid: Option<Uid>, senderUid: Uid, accepted: bool, deleteOk: bool,
                                  matchKey: string, now: int, createOk: bool): (ops: seq<StoreOp>)
    ensures myUid.None? || myUid.value == "" || senderUid == "" || !deleteOk ==> ops == []
    ensures ops != [] ==> ops[0] == Delete(MatchRequestEntry(myUid.value, senderUid))
    ensures |ops| == 2 <==> myUid.Some? && myUid.value != "" && senderUid != "" && deleteOk && accepted && createOk
                            && senderUid != myUid.value
    ensures |ops| == 2 ==> ops[1] == Set(MatchEntry(matchKey), MatchRecord(myUid.value, senderUid, now))
    ensures |ops| <= 2
  {
    if myUid.None? || myUid.value == "" || senderUid == "" || !deleteOk then []
    else
      [Delete(MatchRequestEntry(myUid.value, senderUid))]
        + (if accepted && createOk && senderUid != myUid.value
           then [Set(MatchEntry(matchKey), MatchRecord(myUid.value, senderUid, now))] else [])
  }

  /** Accepting a request from the own uid only deletes it: no match record is written. */
  lemma SelfAcceptOnlyDeletes(me: Uid, deleteOk: bool, matchKey: string, now: int, createOk: bool)
    requires me != ""
    ensures var ops := RespondMatchRequestOps(Some(me), me, true, deleteOk, matchKey, now, createOk);
            ops == if deleteOk then [Delete(MatchRequestEntry(me, me))] else []
  {
  }

  /** A rejection deletes the request and writes nothing else: no match record appears. */
  lemma RejectCreatesNoMatch(db: Db, me: Uid, sender: Uid, deleteOk: bool, matchKey: string, now: int, createOk: bool)
    ensures var db1 := ApplyAll(db, RespondMatchRequestOps(Some(me), sender, false, deleteOk, matchKey, now, createOk));
            forall p :: p in db1 ==> p in db && db1[p] == db[p]
  {
    var ops := RespondMatchRequestOps(Some(me), sender, false, deleteOk, matchKey, now, createOk);
    if ops != [] {
      assert ops == [Delete(MatchRequestEntry(me, sender))];
      assert ops[..0] == [];
    }
  }

  /**
   * A request sent by `a` and accepted by another user `b`: afterwards the request entry
   * is gone and the match lists both of them, created by `b`, pending.
   */
  lemma AcceptedMatchHandshake(db: Db, a: Uid, b: Uid, nameA: string, key: string, now: int)
    requires a != "" && b != "" && a != b
    ensures var db1 := ApplyAll(db, SendMatchRequestOps(Some(a), nameA, b, true, true));
            var db2 := ApplyAll(db1, RespondMatchRequestOps(Some(b), a, true, true, key, now, true));
            && MatchRequestEntry(b, a) !in db2
            && MatchEntry(key) in db2
            && db2[MatchEntry(key)].Obj?
            && db2[MatchEntry(key)].fields["participants"] == Obj(map[b := Bool(true), a := Bool(true)])
            && db2[MatchEntry(key)].fields["createdBy"] == Str(b)
            && db2[MatchEntry(key)].fields["state"] == Str(PendingState)
  {
    var ops2 := RespondMatchRequestOps(Some(b), a, true, true, key, now, true);
    assert ops2 == [Delete(MatchRequestEntry(b, a)), Set(MatchEntry(key), MatchRecord(b, a, now))];
    var db1 := ApplyAll(db, SendMatchRequestOps(Some(a), nameA, b, true, true));
    ApplyTwo(db1, ops2[0], ops2[1]);
    assert MatchRequestEntry(b, a)[0] != MatchEntry(key)[0];
  }
}

module MatchmakingControllers {
  import opened Wrappers
  import opened Store
  import Auth
  import MainQueue
  import opened Matchmaking

  class MatchmakingManager {
    const onlineConfigured: bool
    const incomingConfigured: bool
    var onlineRows: map<Uid, string>
    var incomingRows: map<Uid, string>
    var myUid: Option<Uid>
    var myUsername: string
    var onlineRef: Option<Path>
    var myRequestsRef: Option<Path>
    var attached: multiset<Path>
    var mainQueue: seq<Task>

    function State(): MatchState
      reads this
    {
      MatchState(onlineConfigured, incomingConfigured, onlineRows, incomingRows, myUid, myUsername, onlineRef, myRequestsRef, attached)
    }

    ghost predicate Valid()
      reads this
    {
      Consistent(State())
    }

    constructor (onlineConfigured: bool, incomingConfigured: bool)
      ensures State() == MatchState(onlineConfigured, incomingConfigured, map[], map[], None, "", None, None, multiset{})
      ensures mainQueue == [] && Valid()
    {
      this.onlineConfigured := onlineConfigured;
      this.incomingConfigured := incomingConfigured;
      onlineRows := map[];
      incomingRows := map[];
      myUid := None;
      myUsername := "";
      onlineRef := None;
      myRequestsRef := None;
      attached := multiset{};
      mainQueue := [];
    }

    method Enqueue(t: Task)
      modifies this
      ensures State() == old(State()) && mainQueue == old(mainQueue) + [t]
    {
      mainQueue := mainQueue + [t];
    }

    method AddOnlineRowSafe(uid: Uid, username: string)
      modifies this
      ensures State() == WithOnlineRow(old(State()), uid, username) && mainQueue == old(mainQueue)
    {
      if uid == "" || uid in onlineRows || Some(uid) == myUid {
        return;
      }
      if !onlineConfigured {
        return;
      }
      onlineRows := onlineRows[uid := RowLabel(uid, username)];
    }

    method RemoveOnlineRowSafe(uid: Uid)
      modifies this
      ensures State() == WithoutOnlineRow(old(State()), uid) && mainQueue == old(mainQueue)
    {
      if uid == "" || uid !in onlineRows {
        return;
      }
      onlineRows := onlineRows - {uid};
    }

    method AddIncomingRowSafe(uid: Uid, username: string)
      modifies this
      ensures State() == WithIncomingRow(old(State()), uid, username) && mainQueue == old(mainQueue)
    {
      if uid == "" || uid in incomingRows {
        return;
      }
      if !incomingConfigured {
        return;
      }
      incomingRows := incomingRows[uid := RowLabel(uid, username)];
    }

    method RemoveIncomingRowSafe(uid: Uid)
      modifies this
      ensures State() == WithoutIncomingRow(old(State()), uid) && mainQueue == old(mainQueue)
    {
      if uid == "" || uid !in incomingRows {
        return;
      }
      incomingRows := incomingRows - {uid};
    }

    method UnsubscribeOnlineSafe()
      modifies this
      ensures State() == OnlineDetached(old(State())) && mainQueue == old(mainQueue)
    {
      if onlineRef.Some? {
        attached := attached - multiset{onlineRef.value};
        onlineRef := None;
      }
    }

    method UnsubscribeIncomingSafe()
      modifies this
      ensures State() == IncomingDetached(old(State())) && mainQueue == old(mainQueue)
    {
      if myRequestsRef.Some? {
        attached := attached - multiset{myRequestsRef.value};
        myRequestsRef := None;
      }
    }

    method Teardown()
      modifies this
      ensures State() == TornDown(old(State())) && mainQueue == old(mainQueue)
    {
      UnsubscribeOnlineSafe();
      UnsubscribeIncomingSafe();
      onlineRows := map[];
      incomingRows := map[];
    }

    /** The online listener's first snapshot: a row per child, in order. */
    method SeedOnlineRows(children: seq<Snap>)
      modifies this
      ensures State() == SeededOnline(old(State()), children) && mainQueue == old(mainQueue)
    {
      var i := 0;
      while i < |children|
        invariant 0 <= i <= |children|
        invariant State() == SeededOnline(old(State()), children[..i]) && mainQueue == old(mainQueue)
      {
        AddOnlineRowSafe(children[i].key, OnlineName(children[i]));
        assert children[..i + 1][..i] == children[..i];
        i := i + 1;
      }
      assert children[..i] == children;
    }

    /** The incoming listener's first snapshot: a row per child, in order. */
    method SeedIncomingRows(children: seq<Snap>)
      modifies this
      ensures State() == SeededIncoming(old(State()), children) && mainQueue == old(mainQueue)
    {
      var i := 0;
      while i < |children|
        invariant 0 <= i <= |children|
        invariant State() == SeededIncoming(old(State()), children[..i]) && mainQueue == old(mainQueue)
      {
        AddIncomingRowSafe(children[i].key, IncomingName(children[i]));
        assert children[..i + 1][..i] == children[..i];
        i := i + 1;
      }
      assert children[..i] == children;
    }

    method RunTask(t: Task)
      modifies this
      ensures State() == Run(old(State()), t) && mainQueue == old(mainQueue)
    {
      match t
      case Teardown => Teardown();
      case UnsubscribeOnline => UnsubscribeOnlineSafe();
      case UnsubscribeIncoming => UnsubscribeIncomingSafe();
      case SeedOnline(children) => SeedOnlineRows(children);
      case SeedIncoming(children) => SeedIncomingRows(children);
      case OnlineAdded(snap) =>
        if snap.Exists() {
          AddOnlineRowSafe(snap.key, OnlineName(snap));
        }
      case OnlineRemoved(key) => RemoveOnlineRowSafe(key);
      case IncomingAdded(snap) =>
        if snap.Exists() {
          AddIncomingRowSafe(snap.key, IncomingName(snap));
        }
      case IncomingRemoved(key) => RemoveIncomingRowSafe(key);
    }

    /**
     * `Update`: run the queued tasks in order. A task that throws (`faults`
     * holds the positions that do) ends the drain; it is lost and the tasks
     * behind it wait for the next frame.
     */
    method Update(faults: set<nat>)
      requires Valid()
      modifies this
      ensures Valid()
      ensures var k := MainQueue.FirstFault(faults, |old(mainQueue)|);
              && State() == RunAll(old(State()), old(mainQueue)[..k])
              && mainQueue == (if k < |old(mainQueue)| then old(mainQueue)[k + 1..] else [])
    {
      var q := mainQueue;
      var k := MainQueue.FirstFault(faults, |q|);
      ghost var s0 := State();
      var i := 0;
      while i < k
        invariant 0 <= i <= k
        invariant mainQueue == q[i..]
        invariant State() == RunAll(s0, q[..i])
      {
        DrainOne(q, i, s0);
        i := i + 1;
      }
      if k < |q| {
        mainQueue := mainQueue[1..];
      }
      RunAllKeepsConsistent(s0, q[..k]);
    }

    /** One turn of the loop of `Update`: dequeue the next task and run it. */
    method DrainOne(ghost q: seq<Task>, i: nat, ghost s0: MatchState)
      requires i < |q| && mainQueue == q[i..]
      requires State() == RunAll(s0, q[..i])
      modifies this
      ensures mainQueue == q[i + 1..]
      ensures State() == RunAll(s0, q[..i + 1])
    {
      var t := mainQueue[0];
      mainQueue := mainQueue[1..];
      RunAllStep(s0, q, i);
      RunTask(t);
    }

    /** `Online_Added`: a delivery is queued; a permission error queues the online unsubscribe. */
    method OnlineAddedEvent(ev: ChildEvent)
      modifies this
      ensures State() == old(State())
      ensures ev.Delivered? ==> mainQueue == old(mainQueue) + [OnlineAdded(ev.snap)]
      ensures ev.Failed? ==> mainQueue == old(mainQueue) + (if ev.permissionDenied then [UnsubscribeOnline] else [])
    {
      match ev
      case Failed(permissionDenied) =>
        if permissionDenied {
          Enqueue(UnsubscribeOnline);
        }
      case Delivered(snap) => Enqueue(OnlineAdded(snap));
    }

    method OnlineRemovedEvent(ev: ChildEvent)
      modifies this
      ensures State() == old(State())
      ensures ev.Delivered? ==> mainQueue == old(mainQueue) + [OnlineRemoved(ev.snap.key)]
      ensures ev.Failed? ==> mainQueue == old(mainQueue) + (if ev.permissionDenied then [UnsubscribeOnline] else [])
    {
      match ev
      case Failed(permissionDenied) =>
        if permissionDenied {
          Enqueue(UnsubscribeOnline);
        }
      case Delivered(snap) => Enqueue(OnlineRemoved(snap.key));
    }

    method IncomingAddedEvent(ev: ChildEvent)
      modifies this
      ensures State() == old(State())
      ensures ev.Delivered? ==> mainQueue == old(mainQueue) + [IncomingAdded(ev.snap)]
      ensures ev.Failed? ==> mainQueue == old(mainQueue) + (if ev.permissionDenied then [UnsubscribeIncoming] else [])
    {
      match ev
      case Failed(permissionDenied) =>
        if permissionDenied {
          Enqueue(UnsubscribeIncoming);
        }
      case Delivered(snap) => Enqueue(IncomingAdded(snap));
    }

    method IncomingRemovedEvent(ev: ChildEvent)
      modifies this
      ensures State() == old(State())
      ensures ev.Delivered? ==> mainQueue == old(mainQueue) + [IncomingRemoved(ev.snap.key)]
      ensures ev.Failed? ==> mainQueue == old(mainQueue) + (if ev.permissionDenied then [UnsubscribeIncoming] else [])
    {
      match ev
      case Failed(permissionDenied) =>
        if permissionDenied {
          Enqueue(UnsubscribeIncoming);
        }
      case Delivered(snap) => Enqueue(IncomingRemoved(snap.key));
    }

    /** The synchronous start of `InitializeForUser`: always queue a teardown, then switch uid. */
    method InitializeForUser(uid: Uid)
      modifies this
      ensures State() == old(State()).(myUid := Some(uid))
      ensures mainQueue == old(mainQueue) + [Task.Teardown]
    {
      Enqueue(Task.Teardown);
      myUid := Some(uid);
    }

    /**
     * `InitializeForUser` with the teardown done at once instead of queued,
     * so that it cannot run after the new user's listeners are attached.
     */
    method InitializeForUserTearingDownFirst(uid: Uid)
      modifies this
      ensures State() == TornDown(old(State())).(myUid := Some(uid)) && mainQueue == old(mainQueue)
    {
      Teardown();
      myUid := Some(uid);
    }

    /**
     * After the own name read (which follows a successful token check): keep
     * the name, then attach to the online list.
     */
    method AfterUsernameRead(read: Read)
      modifies this
      ensures State() == old(State()).(
                myUsername := if read.Got? && read.value.Some? then Display(read.value.value) else "",
                onlineRef := Some(UsersOnline),
                attached := old(attached) + multiset{UsersOnline})
      ensures mainQueue == old(mainQueue)
    {
      if read.Got? && read.value.Some? {
        myUsername := Display(read.value.value);
      } else {
        myUsername := "";
      }
      onlineRef := Some(UsersOnline);
      attached := attached + multiset{UsersOnline};
    }

    /**
     * The online load completed: queue the seed (a failure is only logged),
     * then attach to the own incoming requests.
     */
    method AfterOnlineLoad(load: Load)
      modifies this
      ensures State() == old(State()).(
                myRequestsRef := Some(MatchRequestsList(old(myUid).GetOr(""))),
                attached := old(attached) + multiset{MatchRequestsList(old(myUid).GetOr(""))})
      ensures mainQueue == old(mainQueue) + (if load.Loaded? then [SeedOnline(load.children)] else [])
    {
      if load.Loaded? {
        Enqueue(SeedOnline(load.children));
      }
      var path := MatchRequestsList(myUid.GetOr(""));
      myRequestsRef := Some(path);
      attached := attached + multiset{path};
    }

    /** The incoming-requests load completed: queue the seed; a failure is only logged. */
    method AfterIncomingLoad(load: Load)
      modifies this
      ensures State() == old(State())
      ensures mainQueue == old(mainQueue) + (if load.Loaded? then [SeedIncoming(load.children)] else [])
    {
      if load.Loaded? {
        Enqueue(SeedIncoming(load.children));
      }
    }

    /**
     * `OnAuthStateChanged`: a sign-out queues a teardown and forgets the uid;
     * the same uid is ignored (subscribed or not); any other starts
     * `InitializeForUser`.
     */
    method OnAuthStateChanged(current: Option<Uid>) returns (initStarted: bool)
      modifies this
      ensures current.None? ==> !initStarted && State() == old(State()).(myUid := None)
      ensures current.None? ==> mainQueue == old(mainQueue) + [Task.Teardown]
      ensures current.Some? && old(myUid) == current ==> !initStarted && State() == old(State()) && mainQueue == old(mainQueue)
      ensures current.Some? && old(myUid) != current ==>
                initStarted && State() == old(State()).(myUid := current) && mainQueue == old(mainQueue) + [Task.Teardown]
    {
      if current.None? {
        Enqueue(Task.Teardown);
        myUid := None;
        return false;
      }
      if myUid == current {
        return false;
      }
      InitializeForUser(current.value);
      return true;
    }

    /** `SendMatchRequest`: the writes that took effect, given each awaited write's outcome. */
    method SendMatchRequest(targetUid: Uid, targetName: string, requestOk: bool, mirrorOk: bool) returns (ops: seq<StoreOp>)
      ensures ops == SendMatchRequestOps(myUid, myUsername, targetUid, requestOk, mirrorOk)
    {
      if myUid.None? || myUid.value == "" || targetUid == "" {
        return [];
      }
      var payload := if myUsername == "" then myUid.value else myUsername;
      if !requestOk {
        return [];
      }
      ops := [Set(MatchRequestEntry(targetUid, myUid.value), Str(payload))];
      if mirrorOk {
        ops := ops + [Set(MatchRequestMirror(myUid.value, targetUid), Str(payload))];
      }
    }

    /** `RespondMatchRequest`: the writes that took effect; `matchKey` is the pushed key, `now` the clock. */
    method RespondMatchRequest(senderUid: Uid, accepted: bool, deleteOk: bool, matchKey: string, now: int, createOk: bool)
      returns (ops: seq<StoreOp>)
      ensures ops == RespondMatchRequestOps(myUid, senderUid, accepted, deleteOk, matchKey, now, createOk)
    {
      if myUid.None? || myUid.value == "" || senderUid == "" {
        return [];
      }
      if !deleteOk {
        return [];
      }
      ops := [Delete(MatchRequestEntry(myUid.value, senderUid))];
      if accepted && createOk && senderUid != myUid.value {
        ops := ops + [Set(MatchEntry(matchKey), MatchRecord(myUid.value, senderUid, now))];
      }
    }

    /** `OnDestroy` tears down at once. */
    method OnDestroy()
      modifies this
      ensures State() == TornDown(old(State())) && mainQueue == old(mainQueue)
    {
      Teardown();
    }
  }

  function TokenOk(uid: Uid): Auth.AuthEnv {
    Auth.AuthEnv(Some(uid), Some(uid), true, true)
  }

  /**
   * The first sign-in of `a`, where the token check, the name read and both
   * (failing) loads complete before the next `Update`: the teardown queued
   * at the start then runs last and detaches both new subscriptions. Had
   * the loads succeeded, their seeds would run after the teardown and the
   * rows would stay shown with nothing listened to.
   */
  method FirstSignInBeforeDrain(a: Uid) returns (listening: bool)
    ensures !listening
  {
    var c := new MatchmakingManager(true, true);
    var started := c.OnAuthStateChanged(Some(a));
    assert Auth.EnsureAuthToken(TokenOk(a)).ok;
    c.AfterUsernameRead(ReadFailed);
    c.AfterOnlineLoad(LoadFailed(false));
    c.AfterIncomingLoad(LoadFailed(false));
    assert c.mainQueue == [Task.Teardown];
    assert c.attached == multiset{UsersOnline, MatchRequestsList(a)};
    ghost var before := c.State();
    c.Update({});
    assert MainQueue.FirstFault({}, 1) == 1;
    assert [Teardown][..1] == [Task.Teardown];
    assert c.State() == TornDown(before);
    listening := c.attached != multiset{};
  }

  /** The same sign-in with the teardown done at once: both subscriptions stay. */
  method FirstSignInTearingDownFirst(a: Uid) returns (listening: bool)
    ensures listening
  {
    var c := new MatchmakingManager(true, true);
    c.InitializeForUserTearingDownFirst(a);
    c.AfterUsernameRead(ReadFailed);
    c.AfterOnlineLoad(LoadFailed(false));
    c.AfterIncomingLoad(LoadFailed(false));
    c.Update({});
    listening := c.attached != multiset{};
  }
}
