/**
 * The friends list (`FriendsListController`): one row per friend uid
 * labelled with the stored name, a counter "Amigos (n)", a subscription to
 * the own friends list set up once in `Start`, a main-thread queue that
 * `Update` drains without catching, and the unfriend action.
 */
module FriendList {
  import opened Wrappers
  import opened Store
  import Text

  function CounterLabel(n: nat): string {
    "Amigos (" + Text.NatToString(n) + ")"
  }

  /** The name a friends entry carries: its value's text, or "" without a value. */
  function FriendName(snap: Snap): string {
    DisplayOpt(snap.value).GetOr("")
  }

  datatype Task =
    | FullCleanup                     // UnsubscribeFromFriends after a permission error
    | SeedRows(children: seq<Snap>)   // the initial load
    | ApplyAdded(snap: Snap)
    | ApplyRemoved(key: Uid)

  datatype FriendsState = FriendsState(
    configured: bool,
    rows: map<Uid, string>,           // friend uid -> row label
    counterText: string,
    myUid: Option<Uid>,
    friendsRef: Option<Path>,
    dbSubscribed: bool,
    attached: multiset<Path>)

  predicate Consistent(s: FriendsState) {
    && (s.rows != map[] ==> s.counterText == CounterLabel(|s.rows|))
    && (!s.configured ==> s.rows == map[])
    && (s.dbSubscribed ==> s.friendsRef.Some?)
  }

  /** `IsAuthorizedForFriends`: a user is signed in and it is the one the list was set up for. */
  predicate Authorized(s: FriendsState, current: Option<Uid>) {
    current.Some? && s.myUid == current
  }

  /** `AddRow`: a listed uid, or a list without a prefab, changes nothing; the row shows the name as given. */
  function WithRow(s: FriendsState, uid: Uid, name: string): (r: FriendsState)
    ensures uid in s.rows || !s.configured ==> r == s
    ensures uid !in s.rows && s.configured ==>
              r == s.(rows := s.rows[uid := name], counterText := CounterLabel(|s.rows| + 1))
  {
    if uid in s.rows || !s.configured then s
    else
      var rows := s.rows[uid := name];
      s.(rows := rows, counterText := CounterLabel(|rows|))
  }

  /** `RemoveRow`: an absent uid changes nothing; otherwise exactly that row goes. */
  function WithoutRow(s: FriendsState, uid: Uid): (r: FriendsState)
    ensures uid !in s.rows ==> r == s
    ensures uid in s.rows ==> r == s.(rows := s.rows - {uid}, counterText := CounterLabel(|s.rows| - 1))
  {
    if uid !in s.rows then s
    else
      var rows := s.rows - {uid};
      s.(rows := rows, counterText := CounterLabel(|rows|))
  }

  /** `UnsubscribeFromFriends`: detach (when subscribed), forget the ref, drop every row. */
  function CleanedUp(s: FriendsState): (r: FriendsState)
    ensures r.rows == map[] && r.counterText == CounterLabel(0)
    ensures !r.dbSubscribed && r.friendsRef.None? && r.myUid == s.myUid
    ensures s.friendsRef.Some? && s.dbSubscribed ==> r.attached == s.attached - multiset{s.friendsRef.value}
    ensures !(s.friendsRef.Some? && s.dbSubscribed) ==> r.attached == s.attached
  {
    s.(attached := if s.friendsRef.Some? && s.dbSubscribed then s.attached - multiset{s.friendsRef.value} else s.attached,
       dbSubscribed := false, friendsRef := None, rows := map[], counterText := CounterLabel(0))
  }

  function Seeded(s: FriendsState, children: seq<Snap>): FriendsState
    decreases |children|
  {
    if children == [] then s
    else
      var last := children[|children| - 1];
      WithRow(Seeded(s, children[..|children| - 1]), last.key, FriendName(last))
  }

  /**
   * One queued task, `current` being the signed-in user when it runs. The
   * initial load is not checked against the user; deliveries are.
   */
  function Run(s: FriendsState, t: Task, current: Option<Uid>): FriendsState {
    match t
    case FullCleanup => CleanedUp(s)
    case SeedRows(children) =>
      var r := Seeded(s, children);
      r.(counterText := CounterLabel(|r.rows|))
    case ApplyAdded(snap) =>
      if !Authorized(s, current) then s else WithRow(s, snap.key, FriendName(snap))
    case ApplyRemoved(key) =>
      if !Authorized(s, current) then s else WithoutRow(s, key)
  }

  function RunAll(s: FriendsState, ts: seq<Task>, current: Option<Uid>): FriendsState
    decreases |ts|
  {
    if ts == [] then s else Run(RunAll(s, ts[..|ts| - 1], current), ts[|ts| - 1], current)
  }

  lemma RunAllSnoc(s: FriendsState, ts: seq<Task>, t: Task, current: Option<Uid>)
    ensures RunAll(s, ts + [t], current) == Run(RunAll(s, ts, current), t, current)
  {
    assert (ts + [t])[..|ts|] == ts;
  }

  /**
   * `Unfriend`: nothing without both uids; otherwise delete the own edge and
   * the reciprocal one, in that order (neither write is awaited).
   */
  function UnfriendOps(myUid: Option<Uid>, otherUid: Uid): (ops: seq<StoreOp>)
    ensures myUid.None? || myUid.value == "" || otherUid == "" ==> ops == []
    ensures myUid.Some? && myUid.value != "" && otherUid != "" ==>
              ops == [Delete(FriendEntry(myUid.value, otherUid)), Delete(FriendEntry(otherUid, myUid.value))]
  {
    if myUid.None? || myUid.value == "" || otherUid == "" then []
    else [Delete(FriendEntry(myUid.value, otherUid)), Delete(FriendEntry(otherUid, myUid.value))]
  }

  /** After an unfriend neither edge between the two users exists, and no other entry changed. */
  lemma UnfriendRemovesBothEdges(db: Db, a: Uid, b: Uid)
    requires a != "" && b != ""
    ensures var db1 := ApplyAll(db, UnfriendOps(Some(a), b));
            && FriendEntry(a, b) !in db1 && FriendEntry(b, a) !in db1
            && forall p :: p in db && p != FriendEntry(a, b) && p != FriendEntry(b, a) ==> p in db1 && db1[p] == db[p]
  {
    var ops := UnfriendOps(Some(a), b);
    ApplyTwo(db, ops[0], ops[1]);
  }

  lemma {:induction false} SeededFrame(s: FriendsState, children: seq<Snap>)
    ensures Seeded(s, children).(rows := s.rows, counterText := s.counterText) == s
    decreases |children|
  {
    if children != [] {
      SeededFrame(s, children[..|children| - 1]);
    }
  }

  lemma {:induction false} SeededKeepsConsistent(s: FriendsState, children: seq<Snap>)
    requires Consistent(s)
    ensures Consistent(Seeded(s, children))
    decreases |children|
  {
    if children != [] {
      SeededKeepsConsistent(s, children[..|children| - 1]);
      SeededFrame(s, children[..|children| - 1]);
    }
  }

  /** Every task keeps the counter in step with the rows. */
  lemma RunKeepsConsistent(s: FriendsState, t: Task, current: Option<Uid>)
    requires Consistent(s)
    ensures Consistent(Run(s, t, current))
  {
    if t.SeedRows? {
      SeededKeepsConsistent(s, t.children);
      SeededFrame(s, t.children);
    }
  }

  lemma {:induction false} RunAllKeepsConsistent(s: FriendsState, ts: seq<Task>, current: Option<Uid>)
    requires Consistent(s)
    ensures Consistent(RunAll(s, ts, current))
    decreases |ts|
  {
    if ts != [] {
      RunAllKeepsConsistent(s, ts[..|ts| - 1], current);
      RunKeepsConsistent(RunAll(s, ts[..|ts| - 1], current), ts[|ts| - 1], current);
    }
  }

  /** Deliveries change nothing unless the signed-in user is the one the list was set up for. */
  lemma UnauthorizedDeliveriesIgnored(s: FriendsState, t: Task, current: Option<Uid>)
    requires t.ApplyAdded? || t.ApplyRemoved?
    requires current.None? || s.myUid != current
    ensures Run(s, t, current) == s
  {
  }

  /** An added friend that is then removed leaves the list as it was, apart from the counter text. */
  lemma AddThenRemove(s: FriendsState, snap: Snap, current: Option<Uid>)
    requires Authorized(s, current) && s.configured && snap.key !in s.rows
    ensures Run(Run(s, ApplyAdded(snap), current), ApplyRemoved(snap.key), current).rows == s.rows
  {
    assert s.rows[snap.key := FriendName(snap)] - {snap.key} == s.rows;
  }

  /** Adding a uid twice leaves the first row. */
  lemma WithRowTwice(s: FriendsState, uid: Uid, name: string, name2: string)
    ensures WithRow(WithRow(s, uid, name), uid, name2) == WithRow(s, uid, name)
  {
  }
}

module FriendListControllers {
  import opened Wrappers
  import opened Store
  import Auth
  import MainQueue
  import opened FriendList

  class FriendsListController {
    const configured: bool
    var rows: map<Uid, string>
    var counterText: string
    var myUid: Option<Uid>
    var friendsRef: Option<Path>
    var dbSubscribed: bool
    var attached: multiset<Path>
    var mainQueue: seq<Task>

    function State(): FriendsState
      reads this
    {
      FriendsState(configured, rows, counterText, myUid, friendsRef, dbSubscribed, attached)
    }

    ghost predicate Valid()
      reads this
    {
      Consistent(State())
    }

    constructor (configured: bool, counterText: string)
      ensures State() == FriendsState(configured, map[], counterText, None, None, false, multiset{})
      ensures mainQueue == [] && Valid()
    {
      this.configured := configured;
      rows := map[];
      this.counterText := counterText;
      myUid := None;
      friendsRef := None;
      dbSubscribed := false;
      attached := multiset{};
      mainQueue := [];
    }

    method EnqueueOnMainThread(t: Task)
      modifies this
      ensures State() == old(State()) && mainQueue == old(mainQueue) + [t]
    {
      mainQueue := mainQueue + [t];
    }

    method UpdateCounter()
      modifies this
      ensures State() == old(State()).(counterText := CounterLabel(|rows|)) && mainQueue == old(mainQueue)
    {
      counterText := CounterLabel(|rows|);
    }

    method AddRow(uid: Uid, username: string)
      modifies this
      ensures State() == WithRow(old(State()), uid, username) && mainQueue == old(mainQueue)
    {
      if uid in rows {
        return;
      }
      if !configured {
        return;
      }
      rows := rows[uid := username];
      UpdateCounter();
    }

    method RemoveRow(uid: Uid)
      modifies this
      ensures State() == WithoutRow(old(State()), uid) && mainQueue == old(mainQueue)
    {
      if uid !in rows {
        return;
      }
      rows := rows - {uid};
      UpdateCounter();
    }

    method UnsubscribeFromFriends()
      modifies this
      ensures State() == CleanedUp(old(State())) && mainQueue == old(mainQueue)
    {
      if friendsRef.Some? && dbSubscribed {
        attached := attached - multiset{friendsRef.value};
      }
      dbSubscribed, friendsRef := false, None;
      rows := map[];
      UpdateCounter();
    }

    /** `Unfriend`: the writes issued; the rows change only when the removal is delivered. */
    method Unfriend(otherUid: Uid) returns (ops: seq<StoreOp>)
      ensures ops == UnfriendOps(myUid, otherUid)
    {
      if myUid.None? || myUid.value == "" || otherUid == "" {
        return [];
      }
      ops := [Delete(FriendEntry(myUid.value, otherUid))];
      ops := ops + [Delete(FriendEntry(otherUid, myUid.value))];
    }

    method RunTask(t: Task, current: Option<Uid>)
      modifies this
      ensures State() == Run(old(State()), t, current) && mainQueue == old(mainQueue)
    {
      match t
      case FullCleanup => UnsubscribeFromFriends();
      case SeedRows(children) =>
        var i := 0;
        while i < |children|
          invariant 0 <= i <= |children|
          invariant State() == Seeded(old(State()), children[..i]) && mainQueue == old(mainQueue)
        {
          AddRow(children[i].key, FriendName(children[i]));
          assert children[..i + 1][..i] == children[..i];
          i := i + 1;
        }
        assert children[..i] == children;
        UpdateCounter();
      case ApplyAdded(snap) =>
        if current.None? || myUid != current {
          return;
        }
        AddRow(snap.key, FriendName(snap));
      case ApplyRemoved(key) =>
        if current.None? || myUid != current {
          return;
        }
        RemoveRow(key);
    }

    /**
     * `Update`: run the queued tasks in order. A task that throws (`faults`
     * holds the positions that do) ends the drain; it is lost and the tasks
     * behind it wait for the next frame.
     */
    method Update(current: Option<Uid>, faults: set<nat>)
      requires Valid()
      modifies this
      ensures Valid()
      ensures var k := MainQueue.FirstFault(faults, |old(mainQueue)|);
              && State() == RunAll(old(State()), old(mainQueue)[..k], current)
              && mainQueue == (if k < |old(mainQueue)| then old(mainQueue)[k + 1..] else [])
    {
      var q := mainQueue;
      var k := MainQueue.FirstFault(faults, |q|);
      ghost var s0 := State();
      var i := 0;
      while i < k
        invariant 0 <= i <= k
        invariant mainQueue == q[i..]
        invariant State() == RunAll(s0, q[..i], current)
      {
        DrainOne(q, i, s0, current);
        i := i + 1;
      }
      if k < |q| {
        mainQueue := mainQueue[1..];
      }
      RunAllKeepsConsistent(s0, q[..k], current);
    }

    /** One turn of the loop of `Update`: dequeue the next task and run it. */
    method DrainOne(ghost q: seq<Task>, i: nat, ghost s0: FriendsState, current: Option<Uid>)
      requires i < |q| && mainQueue == q[i..]
      requires State() == RunAll(s0, q[..i], current)
      modifies this
      ensures mainQueue == q[i + 1..]
      ensures State() == RunAll(s0, q[..i + 1], current)
    {
      var t := mainQueue[0];
      assert t == q[i];
      mainQueue := mainQueue[1..];
      RunTask(t, current);
      assert q[..i + 1] == q[..i] + [t];
      RunAllSnoc(s0, q[..i], t, current);
    }

    method HandleChildAdded(ev: ChildEvent)
      modifies this
      ensures State() == old(State())
      ensures ev.Delivered? ==> mainQueue == old(mainQueue) + [ApplyAdded(ev.snap)]
      ensures ev.Failed? ==> mainQueue == old(mainQueue) + (if ev.permissionDenied then [FullCleanup] else [])
    {
      match ev
      case Failed(permissionDenied) =>
        if permissionDenied {
          EnqueueOnMainThread(FullCleanup);
        }
      case Delivered(snap) =>
        EnqueueOnMainThread(ApplyAdded(snap));
    }

    method HandleChildRemoved(ev: ChildEvent)
      modifies this
      ensures State() == old(State())
      ensures ev.Delivered? ==> mainQueue == old(mainQueue) + [ApplyRemoved(ev.snap.key)]
      ensures ev.Failed? ==> mainQueue == old(mainQueue) + (if ev.permissionDenied then [FullCleanup] else [])
    {
      match ev
      case Failed(permissionDenied) =>
        if permissionDenied {
          EnqueueOnMainThread(FullCleanup);
        }
      case Delivered(snap) =>
        EnqueueOnMainThread(ApplyRemoved(snap.key));
    }

    /**
     * The synchronous start of `Start`: without a signed-in user nothing
     * happens; otherwise the uid is kept, and without a prefab the list stops
     * there. `proceed` says whether the token check follows.
     */
    method Start(current: Option<Uid>) returns (proceed: bool)
      modifies this
      ensures current.None? ==> !proceed && State() == old(State())
      ensures current.Some? ==> State() == old(State()).(myUid := current) && proceed == configured
      ensures mainQueue == old(mainQueue)
    {
      if current.None? {
        return false;
      }
      myUid := current;
      if !configured {
        return false;
      }
      return true;
    }

    /** `Start` after `EnsureAuthToken`: on success attach to the own friends list. */
    method AfterTokenCheck(env: Auth.AuthEnv) returns (proceed: bool)
      modifies this
      ensures proceed == Auth.EnsureAuthToken(env).ok
      ensures !proceed ==> State() == old(State())
      ensures proceed ==> State() == old(State()).(
                friendsRef := Some(FriendsList(old(myUid).GetOr(""))),
                dbSubscribed := true,
                attached := old(attached) + multiset{FriendsList(old(myUid).GetOr(""))})
      ensures mainQueue == old(mainQueue)
    {
      var check := Auth.EnsureAuthToken(env);
      if !check.ok {
        return false;
      }
      var path := FriendsList(myUid.GetOr(""));
      friendsRef := Some(path);
      attached := attached + multiset{path};
      dbSubscribed := true;
      return true;
    }

    /** The initial load: seed the rows; a failed load is only logged. */
    method AfterInitialLoad(load: Load)
      modifies this
      ensures State() == old(State())
      ensures load.Loaded? ==> mainQueue == old(mainQueue) + [SeedRows(load.children)]
      ensures load.LoadFailed? ==> mainQueue == old(mainQueue)
    {
      if load.Loaded? {
        EnqueueOnMainThread(SeedRows(load.children));
      }
    }

    /** `OnDestroy` cleans up at once, not through the queue. */
    method OnDestroy()
      modifies this
      ensures State() == CleanedUp(old(State())) && mainQueue == old(mainQueue)
    {
      UnsubscribeFromFriends();
    }
  }

  /** Without a signed-in user, or when the token check fails, `Start` attaches no listener. */
  method NoListenerWithoutToken(current: Option<Uid>, env: Auth.AuthEnv) returns (attachedCount: nat)
    requires current.None? || !Auth.EnsureAuthToken(env).ok
    ensures attachedCount == 0
  {
    var c := new FriendsListController(true, "");
    var proceed := c.Start(current);
    if proceed {
      proceed := c.AfterTokenCheck(env);
    }
    attachedCount := |c.attached|;
  }
}
