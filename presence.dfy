/**
 * The friend presence notifier (`FriendPresenceNotifier`): it loads the
 * user's friends once, listens to the online list, remembers the name each
 * user was last seen online with, and announces a friend's connection or
 * disconnection at most once per cooldown window per friend. Times are
 * whole Unix seconds; the cooldown is a whole number of seconds.
 */
module Presence {
  import opened Wrappers
  import opened Store

  /** `CanNotifyNow`'s test: a first attempt for `uid`, or the cooldown has passed since the last one. */
  function CanNotify(times: map<Uid, int>, uid: Uid, now: int, cooldown: nat): bool {
    uid !in times || now - times[uid] >= cooldown
  }

  /** `CanNotifyNow`'s bookkeeping: an allowed attempt records `now`; a refused one changes nothing. */
  function Recorded(times: map<Uid, int>, uid: Uid, now: int, cooldown: nat): map<Uid, int> {
    if CanNotify(times, uid, now, cooldown) then times[uid := now] else times
  }

  /** Within the cooldown after an announcement, the same uid is refused. */
  lemma NoRepeatWithinCooldown(times: map<Uid, int>, uid: Uid, t1: int, t2: int, cooldown: nat)
    requires CanNotify(times, uid, t1, cooldown)
    requires t2 < t1 + cooldown
    ensures !CanNotify(Recorded(times, uid, t1, cooldown), uid, t2, cooldown)
  {
  }

  /** A refused attempt does not extend the window: once the cooldown has passed, the uid is allowed again. */
  lemma RefusalKeepsWindow(times: map<Uid, int>, uid: Uid, t1: int, t2: int, cooldown: nat)
    requires CanNotify(times, uid, t1, cooldown)
    requires t2 >= t1 + cooldown
    ensures var after1 := Recorded(times, uid, t1, cooldown);
            forall t :: t < t1 + cooldown ==> Recorded(after1, uid, t, cooldown) == after1
    ensures CanNotify(Recorded(times, uid, t1, cooldown), uid, t2, cooldown)
  {
  }

  /** Each uid has its own window: an attempt for `uid` does not change what `other` may do. */
  lemma CooldownPerUid(times: map<Uid, int>, uid: Uid, other: Uid, now: int, later: int, cooldown: nat)
    requires other != uid
    ensures CanNotify(Recorded(times, uid, now, cooldown), other, later, cooldown) == CanNotify(times, other, later, cooldown)
  {
  }

  /** The name announced on a disconnection: the name last seen online, else the snapshot's value, else the uid. */
  function DisconnectName(lastSeen: map<Uid, string>, snap: Snap): (name: string)
    ensures snap.key in lastSeen ==> name == lastSeen[snap.key]
    ensures snap.key !in lastSeen && snap.value.Some? ==> name == Display(snap.value.value)
    ensures snap.key !in lastSeen && snap.value.None? ==> name == snap.key
  {
    if snap.key in lastSeen then lastSeen[snap.key]
    else if snap.value.Some? then Display(snap.value.value)
    else snap.key
  }

  function ConnectedMessage(name: string): string {
    name + " se ha conectado"
  }

  function DisconnectedMessage(name: string): string {
    name + " se ha desconectado"
  }

  /** The name a child of the initial online load is remembered with: its value's text, else "". */
  function SeedName(c: Snap): string {
    DisplayOpt(c.value).GetOr("")
  }

  /** The initial online roster stored in `lastSeen`, child by child; empty names are skipped. */
  function SeededNames(lastSeen: map<Uid, string>, children: seq<Snap>): map<Uid, string>
    decreases |children|
  {
    if children == [] then lastSeen
    else
      var names := SeededNames(lastSeen, children[..|children| - 1]);
      var c := children[|children| - 1];
      if SeedName(c) != "" then names[c.key := SeedName(c)] else names
  }

  /**
   * Seeding adds only non-empty names of listed children and keeps every
   * name already there under its uid unless a child replaces it.
   */
  lemma {:induction false} SeededNamesShape(lastSeen: map<Uid, string>, children: seq<Snap>)
    ensures var r := SeededNames(lastSeen, children);
            && lastSeen.Keys <= r.Keys
            && (forall u :: u in r && (u !in lastSeen || r[u] != lastSeen[u]) ==>
                  r[u] != "" && exists c :: c in children && c.key == u && SeedName(c) == r[u])
    decreases |children|
  {
    if children != [] {
      var init := children[..|children| - 1];
      SeededNamesShape(lastSeen, init);
      var r0 := SeededNames(lastSeen, init);
      var r := SeededNames(lastSeen, children);
      forall u | u in r && (u !in lastSeen || r[u] != lastSeen[u])
        ensures r[u] != "" && exists c :: c in children && c.key == u && SeedName(c) == r[u]
      {
        var c := children[|children| - 1];
        if SeedName(c) != "" && u == c.key {
          assert c in children;
        } else {
          assert u in r0 && r[u] == r0[u];
          var c0 :| c0 in init && c0.key == u && SeedName(c0) == r0[u];
          assert c0 in children;
        }
      }
    }
  }

  /** The uids of the loaded friends list. */
  function FriendKeys(children: seq<Snap>): set<Uid> {
    set c | c in children :: c.key
  }
}

module PresenceControllers {
  import opened Wrappers
  import opened Store
  import opened Presence

  class FriendPresenceNotifier {
    const cooldown: nat                   // perFriendCooldown, whole seconds
    const suppressInitial: bool           // suppressInitialOnlineNotifications
    var myUid: Option<Uid>
    var friendUids: set<Uid>
    var usersOnlineRef: Option<Path>
    var myFriendsRef: Option<Path>
    var lastSeenOnlineName: map<Uid, string>
    var lastNotificationTime: map<Uid, int>
    var initialLoadDone: bool
    var attached: multiset<Path>
    var shown: seq<string>                // the announcements, oldest first

    constructor (cooldown: nat, suppressInitial: bool)
      ensures this.cooldown == cooldown && this.suppressInitial == suppressInitial
      ensures myUid.None? && friendUids == {} && usersOnlineRef.None? && myFriendsRef.None?
      ensures lastSeenOnlineName == map[] && lastNotificationTime == map[] && !initialLoadDone
      ensures attached == multiset{} && shown == []
    {
      this.cooldown := cooldown;
      this.suppressInitial := suppressInitial;
      myUid := None;
      friendUids := {};
      usersOnlineRef := None;
      myFriendsRef := None;
      lastSeenOnlineName := map[];
      lastNotificationTime := map[];
      initialLoadDone := false;
      attached := multiset{};
      shown := [];
    }

    /** `CanNotifyNow`: the cooldown test at `now`, recording `now` when it passes. */
    method CanNotifyNow(uid: Uid, now: int) returns (ok: bool)
      modifies this
      ensures ok <==> uid !in old(lastNotificationTime) || now - old(lastNotificationTime)[uid] >= cooldown
      ensures ok ==> lastNotificationTime == old(lastNotificationTime)[uid := now]
      ensures !ok ==> lastNotificationTime == old(lastNotificationTime)
      ensures lastNotificationTime == Recorded(old(lastNotificationTime), uid, now, cooldown)
      ensures myUid == old(myUid) && friendUids == old(friendUids) && usersOnlineRef == old(usersOnlineRef)
      ensures myFriendsRef == old(myFriendsRef) && lastSeenOnlineName == old(lastSeenOnlineName)
      ensures initialLoadDone == old(initialLoadDone) && attached == old(attached) && shown == old(shown)
    {
      if uid !in lastNotificationTime {
        lastNotificationTime := lastNotificationTime[uid := now];
        return true;
      }
      var last := lastNotificationTime[uid];
      if now - last >= cooldown {
        lastNotificationTime := lastNotificationTime[uid := now];
        return true;
      }
      return false;
    }

    /** `Teardown`: detach from the online list (the ref is kept) and forget friends, names, times. */
    method Teardown()
      modifies this
      ensures friendUids == {} && lastSeenOnlineName == map[] && lastNotificationTime == map[] && !initialLoadDone
      ensures attached == (if old(usersOnlineRef).Some? then old(attached) - multiset{old(usersOnlineRef).value} else old(attached))
      ensures myUid == old(myUid) && usersOnlineRef == old(usersOnlineRef) && myFriendsRef == old(myFriendsRef)
      ensures shown == old(shown)
    {
      if usersOnlineRef.Some? {
        attached := attached - multiset{usersOnlineRef.value};
      }
      friendUids := {};
      lastSeenOnlineName := map[];
      lastNotificationTime := map[];
      initialLoadDone := false;
    }

    /** The synchronous start of `InitializeForUser`: tear down, switch uid, point at the friends list. */
    method InitializeForUser(uid: Uid)
      modifies this
      ensures myUid == Some(uid) && myFriendsRef == Some(FriendsList(uid))
      ensures friendUids == {} && lastSeenOnlineName == map[] && lastNotificationTime == map[] && !initialLoadDone
      ensures attached == (if old(usersOnlineRef).Some? then old(attached) - multiset{old(usersOnlineRef).value} else old(attached))
      ensures usersOnlineRef == old(usersOnlineRef) && shown == old(shown)
    {
      Teardown();
      myUid := Some(uid);
      myFriendsRef := Some(FriendsList(uid));
    }

    /**
     * The friends load completed: on success the friend set becomes the
     * loaded keys (a failure keeps it). Then attach to the online list; when
     * the initial roster is not suppressed the load counts as done.
     */
    method AfterFriendsLoad(load: Load)
      modifies this
      ensures load.Loaded? ==> friendUids == FriendKeys(load.children)
      ensures load.LoadFailed? ==> friendUids == old(friendUids)
      ensures usersOnlineRef == Some(UsersOnline) && attached == old(attached) + multiset{UsersOnline}
      ensures initialLoadDone == (if suppressInitial then old(initialLoadDone) else true)
      ensures myUid == old(myUid) && myFriendsRef == old(myFriendsRef) && lastSeenOnlineName == old(lastSeenOnlineName)
      ensures lastNotificationTime == old(lastNotificationTime) && shown == old(shown)
    {
      if load.Loaded? {
        friendUids := LoadedFriendKeys(load.children);
      }
      usersOnlineRef := Some(UsersOnline);
      attached := attached + multiset{UsersOnline};
      if !suppressInitial {
        initialLoadDone := true;
      }
    }

    /**
     * The initial online load (made only when the roster is suppressed)
     * completed: remember the non-empty names it lists, then mark the
     * initial load done whether or not it succeeded.
     */
    method AfterInitialOnlineLoad(load: Load)
      modifies this
      ensures lastSeenOnlineName == (if load.Loaded? then SeededNames(old(lastSeenOnlineName), load.children) else old(lastSeenOnlineName))
      ensures initialLoadDone
      ensures myUid == old(myUid) && friendUids == old(friendUids) && usersOnlineRef == old(usersOnlineRef)
      ensures myFriendsRef == old(myFriendsRef) && lastNotificationTime == old(lastNotificationTime)
      ensures attached == old(attached) && shown == old(shown)
    {
      if load.Loaded? {
        lastSeenOnlineName := SeedNames(lastSeenOnlineName, load.children);
      }
      initialLoadDone := true;
    }

    /**
     * `HandleUserOnlineAdded` at time `now`: remember the user's name; while
     * the suppressed initial load is not done, announce nothing; otherwise
     * announce a friend's connection when the cooldown allows it.
     */
    method HandleUserOnlineAdded(ev: ChildEvent, now: int)
      modifies this
      ensures myUid == old(myUid) && friendUids == old(friendUids) && usersOnlineRef == old(usersOnlineRef)
      ensures myFriendsRef == old(myFriendsRef) && initialLoadDone == old(initialLoadDone) && attached == old(attached)
      ensures ev.Failed? || !ev.snap.Exists() ==>
                lastSeenOnlineName == old(lastSeenOnlineName) && lastNotificationTime == old(lastNotificationTime) && shown == old(shown)
      ensures ev.Delivered? && ev.snap.Exists() ==>
                lastSeenOnlineName == old(lastSeenOnlineName)[ev.snap.key := Display(ev.snap.value.value)]
      ensures ev.Delivered? && ev.snap.Exists() ==>
                var attempted := (old(initialLoadDone) || !suppressInitial) && ev.snap.key in friendUids;
                && lastNotificationTime == (if attempted then Recorded(old(lastNotificationTime), ev.snap.key, now, cooldown)
                                            else old(lastNotificationTime))
                && shown == (if attempted && CanNotify(old(lastNotificationTime), ev.snap.key, now, cooldown)
                             then old(shown) + [ConnectedMessage(Display(ev.snap.value.value))] else old(shown))
    {
      if ev.Failed? {
        return;
      }
      var snap := ev.snap;
      if !snap.Exists() {
        return;
      }
      var uid := snap.key;
      var username := Display(snap.value.value);
      lastSeenOnlineName := lastSeenOnlineName[uid := username];
      if !initialLoadDone && suppressInitial {
        return;
      }
      if uid in friendUids {
        var ok := CanNotifyNow(uid, now);
        if ok {
          shown := shown + [ConnectedMessage(username)];
        }
      }
    }

    /**
     * `HandleUserOnlineRemoved` at time `now`: choose the name (last seen,
     * else the snapshot's, else the uid), forget the last-seen name, and
     * announce a friend's disconnection when the cooldown allows it.
     */
    method HandleUserOnlineRemoved(ev: ChildEvent, now: int)
      modifies this
      ensures myUid == old(myUid) && friendUids == old(friendUids) && usersOnlineRef == old(usersOnlineRef)
      ensures myFriendsRef == old(myFriendsRef) && initialLoadDone == old(initialLoadDone) && attached == old(attached)
      ensures ev.Failed? ==>
                lastSeenOnlineName == old(lastSeenOnlineName) && lastNotificationTime == old(lastNotificationTime) && shown == old(shown)
      ensures ev.Delivered? ==> lastSeenOnlineName == old(lastSeenOnlineName) - {ev.snap.key}
      ensures ev.Delivered? ==>
                var attempted := ev.snap.key in friendUids;
                && lastNotificationTime == (if attempted then Recorded(old(lastNotificationTime), ev.snap.key, now, cooldown)
                                            else old(lastNotificationTime))
                && shown == (if attempted && CanNotify(old(lastNotificationTime), ev.snap.key, now, cooldown)
                             then old(shown) + [DisconnectedMessage(DisconnectName(old(lastSeenOnlineName), ev.snap))]
                             else old(shown))
    {
      if ev.Failed? {
        return;
      }
      var snap := ev.snap;
      var uid := snap.key;
      var username;
      if uid in lastSeenOnlineName {
        username := lastSeenOnlineName[uid];
      } else if snap.value.Some? {
        username := Display(snap.value.value);
      } else {
        username := uid;
      }
      if uid in lastSeenOnlineName {
        lastSeenOnlineName := lastSeenOnlineName - {uid};
      }
      if uid in friendUids {
        var ok := CanNotifyNow(uid, now);
        if ok {
          shown := shown + [DisconnectedMessage(username)];
        }
      }
    }

    /**
     * `OnAuthStateChanged`: a sign-out tears down (the uid is kept); a uid
     * other than the kept one starts `InitializeForUser`; the kept uid does
     * nothing.
     */
    method OnAuthStateChanged(current: Option<Uid>) returns (initStarted: bool)
      modifies this
      ensures initStarted <==> current.Some? && old(myUid) != current
      ensures current.None? ==> myUid == old(myUid) && friendUids == {} && !initialLoadDone
      ensures initStarted ==> myUid == current && myFriendsRef == Some(FriendsList(current.value)) && friendUids == {}
      ensures current.Some? && !initStarted ==>
                myUid == old(myUid) && friendUids == old(friendUids) && attached == old(attached) && initialLoadDone == old(initialLoadDone)
      ensures current.Some? && !initStarted ==>
                lastSeenOnlineName == old(lastSeenOnlineName) && lastNotificationTime == old(lastNotificationTime)
      ensures current.None? || initStarted ==>
                attached == (if old(usersOnlineRef).Some? then old(attached) - multiset{old(usersOnlineRef).value} else old(attached))
      ensures shown == old(shown) && usersOnlineRef == old(usersOnlineRef)
    {
      if current.None? {
        Teardown();
        return false;
      }
      if myUid != current {
        InitializeForUser(current.value);
        return true;
      }
      return false;
    }

    /**
     * `OnAuthStateChanged` with the sign-out also forgetting the uid, so
     * that the same account signing in again is initialised anew.
     */
    method OnAuthStateChangedForgettingUser(current: Option<Uid>) returns (initStarted: bool)
      modifies this
      ensures initStarted <==> current.Some? && old(myUid) != current
      ensures current.None? ==> myUid.None? && friendUids == {} && !initialLoadDone
      ensures initStarted ==> myUid == current && myFriendsRef == Some(FriendsList(current.value)) && friendUids == {}
      ensures current.None? || initStarted ==>
                attached == (if old(usersOnlineRef).Some? then old(attached) - multiset{old(usersOnlineRef).value} else old(attached))
      ensures current.Some? && !initStarted ==> myUid == old(myUid) && attached == old(attached)
      ensures shown == old(shown) && usersOnlineRef == old(usersOnlineRef)
    {
      if current.None? {
        Teardown();
        myUid := None;
        return false;
      }
      if myUid != current {
        InitializeForUser(current.value);
        return true;
      }
      return false;
    }

    /** `OnDestroy` tears down. */
    method OnDestroy()
      modifies this
      ensures friendUids == {} && lastSeenOnlineName == map[] && lastNotificationTime == map[] && !initialLoadDone
      ensures attached == (if old(usersOnlineRef).Some? then old(attached) - multiset{old(usersOnlineRef).value} else old(attached))
      ensures myUid == old(myUid) && shown == old(shown)
    {
      Teardown();
    }
  }

  /** The keys of the loaded friends list, collected child by child. */
  method LoadedFriendKeys(children: seq<Snap>) returns (keys: set<Uid>)
    ensures keys == FriendKeys(children)
    ensures forall c :: c in children ==> c.key in keys
  {
    keys := {};
    var i := 0;
    while i < |children|
      invariant 0 <= i <= |children|
      invariant keys == FriendKeys(children[..i])
    {
      assert children[..i + 1] == children[..i] + [children[i]];
      keys := keys + {children[i].key};
      i := i + 1;
    }
    assert children[..i] == children;
  }

  /** The initial roster's non-empty names stored over `names`, child by child. */
  method SeedNames(names: map<Uid, string>, children: seq<Snap>) returns (r: map<Uid, string>)
    ensures r == SeededNames(names, children)
  {
    r := names;
    var i := 0;
    while i < |children|
      invariant 0 <= i <= |children|
      invariant r == SeededNames(names, children[..i])
    {
      var c := children[i];
      assert children[..i + 1][..i] == children[..i];
      var uname := if c.value.Some? then Display(c.value.value) else "";
      if uname != "" {
        r := r[c.key := uname];
      }
      i := i + 1;
    }
    assert children[..i] == children;
  }

  /**
   * `a` signs in (the loads complete), signs out, and signs in again: the
   * second sign-in finds the kept uid unchanged and does not initialise, so
   * the notifier is left detached with no friends.
   */
  method SignOutThenSameUser(a: Uid) returns (reinitialised: bool, listening: bool)
    ensures !reinitialised && !listening
  {
    var n := new FriendPresenceNotifier(2, true);
    var s1 := n.OnAuthStateChanged(Some(a));
    n.AfterFriendsLoad(Loaded([]));
    n.AfterInitialOnlineLoad(Loaded([]));
    assert n.attached == multiset{UsersOnline};
    var s2 := n.OnAuthStateChanged(None);
    reinitialised := n.OnAuthStateChanged(Some(a));
    listening := n.attached != multiset{};
  }

  /** The same sequence when the sign-out forgets the uid: the second sign-in initialises again and re-attaches. */
  method SignOutThenSameUserForgetting(a: Uid) returns (reinitialised: bool, listening: bool)
    ensures reinitialised && listening
  {
    var n := new FriendPresenceNotifier(2, true);
    var s1 := n.OnAuthStateChangedForgettingUser(Some(a));
    n.AfterFriendsLoad(Loaded([]));
    n.AfterInitialOnlineLoad(Loaded([]));
    var s2 := n.OnAuthStateChangedForgettingUser(None);
    reinitialised := n.OnAuthStateChangedForgettingUser(Some(a));
    n.AfterFriendsLoad(Loaded([]));
    listening := n.attached != multiset{};
  }
}
