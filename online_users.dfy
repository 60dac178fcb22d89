/**
 * The online-users list (`OnlineUsersManager`): one row per key under
 * "users-online", each a user row (label and send-request button) set up
 * with the flags the manager knows (own row or not; never friend, never
 * pending), and a main-thread queue that `Update` drains, catching each
 * task's exception.
 */
module OnlineUsers {
  import opened Wrappers
  import opened Store
  import UserRow
  import RowCache

  /** What the list keeps of a row it created: the label and the send button as `Init` left them. */
  datatype OnlineRow = OnlineRow(caption: string, isSelf: bool, button: UserRow.SendButton)

  datatype Task =
    | DetachListeners                 // UnsubscribeFromOnlineListeners
    | FullCleanup                     // UnsubscribeFromOnline
    | SeedRows(children: seq<Snap>)   // the initial load
    | ApplyAdded(snap: Snap)
    | ApplyRemoved(snap: Snap)

  datatype OnlineState = OnlineState(
    configured: bool,                 // prefab and content assigned
    prefabButton: UserRow.SendButton, // the send button of a fresh row
    sceneHasManager: bool,            // a lookup in the scene finds a request manager
    hasManager: bool,                 // the manager field is set
    rows: map<Uid, OnlineRow>,
    myUid: Option<Uid>,
    onlineRef: Option<Path>,
    dbSubscribed: bool,
    attached: multiset<Path>)

  /** The name shown for an online entry: its value's text, or "" without a value. */
  function EntryName(snap: Snap): string {
    DisplayOpt(snap.value).GetOr("")
  }

  /**
   * What a new row depends on: whether a prefab is assigned, the signed-in
   * uid, the prefab's button and whether a request manager is known (set, or
   * found in the scene). None of them changes while rows are added or removed.
   */
  datatype Setup = Setup(configured: bool, myUid: Option<Uid>, prefabButton: UserRow.SendButton, manager: bool)

  function SetupOf(s: OnlineState): Setup {
    Setup(s.configured, s.myUid, s.prefabButton, s.hasManager || s.sceneHasManager)
  }

  /** The row `Init` sets up for `uid` shown as `username`. */
  function NewRow(c: Setup, uid: Uid, username: string): (row: OnlineRow)
    ensures row.caption == UserRow.RowLabel(uid, username, Some(uid) == c.myUid)
    ensures row.isSelf <==> Some(uid) == c.myUid
    ensures row.isSelf ==> !row.button.active
    ensures !row.isSelf ==> row.button.active && !row.button.interactable == !c.manager
  {
    var self := Some(uid) == c.myUid;
    OnlineRow(UserRow.RowLabel(uid, username, self), self, UserRow.ButtonFor(c.prefabButton, self, false, c.manager, false))
  }

  /**
   * `AddRowSafe`: an empty or already listed uid is ignored (the first row
   * stays); without the prefab nothing is added; otherwise a row is created
   * after the manager field is filled from the scene if it was empty.
   */
  function WithRow(s: OnlineState, uid: Uid, username: string): (r: OnlineState)
    ensures uid == "" || uid in s.rows || !s.configured ==> r == s
    ensures uid != "" && uid !in s.rows && s.configured ==>
              && r.rows == s.rows[uid := NewRow(SetupOf(s), uid, username)]
              && r == s.(rows := r.rows, hasManager := s.hasManager || s.sceneHasManager)
  {
    if uid == "" || uid in s.rows || !s.configured then s
    else
      var manager := s.hasManager || s.sceneHasManager;
      s.(hasManager := manager, rows := s.rows[uid := NewRow(SetupOf(s), uid, username)])
  }

  /** `RemoveRowSafe`: an empty or absent uid changes nothing; otherwise exactly that row goes. */
  function WithoutRow(s: OnlineState, uid: Uid): (r: OnlineState)
    ensures uid == "" || uid !in s.rows ==> r == s
    ensures uid != "" && uid in s.rows ==> r == s.(rows := s.rows - {uid})
  {
    if uid == "" || uid !in s.rows then s else s.(rows := s.rows - {uid})
  }

  /** `UnsubscribeFromOnlineListeners`: detach and forget the ref; the rows stay. */
  function ListenersDetached(s: OnlineState): (r: OnlineState)
    ensures r == s.(attached := if s.onlineRef.Some? then s.attached - multiset{s.onlineRef.value} else s.attached,
                    dbSubscribed := false, onlineRef := None)
  {
    s.(attached := if s.onlineRef.Some? then s.attached - multiset{s.onlineRef.value} else s.attached,
       dbSubscribed := false, onlineRef := None)
  }

  /** `UnsubscribeFromOnline`: the listeners, then every row. */
  function CleanedUp(s: OnlineState): (r: OnlineState)
    ensures r.rows == map[] && !r.dbSubscribed && r.onlineRef.None?
    ensures r == ListenersDetached(s).(rows := map[])
  {
    ListenersDetached(s).(rows := map[])
  }

  function Seeded(s: OnlineState, children: seq<Snap>): OnlineState
    decreases |children|
  {
    if children == [] then s
    else
      var last := children[|children| - 1];
      WithRow(Seeded(s, children[..|children| - 1]), last.key, EntryName(last))
  }

  function Run(s: OnlineState, t: Task): OnlineState {
    match t
    case DetachListeners => ListenersDetached(s)
    case FullCleanup => CleanedUp(s)
    case SeedRows(children) => Seeded(s, children)
    case ApplyAdded(snap) => if !snap.Exists() then s else WithRow(s, snap.key, EntryName(snap))
    case ApplyRemoved(snap) => if !snap.Exists() then s else WithoutRow(s, snap.key)
  }

  function RunAll(s: OnlineState, ts: seq<Task>): OnlineState
    decreases |ts|
  {
    if ts == [] then s else Run(RunAll(s, ts[..|ts| - 1]), ts[|ts| - 1])
  }

  lemma RunAllSnoc(s: OnlineState, ts: seq<Task>, t: Task)
    ensures RunAll(s, ts + [t]) == Run(RunAll(s, ts), t)
  {
    assert (ts + [t])[..|ts|] == ts;
  }

  /**
   * The rows agree with the flags they were created under: a row marked as
   * the user's own has no send button and says so in its label; every other
   * row shows the button. The empty uid never has a row; without a prefab
   * there are none; a subscription has a ref.
   */
  predicate Consistent(s: OnlineState) {
    && "" !in s.rows
    && (!s.configured ==> s.rows == map[])
    && (s.dbSubscribed ==> s.onlineRef.Some?)
    && (forall u :: u in s.rows && s.rows[u].isSelf ==> !s.rows[u].button.active)
    && (forall u :: u in s.rows && !s.rows[u].isSelf ==> s.rows[u].button.active)
  }

  lemma {:induction false} SeededKeepsConsistent(s: OnlineState, children: seq<Snap>)
    requires Consistent(s)
    ensures Consistent(Seeded(s, children))
    ensures Seeded(s, children).myUid == s.myUid && Seeded(s, children).configured == s.configured
    ensures Seeded(s, children).dbSubscribed == s.dbSubscribed && Seeded(s, children).onlineRef == s.onlineRef
    ensures Seeded(s, children).prefabButton == s.prefabButton
    decreases |children|
  {
    if children != [] {
      SeededKeepsConsistent(s, children[..|children| - 1]);
    }
  }

  lemma RunKeepsConsistent(s: OnlineState, t: Task)
    requires Consistent(s)
    ensures Consistent(Run(s, t))
  {
    if t.SeedRows? {
      SeededKeepsConsistent(s, t.children);
    }
  }

  lemma {:induction false} RunAllKeepsConsistent(s: OnlineState, ts: seq<Task>)
    requires Consistent(s)
    ensures Consistent(RunAll(s, ts))
    decreases |ts|
  {
    if ts != [] {
      RunAllKeepsConsistent(s, ts[..|ts| - 1]);
      RunKeepsConsistent(RunAll(s, ts[..|ts| - 1]), ts[|ts| - 1]);
    }
  }

  /** The seed never drops or relabels a listed user: the first row for a uid stays. */
  lemma {:induction false} SeededKeepsRows(s: OnlineState, children: seq<Snap>)
    ensures forall u :: u in s.rows ==> u in Seeded(s, children).rows && Seeded(s, children).rows[u] == s.rows[u]
    decreases |children|
  {
    if children != [] {
      SeededKeepsRows(s, children[..|children| - 1]);
    }
  }

  /** With a prefab, every listed non-empty key of the load has a row afterwards. */
  lemma {:induction false} SeedListsEveryChild(s: OnlineState, children: seq<Snap>)
    requires s.configured
    ensures forall i :: 0 <= i < |children| && children[i].key != "" ==> children[i].key in Seeded(s, children).rows
    decreases |children|
  {
    if children != [] {
      var pre := children[..|children| - 1];
      SeedListsEveryChild(s, pre);
      var r := Seeded(s, pre);
      assert Seeded(s, pre).configured == s.configured by {
        SeededConfigured(s, pre);
      }
      forall i | 0 <= i < |children| - 1 && children[i].key != ""
        ensures children[i].key in Seeded(s, children).rows
      {
        assert pre[i] == children[i];
      }
    }
  }

  lemma {:induction false} SeededConfigured(s: OnlineState, children: seq<Snap>)
    ensures Seeded(s, children).configured == s.configured
    decreases |children|
  {
    if children != [] {
      SeededConfigured(s, children[..|children| - 1]);
    }
  }

  // ---- deliveries as row events ----

  /** A task that delivers entries: the initial load, a child added or a child removed. */
  predicate Delivery(t: Task) {
    t.SeedRows? || t.ApplyAdded? || t.ApplyRemoved?
  }

  predicate Deliveries(ts: seq<Task>) {
    forall i :: 0 <= i < |ts| ==> Delivery(ts[i])
  }

  /** The rows a load adds, in order: its non-empty keys, when a prefab is assigned. */
  function SeedEntries(c: Setup, children: seq<Snap>): seq<(string, OnlineRow)>
    decreases |children|
  {
    if children == [] then []
    else
      var last := children[|children| - 1];
      SeedEntries(c, children[..|children| - 1])
        + (if last.key == "" || !c.configured then [] else [(last.key, NewRow(c, last.key, EntryName(last)))])
  }

  /** The row events a delivery makes. */
  function EventsOf(c: Setup, t: Task): seq<RowCache.RowEvent<OnlineRow>> {
    match t
    case SeedRows(children) => RowCache.AddedOf(SeedEntries(c, children))
    case ApplyAdded(snap) =>
      if !snap.Exists() || snap.key == "" || !c.configured then []
      else [RowCache.Added(snap.key, NewRow(c, snap.key, EntryName(snap)))]
    case ApplyRemoved(snap) =>
      if !snap.Exists() || snap.key == "" then [] else [RowCache.Removed(snap.key)]
    case _ => []
  }

  function Events(c: Setup, ts: seq<Task>): seq<RowCache.RowEvent<OnlineRow>>
    decreases |ts|
  {
    if ts == [] then [] else Events(c, ts[..|ts| - 1]) + EventsOf(c, ts[|ts| - 1])
  }

  /** The initial load changes nothing but the rows and the manager field, and keeps what new rows depend on. */
  lemma {:induction false} SeededFrame(s: OnlineState, children: seq<Snap>)
    ensures SetupOf(Seeded(s, children)) == SetupOf(s)
    ensures Seeded(s, children).(rows := s.rows, hasManager := s.hasManager) == s
    decreases |children|
  {
    if children != [] {
      SeededFrame(s, children[..|children| - 1]);
    }
  }

  /** `AddRowSafe` on the rows: a non-empty uid, with a prefab, is added as `RowCache.Add` adds it. */
  lemma WithRowAdds(s: OnlineState, uid: Uid, username: string)
    ensures WithRow(s, uid, username).rows ==
              if uid == "" || !s.configured then s.rows else RowCache.Add(s.rows, uid, NewRow(SetupOf(s), uid, username))
  {
  }

  /** The initial load adds its rows as `RowCache.AddAll` does. */
  lemma {:induction false} SeededAddsAll(s: OnlineState, children: seq<Snap>)
    ensures Seeded(s, children).rows == RowCache.AddAll(s.rows, SeedEntries(SetupOf(s), children))
    decreases |children|
  {
    if children != [] {
      var pre := children[..|children| - 1];
      var last := children[|children| - 1];
      var c := SetupOf(s);
      SeededAddsAll(s, pre);
      SeededFrame(s, pre);
      var p := Seeded(s, pre);
      var name := EntryName(last);
      WithRowAdds(p, last.key, name);
      var es := SeedEntries(c, pre);
      if last.key == "" || !c.configured {
        assert SeedEntries(c, children) == es;
      } else {
        var e := (last.key, NewRow(c, last.key, name));
        assert SeedEntries(c, children) == es + [e];
        assert (es + [e])[..|es|] == es;
        assert RowCache.AddAll(s.rows, es + [e]) == RowCache.Add(RowCache.AddAll(s.rows, es), e.0, e.1);
      }
    }
  }

  /** A delivery changes nothing but the rows and the manager field, and keeps what new rows depend on. */
  lemma RunFrame(s: OnlineState, t: Task)
    requires Delivery(t)
    ensures SetupOf(Run(s, t)) == SetupOf(s)
    ensures Run(s, t).(rows := s.rows, hasManager := s.hasManager) == s
  {
    if t.SeedRows? {
      SeededFrame(s, t.children);
    }
  }

  /** A delivery changes the rows as replaying its events does. */
  lemma RunReplays(s: OnlineState, t: Task)
    requires Delivery(t)
    ensures Run(s, t).rows == RowCache.Replay(s.rows, EventsOf(SetupOf(s), t))
  {
    match t
    case SeedRows(children) =>
      SeededAddsAll(s, children);
      RowCache.AddAllReplays(s.rows, SeedEntries(SetupOf(s), children));
    case ApplyAdded(snap) =>
      if snap.Exists() {
        var name := EntryName(snap);
        WithRowAdds(s, snap.key, name);
        if snap.key != "" && s.configured {
          RowCache.ReplaySnoc(s.rows, [], RowCache.Added(snap.key, NewRow(SetupOf(s), snap.key, name)));
        }
      }
    case ApplyRemoved(snap) =>
      if snap.Exists() && snap.key != "" {
        RowCache.ReplaySnoc(s.rows, [], RowCache.Removed(snap.key));
      }
  }

  /** A drain of deliveries changes the rows as replaying all their events in order does. */
  lemma {:induction false} RunAllReplays(s: OnlineState, ts: seq<Task>)
    requires Deliveries(ts)
    ensures RunAll(s, ts).rows == RowCache.Replay(s.rows, Events(SetupOf(s), ts))
    ensures SetupOf(RunAll(s, ts)) == SetupOf(s)
    ensures RunAll(s, ts).(rows := s.rows, hasManager := s.hasManager) == s
    decreases |ts|
  {
    if ts != [] {
      var pre := ts[..|ts| - 1];
      var t := ts[|ts| - 1];
      assert Deliveries(pre) by {
        forall i | 0 <= i < |pre| ensures Delivery(pre[i]) {
          assert pre[i] == ts[i];
        }
      }
      RunAllReplays(s, pre);
      RunFrame(RunAll(s, pre), t);
      RunReplays(RunAll(s, pre), t);
      RowCache.ReplayAppend(s.rows, Events(SetupOf(s), pre), EventsOf(SetupOf(s), t));
    }
  }

  /**
   * Duplicate delivery: draining the same deliveries a second time leaves
   * the rows of a single drain; at most the manager field, filled from the
   * scene by a row the second pass creates, differs.
   */
  lemma DeliveredTwice(s: OnlineState, ts: seq<Task>)
    requires Deliveries(ts)
    ensures RunAll(RunAll(s, ts), ts).rows == RunAll(s, ts).rows
    ensures RunAll(RunAll(s, ts), ts).(hasManager := RunAll(s, ts).hasManager) == RunAll(s, ts)
  {
    var once := RunAll(s, ts);
    RunAllReplays(s, ts);
    RunAllReplays(once, ts);
    RowCache.ReplayTwice(s.rows, Events(SetupOf(s), ts));
  }

  /** Delivering the same added entry twice gives the same list as once. */
  lemma AddedTwice(s: OnlineState, snap: Snap)
    ensures Run(Run(s, ApplyAdded(snap)), ApplyAdded(snap)) == Run(s, ApplyAdded(snap))
  {
  }

  /**
   * A row is marked as the user's own by the uid signed in when it was
   * created. A listeners-only detach keeps the rows, so after a switch from
   * `a` to `b` without a sign-out, `a`'s row is still the marked one and a
   * row already listed for `b` keeps its send button.
   */
  lemma SelfMarkIsFixedAtCreation(s: OnlineState, a: Uid, b: Uid, name: string)
    requires Consistent(s) && s.configured && s.rows == map[] && s.myUid == Some(a)
    requires a != "" && b != "" && a != b
    ensures var s1 := Run(Run(s, ApplyAdded(Snap(a, Some(Str(name))))), ApplyAdded(Snap(b, Some(Str(name)))));
            var s2 := RunAll(s1.(myUid := Some(b)), [DetachListeners, SeedRows([Snap(a, Some(Str(name))), Snap(b, Some(Str(name)))])]);
            a in s2.rows && b in s2.rows && s2.rows[a].isSelf && !s2.rows[b].isSelf && s2.rows[b].button.active
  {
    var ca := Snap(a, Some(Str(name)));
    var cb := Snap(b, Some(Str(name)));
    var s1 := Run(Run(s, ApplyAdded(ca)), ApplyAdded(cb));
    assert s1.rows[a].isSelf && !s1.rows[b].isSelf;
    var t := s1.(myUid := Some(b));
    var ts := [DetachListeners, SeedRows([ca, cb])];
    assert ts[..1] == [DetachListeners];
    assert [DetachListeners][..0] == [];
    assert RunAll(t, ts) == Run(Run(t, DetachListeners), SeedRows([ca, cb]));
    SeededKeepsRows(Run(t, DetachListeners), [ca, cb]);
    RunKeepsConsistent(s, ApplyAdded(ca));
    RunKeepsConsistent(Run(s, ApplyAdded(ca)), ApplyAdded(cb));
  }
}

module OnlineUsersControllers {
  import opened Wrappers
  import opened Store
  import Auth
  import UserRow
  import MainQueue
  import opened OnlineUsers

  class OnlineUsersManager {
    const configured: bool
    const prefabButton: UserRow.SendButton
    const sceneHasManager: bool
    var hasManager: bool
    var rows: map<Uid, OnlineRow>
    var myUid: Option<Uid>
    var onlineRef: Option<Path>
    var dbSubscribed: bool
    var attached: multiset<Path>
    var mainQueue: seq<Task>

    function State(): OnlineState
      reads this
    {
      OnlineState(configured, prefabButton, sceneHasManager, hasManager, rows, myUid, onlineRef, dbSubscribed, attached)
    }

    ghost predicate Valid()
      reads this
    {
      Consistent(State())
    }

    /** `inspectorManager` says whether a request manager was assigned in the inspector. */
    constructor (configured: bool, prefabButton: UserRow.SendButton, sceneHasManager: bool, inspectorManager: bool)
      ensures State() == OnlineState(configured, prefabButton, sceneHasManager, inspectorManager, map[], None, None, false, multiset{})
      ensures mainQueue == [] && Valid()
    {
      this.configured := configured;
      this.prefabButton := prefabButton;
      this.sceneHasManager := sceneHasManager;
      hasManager := inspectorManager;
      rows := map[];
      myUid := None;
      onlineRef := None;
      dbSubscribed := false;
      attached := multiset{};
      mainQueue := [];
    }

    method EnqueueOnMainThread(t: Task)
      modifies this
      ensures State() == old(State()) && mainQueue == old(mainQueue) + [t]
    {
      mainQueue := mainQueue + [t];
    }

    method AddRowSafe(uid: Uid, username: string)
      modifies this
      ensures State() == WithRow(old(State()), uid, username) && mainQueue == old(mainQueue)
    {
      if uid == "" || uid in rows {
        return;
      }
      if !configured {
        return;
      }
      if !hasManager {
        hasManager := sceneHasManager;
      }
      var self := Some(uid) == myUid;
      var row := OnlineRow(UserRow.RowLabel(uid, username, self), self,
                           UserRow.ButtonFor(prefabButton, self, false, hasManager, false));
      rows := rows[uid := row];
    }

    method RemoveRowSafe(uid: Uid)
      modifies this
      ensures State() == WithoutRow(old(State()), uid) && mainQueue == old(mainQueue)
    {
      if uid == "" || uid !in rows {
        return;
      }
      rows := rows - {uid};
    }

    method UnsubscribeFromOnlineListeners()
      modifies this
      ensures State() == ListenersDetached(old(State())) && mainQueue == old(mainQueue)
    {
      if onlineRef.Some? {
        attached := attached - multiset{onlineRef.value};
      }
      dbSubscribed := false;
      onlineRef := None;
    }

    method UnsubscribeFromOnline()
      modifies this
      ensures State() == CleanedUp(old(State())) && mainQueue == old(mainQueue)
    {
      UnsubscribeFromOnlineListeners();
      rows := map[];
    }

    method RunTask(t: Task)
      modifies this
      ensures State() == Run(old(State()), t) && mainQueue == old(mainQueue)
    {
      match t
      case DetachListeners => UnsubscribeFromOnlineListeners();
      case FullCleanup => UnsubscribeFromOnline();
      case SeedRows(children) =>
        var i := 0;
        while i < |children|
          invariant 0 <= i <= |children|
          invariant State() == Seeded(old(State()), children[..i]) && mainQueue == old(mainQueue)
        {
          AddRowSafe(children[i].key, EntryName(children[i]));
          assert children[..i + 1][..i] == children[..i];
          i := i + 1;
        }
        assert children[..i] == children;
      case ApplyAdded(snap) =>
        if snap.Exists() {
          AddRowSafe(snap.key, EntryName(snap));
        }
      case ApplyRemoved(snap) =>
        if snap.Exists() {
          RemoveRowSafe(snap.key);
        }
    }

    /** `Update`: run every queued task; one that throws is caught and skipped. */
    method Update(faults: set<nat>)
      requires Valid()
      modifies this
      ensures Valid()
      ensures State() == RunAll(old(State()), MainQueue.Completed(old(mainQueue), faults))
      ensures mainQueue == []
    {
      ghost var q := mainQueue;
      Drain(faults);
      RunAllKeepsConsistent(old(State()), MainQueue.Completed(q, faults));
    }

    /** The loop of `Update`. */
    method Drain(faults: set<nat>)
      modifies this
      ensures State() == RunAll(old(State()), MainQueue.Completed(old(mainQueue), faults))
      ensures mainQueue == []
    {
      var q := mainQueue;
      ghost var s0 := State();
      var i := 0;
      while i < |q|
        invariant 0 <= i <= |q|
        invariant mainQueue == q[i..]
        invariant State() == RunAll(s0, MainQueue.Completed(q[..i], faults))
      {
        DrainOne(q, faults, i, s0);
        i := i + 1;
      }
      assert q[..i] == q;
    }

    /** One turn of the loop of `Update`: dequeue the next task and run it unless it throws. */
    method DrainOne(ghost q: seq<Task>, faults: set<nat>, i: nat, ghost s0: OnlineState)
      requires i < |q| && mainQueue == q[i..]
      requires State() == RunAll(s0, MainQueue.Completed(q[..i], faults))
      modifies this
      ensures mainQueue == q[i + 1..]
      ensures State() == RunAll(s0, MainQueue.Completed(q[..i + 1], faults))
    {
      ghost var done := MainQueue.Completed(q[..i], faults);
      var t := mainQueue[0];
      assert t == q[i];
      mainQueue := mainQueue[1..];
      MainQueue.CompletedStep(q, faults, i);
      if i !in faults {
        RunTask(t);
        RunAllSnoc(s0, done, t);
      } else {
        assert MainQueue.Completed(q[..i + 1], faults) == done;
      }
    }

    method HandleChildAdded(ev: ChildEvent)
      modifies this
      ensures State() == old(State())
      ensures ev.Delivered? ==> mainQueue == old(mainQueue) + [ApplyAdded(ev.snap)]
      ensures ev.Failed? ==> mainQueue == old(mainQueue) + (if ev.permissionDenied then [DetachListeners] else [])
    {
      match ev
      case Failed(permissionDenied) =>
        if permissionDenied {
          EnqueueOnMainThread(DetachListeners);
        }
      case Delivered(snap) =>
        EnqueueOnMainThread(ApplyAdded(snap));
    }

    method HandleChildRemoved(ev: ChildEvent)
      modifies this
      ensures State() == old(State())
      ensures ev.Delivered? ==> mainQueue == old(mainQueue) + [ApplyRemoved(ev.snap)]
      ensures ev.Failed? ==> mainQueue == old(mainQueue) + (if ev.permissionDenied then [DetachListeners] else [])
    {
      match ev
      case Failed(permissionDenied) =>
        if permissionDenied {
          EnqueueOnMainThread(DetachListeners);
        }
      case Delivered(snap) =>
        EnqueueOnMainThread(ApplyRemoved(snap));
    }

    /** The synchronous start of `InitializeForUser`: queue a listeners-only detach, switch uid. */
    method InitializeForUser(uid: Uid)
      modifies this
      ensures State() == old(State()).(myUid := Some(uid))
      ensures mainQueue == old(mainQueue) + (if old(dbSubscribed) then [DetachListeners] else [])
    {
      if dbSubscribed {
        EnqueueOnMainThread(DetachListeners);
      }
      myUid := Some(uid);
    }

    /** After `EnsureAuthToken`: on success attach to "users-online" (unconditionally). */
    method AfterTokenCheck(env: Auth.AuthEnv) returns (proceed: bool)
      modifies this
      ensures proceed == Auth.EnsureAuthToken(env).ok
      ensures !proceed ==> State() == old(State())
      ensures proceed ==> State() == old(State()).(onlineRef := Some(UsersOnline), dbSubscribed := true,
                                                   attached := old(attached) + multiset{UsersOnline})
      ensures mainQueue == old(mainQueue)
    {
      var check := Auth.EnsureAuthToken(env);
      if !check.ok {
        return false;
      }
      onlineRef := Some(UsersOnline);
      attached := attached + multiset{UsersOnline};
      dbSubscribed := true;
      return true;
    }

    /** The initial load: seed the rows, or after a permission error detach the listeners. */
    method AfterInitialLoad(load: Load)
      modifies this
      ensures State() == old(State())
      ensures load.Loaded? ==> mainQueue == old(mainQueue) + [SeedRows(load.children)]
      ensures load.LoadFailed? ==> mainQueue == old(mainQueue) + (if load.permissionDenied then [DetachListeners] else [])
    {
      match load
      case Loaded(children) => EnqueueOnMainThread(SeedRows(children));
      case LoadFailed(permissionDenied) =>
        if permissionDenied {
          EnqueueOnMainThread(DetachListeners);
        }
    }

    /** `Start`: fill the manager from the scene if unset, then initialise for the signed-in user. */
    method Start(current: Option<Uid>) returns (initStarted: bool)
      modifies this
      ensures initStarted == current.Some?
      ensures current.None? ==> State() == old(State()).(hasManager := old(hasManager) || sceneHasManager)
      ensures current.Some? ==> State() == old(State()).(hasManager := old(hasManager) || sceneHasManager, myUid := current)
      ensures mainQueue == old(mainQueue) + (if current.Some? && old(dbSubscribed) then [DetachListeners] else [])
    {
      if !hasManager {
        hasManager := sceneHasManager;
      }
      if current.Some? {
        InitializeForUser(current.value);
      }
      return current.Some?;
    }

    /**
     * `OnAuthStateChanged`: a sign-out queues the full cleanup and forgets the
     * uid; the same user while subscribed is ignored; any other user starts
     * `InitializeForUser`.
     */
    method OnAuthStateChanged(current: Option<Uid>) returns (initStarted: bool)
      modifies this
      ensures current.None? ==> !initStarted && State() == old(State()).(myUid := None)
      ensures current.None? ==> mainQueue == old(mainQueue) + [FullCleanup]
      ensures current.Some? && old(dbSubscribed) && old(myUid) == current ==>
                !initStarted && State() == old(State()) && mainQueue == old(mainQueue)
      ensures current.Some? && !(old(dbSubscribed) && old(myUid) == current) ==>
                initStarted && State() == old(State()).(myUid := current) &&
                mainQueue == old(mainQueue) + (if old(dbSubscribed) then [DetachListeners] else [])
    {
      if current.None? {
        EnqueueOnMainThread(FullCleanup);
        myUid := None;
        return false;
      }
      if dbSubscribed && myUid == current {
        return false;
      }
      InitializeForUser(current.value);
      return true;
    }

    method OnDestroy()
      modifies this
      ensures State() == old(State()) && mainQueue == old(mainQueue) + [FullCleanup]
    {
      EnqueueOnMainThread(FullCleanup);
    }
  }
}
