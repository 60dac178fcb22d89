/**
 * The incoming friend-request list (`InboxController`): one row per sender
 * uid, a counter "Solicitudes (n)", a subscription to the own inbox guarded
 * by `dbSubscribed`, and a main-thread queue of work that `Update` drains.
 *
 * Store listeners are recorded in `attached`, one entry per registered
 * ChildAdded/ChildRemoved pair, keyed by the path they listen on.
 */
module Inbox {
  import opened Wrappers
  import opened Store
  import Text
  import Auth
  import Labels
  import MainQueue

  function CounterLabel(n: nat): string {
    "Solicitudes (" + Text.NatToString(n) + ")"
  }

  /**
   * The sender name an inbox entry carries: a string value as is, a record's
   * "username" field as text, and "" otherwise.
   */
  function RequestName(snap: Snap): (name: string)
    ensures snap.value.None? ==> name == ""
    ensures snap.value.Some? && snap.value.value.Str? ==> name == snap.value.value.s
    ensures snap.value.Some? && !snap.value.value.Str? ==>
              name == (if snap.Child("username").Exists() then Display(snap.Child("username").value.value) else "")
  {
    match snap.value
    case None => ""
    case Some(v) =>
      if v.Str? then v.s
      else
        var c := snap.Child("username");
        if c.Exists() then Display(c.value.value) else ""
  }

  /** Work the store and auth callbacks hand to the main thread. */
  datatype Task =
    | DetachListeners                 // UnsubscribeFromInboxListeners
    | FullCleanup                     // UnsubscribeFromInbox
    | SeedRows(children: seq<Snap>)   // the initial load
    | ApplyAdded(snap: Snap)          // a ChildAdded delivery
    | ApplyRemoved(key: Uid)          // a ChildRemoved delivery
    | FallbackAdded(uid: Uid, name: string)
    | FallbackRemoved(uid: Uid)

  /** The controller's fields other than its queue. */
  datatype InboxState = InboxState(
    configured: bool,          // row prefab and content both assigned
    rows: map<Uid, string>,    // uid -> row label
    counterText: string,
    myUid: Option<Uid>,
    inboxRef: Option<Path>,
    dbSubscribed: bool,
    attached: multiset<Path>)

  /** What every operation keeps: the counter matches the rows once any row exists. */
  predicate Consistent(s: InboxState) {
    && (s.rows != map[] ==> s.counterText == CounterLabel(|s.rows|))
    && (!s.configured ==> s.rows == map[])
    && (s.dbSubscribed ==> s.inboxRef.Some?)
  }

  /** `IsAuthorizedForInbox`: a user is signed in and it is the one the controller was set up for. */
  predicate Authorized(s: InboxState, current: Option<Uid>) {
    current.Some? && s.myUid == current
  }

  /** `AddRow`: a uid that already has a row, or a controller without a prefab, changes nothing. */
  function WithRow(s: InboxState, uid: Uid, name: string): (r: InboxState)
    ensures r.rows.Keys == if s.configured then s.rows.Keys + {uid} else s.rows.Keys
    ensures forall k :: k in s.rows ==> r.rows[k] == s.rows[k]
    ensures s.configured && uid !in s.rows ==> r.rows[uid] == Labels.LabelOr(name, uid)
    ensures r.rows != s.rows ==> r.counterText == CounterLabel(|r.rows|)
    ensures r.rows == s.rows ==> r == s
    ensures r.(rows := s.rows, counterText := s.counterText) == s
  {
    if uid in s.rows || !s.configured then s
    else
      var rows := s.rows[uid := Labels.LabelOr(name, uid)];
      s.(rows := rows, counterText := CounterLabel(|rows|))
  }

  /** `RemoveRow`: an absent uid changes nothing; otherwise exactly that row goes. */
  function WithoutRow(s: InboxState, uid: Uid): (r: InboxState)
    ensures uid !in s.rows ==> r == s
    ensures uid in s.rows ==> r.rows.Keys == s.rows.Keys - {uid} && r.counterText == CounterLabel(|r.rows|)
    ensures forall k :: k in r.rows ==> r.rows[k] == s.rows[k]
    ensures r.(rows := s.rows, counterText := s.counterText) == s
  {
    if uid !in s.rows then s
    else
      var rows := s.rows - {uid};
      s.(rows := rows, counterText := CounterLabel(|rows|))
  }

  /** `UnsubscribeFromInboxListeners`: detach from the current ref; the rows stay. */
  function ListenersDetached(s: InboxState): (r: InboxState)
    ensures !r.dbSubscribed && r.inboxRef.None?
    ensures r.rows == s.rows && r.counterText == s.counterText && r.myUid == s.myUid
    ensures r.attached == if s.inboxRef.Some? then s.attached - multiset{s.inboxRef.value} else s.attached
  {
    s.(attached := if s.inboxRef.Some? then s.attached - multiset{s.inboxRef.value} else s.attached,
       dbSubscribed := false, inboxRef := None)
  }

  /** `UnsubscribeFromInbox`: detach and also drop every row; the counter shows 0. */
  function CleanedUp(s: InboxState): (r: InboxState)
    ensures r.rows == map[] && r.counterText == CounterLabel(0)
    ensures !r.dbSubscribed && r.inboxRef.None? && r.myUid == s.myUid
    ensures r.attached == ListenersDetached(s).attached
  {
    ListenersDetached(s).(rows := map[], counterText := CounterLabel(0))
  }

  /** The rows after adding one row per child of the initial load, in order. */
  function Seeded(s: InboxState, children: seq<Snap>): InboxState
    decreases |children|
  {
    if children == [] then s
    else
      var last := children[|children| - 1];
      WithRow(Seeded(s, children[..|children| - 1]), last.key, RequestName(last))
  }

  /** One queued task run on the main thread, `current` being the signed-in user at that moment. */
  function Run(s: InboxState, t: Task, current: Option<Uid>): InboxState {
    match t
    case DetachListeners => ListenersDetached(s)
    case FullCleanup => CleanedUp(s)
    case SeedRows(children) =>
      if !Authorized(s, current) then s
      else
        var r := Seeded(s, children);
        r.(counterText := CounterLabel(|r.rows|))
    case ApplyAdded(snap) =>
      if !Authorized(s, current) || !snap.Exists() then s else WithRow(s, snap.key, RequestName(snap))
    case ApplyRemoved(key) =>
      if !Authorized(s, current) then s else WithoutRow(s, key)
    case FallbackAdded(uid, name) =>
      if uid in s.rows then s else WithRow(s, uid, name)
    case FallbackRemoved(uid) =>
      if uid in s.rows then WithoutRow(s, uid) else s
  }

  function RunAll(s: InboxState, ts: seq<Task>, current: Option<Uid>): InboxState
    decreases |ts|
  {
    if ts == [] then s else Run(RunAll(s, ts[..|ts| - 1], current), ts[|ts| - 1], current)
  }

  lemma RunAllSnoc(s: InboxState, ts: seq<Task>, t: Task, current: Option<Uid>)
    ensures RunAll(s, ts + [t], current) == Run(RunAll(s, ts, current), t, current)
  {
    assert (ts + [t])[..|ts|] == ts;
  }

  /** Seeding touches the rows and the counter only. */
  lemma {:induction false} SeededFrame(s: InboxState, children: seq<Snap>)
    ensures Seeded(s, children).(rows := s.rows, counterText := s.counterText) == s
    decreases |children|
  {
    if children != [] {
      SeededFrame(s, children[..|children| - 1]);
    }
  }

  lemma {:induction false} SeededKeepsConsistent(s: InboxState, children: seq<Snap>)
    requires Consistent(s)
    ensures Consistent(Seeded(s, children))
    decreases |children|
  {
    if children != [] {
      SeededKeepsConsistent(s, children[..|children| - 1]);
    }
  }

  /** Every queued task keeps the counter in step with the rows. */
  lemma RunKeepsConsistent(s: InboxState, t: Task, current: Option<Uid>)
    requires Consistent(s)
    ensures Consistent(Run(s, t, current))
  {
    match t
    case SeedRows(children) =>
      SeededKeepsConsistent(s, children);
      SeededFrame(s, children);
    case ApplyAdded(snap) =>
      if Authorized(s, current) && snap.Exists() {
        var name := RequestName(snap);
        assert Run(s, t, current) == WithRow(s, snap.key, name);
      }
    case _ =>
  }

  lemma {:induction false} RunAllKeepsConsistent(s: InboxState, ts: seq<Task>, current: Option<Uid>)
    requires Consistent(s)
    ensures Consistent(RunAll(s, ts, current))
    decreases |ts|
  {
    if ts != [] {
      RunAllKeepsConsistent(s, ts[..|ts| - 1], current);
      RunKeepsConsistent(RunAll(s, ts[..|ts| - 1], current), ts[|ts| - 1], current);
    }
  }

  /**
   * Store deliveries and the initial load change nothing unless the signed-in
   * user is the one the controller was set up for.
   */
  lemma UnauthorizedDeliveriesIgnored(s: InboxState, t: Task, current: Option<Uid>)
    requires t.SeedRows? || t.ApplyAdded? || t.ApplyRemoved?
    requires current.None? || s.myUid != current
    ensures Run(s, t, current) == s
  {
  }

  /** Adding a uid twice leaves the first row: at most one row per uid. */
  lemma WithRowTwice(s: InboxState, uid: Uid, name: string, name2: string)
    ensures WithRow(WithRow(s, uid, name), uid, name2) == WithRow(s, uid, name)
  {
  }

  /** An authorized delivery of an existing child shows its row (when a prefab is assigned). */
  lemma AuthorizedAddShowsRow(s: InboxState, snap: Snap, current: Option<Uid>)
    requires Authorized(s, current) && snap.Exists() && s.configured
    ensures snap.key in Run(s, ApplyAdded(snap), current).rows
  {
  }

  /** After the initial load every child has a row and the counter is exact, even with no child. */
  lemma {:induction false} SeedShowsEveryChild(s: InboxState, children: seq<Snap>, current: Option<Uid>)
    requires Authorized(s, current) && s.configured
    ensures forall i :: 0 <= i < |children| ==> children[i].key in Run(s, SeedRows(children), current).rows
    ensures Run(s, SeedRows(children), current).counterText == CounterLabel(|Run(s, SeedRows(children), current).rows|)
  {
    SeededKeys(s, children);
    SeededFrame(s, children);
  }

  lemma {:induction false} SeededKeys(s: InboxState, children: seq<Snap>)
    requires s.configured
    ensures s.rows.Keys <= Seeded(s, children).rows.Keys
    ensures forall i :: 0 <= i < |children| ==> children[i].key in Seeded(s, children).rows
    decreases |children|
  {
    if children != [] {
      var pre := children[..|children| - 1];
      SeededKeys(s, pre);
      SeededFrame(s, pre);
      assert forall i :: 0 <= i < |pre| ==> pre[i] == children[i];
    }
  }
}

module InboxControllers {
  import opened Wrappers
  import opened Store
  import Auth
  import Labels
  import MainQueue
  import opened Inbox

  class InboxController {
    const configured: bool
    var rows: map<Uid, string>
    var counterText: string
    var myUid: Option<Uid>
    var inboxRef: Option<Path>
    var dbSubscribed: bool
    var attached: multiset<Path>
    var mainQueue: seq<Task>

    function State(): InboxState
      reads this
    {
      InboxState(configured, rows, counterText, myUid, inboxRef, dbSubscribed, attached)
    }

    ghost predicate Valid()
      reads this
    {
      Consistent(State())
    }

    constructor (configured: bool, counterText: string)
      ensures State() == InboxState(configured, map[], counterText, None, None, false, multiset{})
      ensures mainQueue == [] && Valid()
    {
      this.configured := configured;
      rows := map[];
      this.counterText := counterText;
      myUid := None;
      inboxRef := None;
      dbSubscribed := false;
      attached := multiset{};
      mainQueue := [];
    }

    method EnqueueOnMainThread(t: Task)
      modifies this
      ensures State() == old(State()) && mainQueue == old(mainQueue) + [t]
    {
      mainQueue := mainQueue + [t];
    }

    method UpdateCounter()
      modifies this
      ensures State() == old(State()).(counterText := CounterLabel(|rows|)) && mainQueue == old(mainQueue)
    {
      counterText := CounterLabel(|rows|);
    }

    method AddRow(uid: Uid, username: string)
      modifies this
      ensures State() == WithRow(old(State()), uid, username) && mainQueue == old(mainQueue)
    {
      if uid in rows {
        return;
      }
      if !configured {
        return;
      }
      rows := rows[uid := Labels.LabelOr(username, uid)];
      UpdateCounter();
    }

    method RemoveRow(uid: Uid)
      modifies this
      ensures State() == WithoutRow(old(State()), uid) && mainQueue == old(mainQueue)
    {
      if uid !in rows {
        return;
      }
      rows := rows - {uid};
      UpdateCounter();
    }

    /** Called by a request row once its response has been sent. */
    method OnResponded(uid: Uid)
      modifies this
      ensures State() == WithoutRow(old(State()), uid) && mainQueue == old(mainQueue)
    {
      RemoveRow(uid);
    }

    method UnsubscribeFromInboxListeners()
      modifies this
      ensures State() == ListenersDetached(old(State())) && mainQueue == old(mainQueue)
    {
      if inboxRef.Some? {
        attached := attached - multiset{inboxRef.value};
      }
      dbSubscribed := false;
      inboxRef := None;
    }

    method UnsubscribeFromInbox()
      modifies this
      ensures State() == CleanedUp(old(State())) && mainQueue == old(mainQueue)
    {
      UnsubscribeFromInboxListeners();
      rows := map[];
      UpdateCounter();
    }

    /** Run one queued task; `current` is the signed-in user when it runs. */
    method RunTask(t: Task, current: Option<Uid>)
      modifies this
      ensures State() == Run(old(State()), t, current) && mainQueue == old(mainQueue)
    {
      match t
      case DetachListeners => UnsubscribeFromInboxListeners();
      case FullCleanup => UnsubscribeFromInbox();
      case SeedRows(children) =>
        if current.None? || myUid != current {
          return;
        }
        var i := 0;
        while i < |children|
          invariant 0 <= i <= |children|
          invariant State() == Seeded(old(State()), children[..i]) && mainQueue == old(mainQueue)
        {
          AddRow(children[i].key, RequestName(children[i]));
          assert children[..i + 1][..i] == children[..i];
          i := i + 1;
        }
        assert children[..i] == children;
        UpdateCounter();
      case ApplyAdded(snap) =>
        if current.None? || myUid != current || !snap.Exists() {
          return;
        }
        AddRow(snap.key, RequestName(snap));
      case ApplyRemoved(key) =>
        if current.None? || myUid != current {
          return;
        }
        RemoveRow(key);
      case FallbackAdded(uid, name) =>
        if uid !in rows {
          AddRow(uid, name);
        }
      case FallbackRemoved(uid) =>
        if uid in rows {
          RemoveRow(uid);
        }
    }

    /**
     * `Update`: run the queued tasks in order. There is no catch around a
     * task, so the first one that throws (`faults` holds the positions that
     * do) ends the drain; it is lost and the tasks behind it wait for the
     * next frame.
     */
    method Update(current: Option<Uid>, faults: set<nat>)
      requires Valid()
      modifies this
      ensures Valid()
      ensures var k := MainQueue.FirstFault(faults, |old(mainQueue)|);
              && State() == RunAll(old(State()), old(mainQueue)[..k], current)
              && mainQueue == (if k < |old(mainQueue)| then old(mainQueue)[k + 1..] else [])
    {
      var q := mainQueue;
      var k := MainQueue.FirstFault(faults, |q|);
      ghost var s0 := State();
      var i := 0;
      while i < k
        invariant 0 <= i <= k
        invariant mainQueue == q[i..]
        invariant State() == RunAll(s0, q[..i], current)
      {
        DrainOne(q, i, s0, current);
        i := i + 1;
      }
      if k < |q| {
        mainQueue := mainQueue[1..];
      }
      RunAllKeepsConsistent(s0, q[..k], current);
    }

    /** One turn of the loop of `Update`: dequeue the next task and run it. */
    method DrainOne(ghost q: seq<Task>, i: nat, ghost s0: InboxState, current: Option<Uid>)
      requires i < |q| && mainQueue == q[i..]
      requires State() == RunAll(s0, q[..i], current)
      modifies this
      ensures mainQueue == q[i + 1..]
      ensures State() == RunAll(s0, q[..i + 1], current)
    {
      var t := mainQueue[0];
      assert t == q[i];
      mainQueue := mainQueue[1..];
      RunTask(t, current);
      assert q[..i + 1] == q[..i] + [t];
      RunAllSnoc(s0, q[..i], t, current);
    }

    method HandleChildAdded(ev: ChildEvent)
      modifies this
      ensures State() == old(State())
      ensures ev.Delivered? ==> mainQueue == old(mainQueue) + [ApplyAdded(ev.snap)]
      ensures ev.Failed? ==> mainQueue == old(mainQueue) + (if ev.permissionDenied then [DetachListeners] else [])
    {
      match ev
      case Failed(permissionDenied) =>
        if permissionDenied {
          EnqueueOnMainThread(DetachListeners);
        }
      case Delivered(snap) =>
        EnqueueOnMainThread(ApplyAdded(snap));
    }

    method HandleChildRemoved(ev: ChildEvent)
      modifies this
      ensures State() == old(State())
      ensures ev.Delivered? ==> mainQueue == old(mainQueue) + [ApplyRemoved(ev.snap.key)]
      ensures ev.Failed? ==> mainQueue == old(mainQueue) + (if ev.permissionDenied then [DetachListeners] else [])
    {
      match ev
      case Failed(permissionDenied) =>
        if permissionDenied {
          EnqueueOnMainThread(DetachListeners);
        }
      case Delivered(snap) =>
        EnqueueOnMainThread(ApplyRemoved(snap.key));
    }

    /** The `OnInboxRequestAdded` event of the friend-request manager. */
    method OnInboxRequestAddedFallback(senderUid: Uid, senderUsername: string)
      modifies this
      ensures State() == old(State()) && mainQueue == old(mainQueue) + [FallbackAdded(senderUid, senderUsername)]
    {
      EnqueueOnMainThread(FallbackAdded(senderUid, senderUsername));
    }

    /** The `OnInboxRequestRemoved` event of the friend-request manager. */
    method OnInboxRequestRemovedFallback(senderUid: Uid)
      modifies this
      ensures State() == old(State()) && mainQueue == old(mainQueue) + [FallbackRemoved(senderUid)]
    {
      EnqueueOnMainThread(FallbackRemoved(senderUid));
    }

    /**
     * The synchronous start of `InitializeForUser`: queue a detach of the
     * listeners a previous user left, and switch to the new uid. The rest runs
     * after the token check (`AfterTokenCheck`).
     */
    method InitializeForUser(uid: Uid)
      modifies this
      ensures State() == old(State()).(myUid := Some(uid))
      ensures mainQueue == old(mainQueue) + (if old(dbSubscribed) then [DetachListeners] else [])
    {
      if dbSubscribed {
        EnqueueOnMainThread(DetachListeners);
      }
      myUid := Some(uid);
    }

    /**
     * `InitializeForUser` after `EnsureAuthToken`: on success point the ref at
     * the own inbox and attach the listeners, but only when not subscribed
     * already. `proceed` says whether the initial load follows.
     */
    method AfterTokenCheck(env: Auth.AuthEnv) returns (proceed: bool)
      modifies this
      ensures proceed == Auth.EnsureAuthToken(env).ok
      ensures !proceed ==> State() == old(State())
      ensures proceed ==> State() == old(State()).(
                inboxRef := Some(InboxList(old(myUid).GetOr(""))),
                dbSubscribed := true,
                attached := if old(dbSubscribed) then old(attached) else old(attached) + multiset{InboxList(old(myUid).GetOr(""))})
      ensures mainQueue == old(mainQueue)
    {
      var check := Auth.EnsureAuthToken(env);
      if !check.ok {
        return false;
      }
      var path := InboxList(myUid.GetOr(""));
      inboxRef := Some(path);
      if !dbSubscribed {
        attached := attached + multiset{path};
        dbSubscribed := true;
      }
      return true;
    }

    /**
     * `InitializeForUser` with the detach of the previous user's listeners
     * done at once instead of queued, so that the `dbSubscribed` guard in
     * `AfterTokenCheck` sees the old subscription gone.
     */
    method InitializeForUserDetachingFirst(uid: Uid)
      modifies this
      ensures !dbSubscribed && myUid == Some(uid) && mainQueue == old(mainQueue)
      ensures old(dbSubscribed) ==> State() == ListenersDetached(old(State())).(myUid := Some(uid))
      ensures !old(dbSubscribed) ==> State() == old(State()).(myUid := Some(uid))
    {
      if dbSubscribed {
        UnsubscribeFromInboxListeners();
      }
      myUid := Some(uid);
    }

    /** The initial load completed: seed the rows, or on failure detach the listeners only. */
    method AfterInitialLoad(load: Load)
      modifies this
      ensures State() == old(State())
      ensures load.Loaded? ==> mainQueue == old(mainQueue) + [SeedRows(load.children)]
      ensures load.LoadFailed? ==> mainQueue == old(mainQueue) + [DetachListeners]
    {
      match load
      case Loaded(children) => EnqueueOnMainThread(SeedRows(children));
      case LoadFailed(_) => EnqueueOnMainThread(DetachListeners);
    }

    /**
     * `OnAuthStateChanged`: a sign-out queues the full cleanup and forgets the
     * uid; the same user while subscribed is ignored; any other user starts
     * `InitializeForUser` (`initStarted`).
     */
    method OnAuthStateChanged(current: Option<Uid>) returns (initStarted: bool)
      modifies this
      ensures current.None? ==> !initStarted && State() == old(State()).(myUid := None) && mainQueue == old(mainQueue) + [FullCleanup]
      ensures current.Some? && old(dbSubscribed) && old(myUid) == current ==>
                !initStarted && State() == old(State()) && mainQueue == old(mainQueue)
      ensures current.Some? && !(old(dbSubscribed) && old(myUid) == current) ==>
                initStarted && State() == old(State()).(myUid := current) &&
                mainQueue == old(mainQueue) + (if old(dbSubscribed) then [DetachListeners] else [])
    {
      if current.None? {
        EnqueueOnMainThread(FullCleanup);
        myUid := None;
        return false;
      }
      if dbSubscribed && myUid == current {
        return false;
      }
      InitializeForUser(current.value);
      return true;
    }

    /** `Start`: initialise for the user already signed in, if any. */
    method Start(current: Option<Uid>) returns (initStarted: bool)
      modifies this
      ensures initStarted == current.Some?
      ensures current.None? ==> State() == old(State()) && mainQueue == old(mainQueue)
      ensures current.Some? ==> State() == old(State()).(myUid := current)
      ensures current.Some? ==> mainQueue == old(mainQueue) + (if old(dbSubscribed) then [DetachListeners] else [])
    {
      if current.Some? {
        InitializeForUser(current.value);
      }
      return current.Some?;
    }

    method OnDestroy()
      modifies this
      ensures State() == old(State()) && mainQueue == old(mainQueue) + [FullCleanup]
    {
      EnqueueOnMainThread(FullCleanup);
    }
  }

  /** A signed-in `uid` whose cached token is valid. */
  function TokenOk(uid: Uid): Auth.AuthEnv {
    Auth.AuthEnv(Some(uid), Some(uid), true, true)
  }

  /** A controller after `a` signed in, its token checked, an empty inbox loaded and one `Update`. */
  method ListeningFor(a: Uid) returns (c: InboxController)
    ensures fresh(c) && c.Valid()
    ensures c.attached == multiset{InboxList(a)} && c.dbSubscribed && c.inboxRef == Some(InboxList(a))
    ensures c.myUid == Some(a) && c.mainQueue == []
  {
    c := new InboxController(true, "");
    var started := c.OnAuthStateChanged(Some(a));
    var ok := c.AfterTokenCheck(TokenOk(a));
    c.AfterInitialLoad(Loaded([]));
    c.Update(Some(a), {});
  }

  /** `a` listened to, then `b` signed in directly, its token checked and an empty inbox loaded before the next `Update`. */
  method SwitchedBeforeDrain(a: Uid, b: Uid) returns (c: InboxController)
    requires a != b
    ensures fresh(c) && c.Valid() && c.mainQueue == [DetachListeners, SeedRows([])]
    ensures c.attached == multiset{InboxList(a)} && c.inboxRef == Some(InboxList(b))
  {
    c := ListeningFor(a);
    var started := c.OnAuthStateChanged(Some(b));
    var ok := c.AfterTokenCheck(TokenOk(b));
    c.AfterInitialLoad(Loaded([]));
  }

  /** A drain of a queued detach and an empty seed, with nothing thrown: the listeners of the current ref go. */
  lemma DrainOfDetachAndSeed(s: InboxState, current: Option<Uid>)
    ensures var k := MainQueue.FirstFault({}, 2);
            var r := RunAll(s, [DetachListeners, SeedRows([])][..k], current);
            r.attached == ListenersDetached(s).attached
  {
    var q := [DetachListeners, SeedRows([])];
    assert MainQueue.FirstFault({}, 2) == 2;
    assert q[..2] == q && q[..1] == [DetachListeners];
    assert RunAll(s, q, current) == Run(Run(RunAll(s, [], current), DetachListeners, current), SeedRows([]), current);
    SeededFrame(ListenersDetached(s), []);
  }

  /**
   * The signed-in user changes from `a` to `b` without a sign-out, and the
   * token check for `b` completes before the next `Update`. The queued detach
   * then runs after `AfterTokenCheck` skipped attaching (the controller still
   * counted as subscribed): it removes nothing from `b`'s inbox and leaves
   * `a`'s listeners in place.
   */
  method SwitchUserBeforeDrain(a: Uid, b: Uid) returns (listensForB: bool, listensForA: bool)
    requires a != b
    ensures !listensForB && listensForA
  {
    var c := SwitchedBeforeDrain(a, b);
    ghost var before := c.State();
    c.Update(Some(b), {});
    DrainOfDetachAndSeed(before, Some(b));
    assert InboxList(a)[1] != InboxList(b)[1];
    listensForB := InboxList(b) in c.attached;
    listensForA := InboxList(a) in c.attached;
  }

  /** `a` listened to, then detached at once when `b` signs in, and `b`'s inbox attached and loaded. */
  method SwitchedDetachingFirst(a: Uid, b: Uid) returns (c: InboxController)
    requires a != b
    ensures fresh(c) && c.Valid() && c.mainQueue == [SeedRows([])]
    ensures c.attached == multiset{InboxList(b)}
  {
    c := ListeningFor(a);
    c.InitializeForUserDetachingFirst(b);
    assert c.attached == multiset{};
    var ok := c.AfterTokenCheck(TokenOk(b));
    c.AfterInitialLoad(Loaded([]));
  }

  /** The same switch with the detach done at once: `b` is listened to and `a` no longer. */
  method SwitchUserDetachingFirst(a: Uid, b: Uid) returns (listensForB: bool, listensForA: bool)
    requires a != b
    ensures listensForB && !listensForA
  {
    var c := SwitchedDetachingFirst(a, b);
    ghost var before := c.State();
    c.Update(Some(b), {});
    assert MainQueue.FirstFault({}, 1) == 1;
    assert [SeedRows([])][..1] == [SeedRows([])];
    assert RunAll(before, [SeedRows([])], Some(b)) == Run(RunAll(before, [], Some(b)), SeedRows([]), Some(b));
    SeededFrame(before, []);
    assert InboxList(a)[1] != InboxList(b)[1];
    listensForB := InboxList(b) in c.attached;
    listensForA := InboxList(a) in c.attached;
  }
}
