/**
 * The sent friend-request list (`OutboxController`): one row per target
 * uid, labelled with the target's name when it is known and with the
 * shortened uid otherwise; a counter "Enviadas (n)"; a cache of resolved
 * target names; and a main-thread queue that `Update` drains, catching each
 * task's exception.
 */
module Outbox {
  import opened Wrappers
  import opened Store
  import Text
  import Labels

  function CounterLabel(n: nat): string {
    "Enviadas (" + Text.NatToString(n) + ")"
  }

  /**
   * `ParseUsernameFromSnapshot`: a string value as is, a record's non-empty
   * "username" text field, and "" otherwise (a number or boolean fails the
   * JSON read, which is caught).
   */
  function ParseUsername(snap: Snap): (name: string)
    ensures !snap.Exists() ==> name == ""
    ensures snap.Exists() && snap.value.value.Str? ==> name == snap.value.value.s
    ensures snap.Exists() && (snap.value.value.Int? || snap.value.value.Bool?) ==> name == ""
    ensures snap.Exists() && snap.value.value.Obj? && name != "" ==>
              snap.Child("username").Exists() && snap.Child("username").value.value == Str(name)
  {
    match snap.value
    case None => ""
    case Some(v) =>
      match v
      case Str(s) => s
      case Obj(fields) =>
        if "username" in fields && fields["username"].Str? then fields["username"].s else ""
      case _ => ""
  }

  /** `ParseStatusFromSnapshot`: a record's integer "status" field, and 0 in every other case. */
  function ParseStatus(snap: Snap): (status: int)
    ensures status != 0 ==> snap.Child("status").Exists() && snap.Child("status").value.value == Int(status)
    ensures snap.Child("status").Exists() && snap.Child("status").value.value.Int? ==>
              status == snap.Child("status").value.value.i
  {
    match snap.value
    case None => 0
    case Some(v) =>
      if v.Obj? && "status" in v.fields && v.fields["status"].Int? then v.fields["status"].i else 0
  }

  /** The user name an outbox entry shows: blanked when it is the sender's own name. */
  function TargetName(snap: Snap, myUsername: string): (name: string)
    ensures name == "" || name != myUsername
    ensures ParseUsername(snap) != myUsername ==> name == ParseUsername(snap)
  {
    var name := ParseUsername(snap);
    if name != "" && name == myUsername then "" else name
  }

  datatype Task =
    | FullCleanup                     // UnsubscribeFromOutbox
    | SeedRows(children: seq<Snap>)   // the initial load
    | ApplyAdded(snap: Snap)
    | ApplyChanged(snap: Snap)
    | ApplyRemoved(key: Uid)

  datatype OutboxState = OutboxState(
    configured: bool,
    rows: map<Uid, string>,            // target uid -> row label
    counterText: string,
    myUid: Option<Uid>,
    myUsername: string,
    outboxRef: Option<Path>,
    dbSubscribed: bool,
    attached: multiset<Path>,          // one entry per registered listener triple
    uidNameCache: map<Uid, string>,
    resolving: multiset<Uid>)          // name reads in flight

  predicate Consistent(s: OutboxState) {
    && (s.rows != map[] ==> s.counterText == CounterLabel(|s.rows|))
    && (!s.configured ==> s.rows == map[])
    && (s.dbSubscribed ==> s.outboxRef.Some?)
    && "" !in s.rows
  }

  /**
   * `ResolveAndSetTargetName` up to its read: a cached non-empty name is
   * shown at once; otherwise a read of the target's name is started.
   */
  function Resolve(s: OutboxState, uid: Uid): (r: OutboxState)
    requires uid in s.rows
    ensures r.rows.Keys == s.rows.Keys
    ensures uid in s.uidNameCache && s.uidNameCache[uid] != "" ==>
              r.rows[uid] == s.uidNameCache[uid] && r.resolving == s.resolving
    ensures !(uid in s.uidNameCache && s.uidNameCache[uid] != "") ==>
              r.rows == s.rows && r.resolving == s.resolving + multiset{uid}
    ensures r.(rows := s.rows, resolving := s.resolving) == s
  {
    if uid in s.uidNameCache && s.uidNameCache[uid] != "" then s.(rows := s.rows[uid := s.uidNameCache[uid]])
    else s.(resolving := s.resolving + multiset{uid})
  }

  /**
   * `AddOrUpdateRow`: an empty uid is ignored; an existing row is relabelled
   * (never duplicated); a new row needs the prefab. A new or relabelled row
   * shows the name, else the shortened uid, until the name is resolved.
   */
  function AddOrUpdate(s: OutboxState, uid: Uid, username: string): (r: OutboxState)
    ensures uid == "" ==> r == s
    ensures uid != "" && s.configured ==> r.rows.Keys == s.rows.Keys + {uid}
    ensures uid != "" && !s.configured ==> r.rows.Keys == s.rows.Keys
    ensures forall k :: k in s.rows && k != uid ==> r.rows[k] == s.rows[k]
    ensures uid != "" && uid in r.rows && !(uid in s.uidNameCache && s.uidNameCache[uid] != "") ==>
              r.rows[uid] == Labels.LabelOr(username, Labels.ShortUid(uid))
    ensures r.rows.Keys != s.rows.Keys ==> r.counterText == CounterLabel(|r.rows|)
    ensures r.rows.Keys == s.rows.Keys ==> r.counterText == s.counterText
    ensures r.(rows := s.rows, counterText := s.counterText, resolving := s.resolving) == s
  {
    if uid == "" then s
    else if uid in s.rows then Relabelled(s, uid, username)
    else if !s.configured then s
    else Added(s, uid, username)
  }

  /** An existing row shows the new label, then its name is resolved; the counter stays. */
  function Relabelled(s: OutboxState, uid: Uid, username: string): (r: OutboxState)
    requires uid in s.rows
    ensures r.rows.Keys == s.rows.Keys
    ensures forall k :: k in s.rows && k != uid ==> r.rows[k] == s.rows[k]
    ensures !(uid in s.uidNameCache && s.uidNameCache[uid] != "") ==>
              r.rows[uid] == Labels.LabelOr(username, Labels.ShortUid(uid))
    ensures r.(rows := s.rows, resolving := s.resolving) == s
  {
    var relabelled := s.(rows := s.rows[uid := Labels.LabelOr(username, Labels.ShortUid(uid))]);
    assert relabelled.rows.Keys == s.rows.Keys;
    Resolve(relabelled, uid)
  }

  /** A new row, its name resolved, and the counter recomputed. */
  function Added(s: OutboxState, uid: Uid, username: string): (r: OutboxState)
    requires uid !in s.rows
    ensures uid in r.rows && r.rows == s.rows[uid := r.rows[uid]]
    ensures !(uid in s.uidNameCache && s.uidNameCache[uid] != "") ==>
              r.rows[uid] == Labels.LabelOr(username, Labels.ShortUid(uid))
    ensures r.counterText == CounterLabel(|r.rows|)
    ensures r.(rows := s.rows, counterText := s.counterText, resolving := s.resolving) == s
  {
    var added := s.(rows := s.rows[uid := Labels.LabelOr(username, Labels.ShortUid(uid))]);
    var resolved := Resolve(added, uid);
    resolved.(counterText := CounterLabel(|resolved.rows|))
  }

  /** `RemoveRow`: an empty or absent uid changes nothing; otherwise exactly that row goes. */
  function WithoutRow(s: OutboxState, uid: Uid): (r: OutboxState)
    ensures uid == "" || uid !in s.rows ==> r == s
    ensures uid != "" && uid in s.rows ==> r.rows.Keys == s.rows.Keys - {uid} && r.counterText == CounterLabel(|r.rows|)
    ensures forall k :: k in r.rows ==> r.rows[k] == s.rows[k]
    ensures r.(rows := s.rows, counterText := s.counterText) == s
  {
    if uid == "" || uid !in s.rows then s
    else
      var rows := s.rows - {uid};
      s.(rows := rows, counterText := CounterLabel(|rows|))
  }

  /** The listener part of `UnsubscribeFromOutbox`. */
  function Detached(s: OutboxState): OutboxState {
    s.(attached := if s.outboxRef.Some? && s.dbSubscribed then s.attached - multiset{s.outboxRef.value} else s.attached,
       dbSubscribed := false, outboxRef := None)
  }

  /** `UnsubscribeFromOutbox`: detach (when subscribed), forget the ref, drop every row. */
  function CleanedUp(s: OutboxState): (r: OutboxState)
    ensures r.rows == map[] && r.counterText == CounterLabel(0)
    ensures !r.dbSubscribed && r.outboxRef.None?
    ensures s.outboxRef.Some? && s.dbSubscribed ==> r.attached == s.attached - multiset{s.outboxRef.value}
    ensures !(s.outboxRef.Some? && s.dbSubscribed) ==> r.attached == s.attached
    ensures r.uidNameCache == s.uidNameCache && r.myUid == s.myUid && r.myUsername == s.myUsername
  {
    Detached(s).(rows := map[], counterText := CounterLabel(0))
  }

  /** The initial load's children, each through the own-name filter and `AddOrUpdateRow`, in order. */
  function Seeded(s: OutboxState, children: seq<Snap>): OutboxState
    decreases |children|
  {
    if children == [] then s
    else
      var last := children[|children| - 1];
      var r := Seeded(s, children[..|children| - 1]);
      AddOrUpdate(r, last.key, TargetName(last, r.myUsername))
  }

  /**
   * `HandleChildChanged` on the main thread: an entry whose status left 0
   * (answered) loses its row; a pending one is added or relabelled.
   */
  function Changed(s: OutboxState, snap: Snap): OutboxState {
    if !snap.Exists() then s
    else if ParseStatus(snap) != 0 then WithoutRow(s, snap.key)
    else AddOrUpdate(s, snap.key, TargetName(snap, s.myUsername))
  }

  function Run(s: OutboxState, t: Task): OutboxState {
    match t
    case FullCleanup => CleanedUp(s)
    case SeedRows(children) =>
      var r := Seeded(s, children);
      r.(counterText := CounterLabel(|r.rows|))
    case ApplyAdded(snap) =>
      if !snap.Exists() then s else AddOrUpdate(s, snap.key, TargetName(snap, s.myUsername))
    case ApplyChanged(snap) => Changed(s, snap)
    case ApplyRemoved(key) => WithoutRow(s, key)
  }

  function RunAll(s: OutboxState, ts: seq<Task>): OutboxState
    decreases |ts|
  {
    if ts == [] then s else Run(RunAll(s, ts[..|ts| - 1]), ts[|ts| - 1])
  }

  lemma RunAllSnoc(s: OutboxState, ts: seq<Task>, t: Task)
    ensures RunAll(s, ts + [t]) == Run(RunAll(s, ts), t)
  {
    assert (ts + [t])[..|ts|] == ts;
  }

  /**
   * The continuation of `ResolveAndSetTargetName`: a stored name is cached
   * and shown on the target's row (if it still has one); a missing name is
   * cached as ""; a failed read changes nothing but ends the read.
   */
  function Resolved(s: OutboxState, uid: Uid, read: Read): (r: OutboxState)
    ensures read.ReadFailed? ==> r == s.(resolving := s.resolving - multiset{uid})
    ensures read.Got? ==> uid in r.uidNameCache
    ensures read.Got? && read.value.Some? && uid in s.rows ==>
              uid in r.rows && r.rows[uid] == Labels.LabelOr(Display(read.value.value), Labels.ShortUid(uid))
    ensures r.rows.Keys == s.rows.Keys
  {
    var s1 := s.(resolving := s.resolving - multiset{uid});
    match read
    case ReadFailed => s1
    case Got(None) => s1.(uidNameCache := s.uidNameCache[uid := ""])
    case Got(Some(v)) => NameRead(s1, uid, Display(v))
  }

  /** A username read for `uid`: cached, and shown on the row if the row is still there. */
  function NameRead(s: OutboxState, uid: Uid, name: string): (r: OutboxState)
    ensures r.uidNameCache == s.uidNameCache[uid := name]
    ensures r.rows == if uid in s.rows then s.rows[uid := Labels.LabelOr(name, Labels.ShortUid(uid))] else s.rows
    ensures r.resolving == s.resolving
  {
    var s2 := s.(uidNameCache := s.uidNameCache[uid := name]);
    if uid in s.rows then s2.(rows := s.rows[uid := Labels.LabelOr(name, Labels.ShortUid(uid))]) else s2
  }

  lemma {:induction false} SeededKeepsConsistent(s: OutboxState, children: seq<Snap>)
    requires Consistent(s)
    ensures Consistent(Seeded(s, children))
    ensures Seeded(s, children).configured == s.configured && Seeded(s, children).myUsername == s.myUsername
    ensures Seeded(s, children).outboxRef == s.outboxRef && Seeded(s, children).dbSubscribed == s.dbSubscribed
    decreases |children|
  {
    if children != [] {
      SeededKeepsConsistent(s, children[..|children| - 1]);
    }
  }

  /** Every task keeps the counter in step with the rows and keeps the empty uid out. */
  lemma RunKeepsConsistent(s: OutboxState, t: Task)
    requires Consistent(s)
    ensures Consistent(Run(s, t))
  {
    if t.SeedRows? {
      SeededKeepsConsistent(s, t.children);
    }
  }

  lemma {:induction false} RunAllKeepsConsistent(s: OutboxState, ts: seq<Task>)
    requires Consistent(s)
    ensures Consistent(RunAll(s, ts))
    decreases |ts|
  {
    if ts != [] {
      RunAllKeepsConsistent(s, ts[..|ts| - 1]);
      RunKeepsConsistent(RunAll(s, ts[..|ts| - 1]), ts[|ts| - 1]);
    }
  }

  lemma ResolvedKeepsConsistent(s: OutboxState, uid: Uid, read: Read)
    requires Consistent(s)
    ensures Consistent(Resolved(s, uid, read))
  {
  }

  /** An answered entry (status not 0) never keeps a row; a pending one always has one (given a prefab). */
  lemma ChangedStatusRule(s: OutboxState, snap: Snap)
    requires snap.Exists() && snap.key != ""
    ensures ParseStatus(snap) != 0 ==> snap.key !in Changed(s, snap).rows
    ensures ParseStatus(snap) == 0 && (s.configured || snap.key in s.rows) ==> snap.key in Changed(s, snap).rows
  {
  }

  /**
   * A target entry that carries the sender's own name is labelled with the
   * shortened uid (unless a resolved name is cached), never with that name.
   */
  lemma OwnNameNotShown(s: OutboxState, snap: Snap)
    requires snap.Exists() && snap.key != "" && s.configured
    requires ParseUsername(snap) == s.myUsername && s.myUsername != ""
    requires snap.key !in s.uidNameCache
    ensures Run(s, ApplyAdded(snap)).rows[snap.key] == Labels.ShortUid(snap.key)
  {
  }

  /** Adding or updating the same target twice leaves one row. */
  lemma AddOrUpdateTwiceOneRow(s: OutboxState, uid: Uid, n1: string, n2: string)
    ensures AddOrUpdate(AddOrUpdate(s, uid, n1), uid, n2).rows.Keys == AddOrUpdate(s, uid, n1).rows.Keys
  {
  }
}

module OutboxControllers {
  import opened Wrappers
  import opened Store
  import Auth
  import Labels
  import MainQueue
  import opened Outbox

  class OutboxController {
    const configured: bool
    var rows: map<Uid, string>
    var counterText: string
    var myUid: Option<Uid>
    var myUsername: string
    var outboxRef: Option<Path>
    var dbSubscribed: bool
    var attached: multiset<Path>
    var uidNameCache: map<Uid, string>
    var resolving: multiset<Uid>
    var mainQueue: seq<Task>

    function State(): OutboxState
      reads this
    {
      OutboxState(configured, rows, counterText, myUid, myUsername, outboxRef, dbSubscribed, attached, uidNameCache, resolving)
    }

    ghost predicate Valid()
      reads this
    {
      Consistent(State())
    }

    constructor (configured: bool, counterText: string)
      ensures State() == OutboxState(configured, map[], counterText, None, "", None, false, multiset{}, map[], multiset{})
      ensures mainQueue == [] && Valid()
    {
      this.configured := configured;
      rows := map[];
      this.counterText := counterText;
      myUid := None;
      myUsername := "";
      outboxRef := None;
      dbSubscribed := false;
      attached := multiset{};
      uidNameCache := map[];
      resolving := multiset{};
      mainQueue := [];
    }

    method EnqueueOnMainThread(t: Task)
      modifies this
      ensures State() == old(State()) && mainQueue == old(mainQueue) + [t]
    {
      mainQueue := mainQueue + [t];
    }

    method UpdateCounter()
      modifies this
      ensures State() == old(State()).(counterText := CounterLabel(|rows|)) && mainQueue == old(mainQueue)
    {
      counterText := CounterLabel(|rows|);
    }

    /** `ResolveAndSetTargetName` up to its read of the target's name. */
    method ResolveAndSetTargetName(uid: Uid)
      requires uid in rows
      modifies this
      ensures State() == Resolve(old(State()), uid) && mainQueue == old(mainQueue)
    {
      if uid in uidNameCache && uidNameCache[uid] != "" {
        rows := rows[uid := uidNameCache[uid]];
        return;
      }
      resolving := resolving + multiset{uid};
    }

    /** The read started by `ResolveAndSetTargetName` for `uid` completed with `read`. */
    method OnTargetNameRead(uid: Uid, read: Read)
      modifies this
      ensures State() == Resolved(old(State()), uid, read) && mainQueue == old(mainQueue)
    {
      resolving := resolving - multiset{uid};
      ghost var s1 := State();
      match read
      case ReadFailed =>
      case Got(None) =>
        uidNameCache := uidNameCache[uid := ""];
      case Got(Some(v)) =>
        ShowReadName(uid, Display(v));
        assert State() == NameRead(s1, uid, Display(v));
    }

    /** The read name is cached and, if the row is still there, shown on it. */
    method ShowReadName(uid: Uid, name: string)
      modifies this
      ensures State() == NameRead(old(State()), uid, name) && mainQueue == old(mainQueue)
    {
      uidNameCache := uidNameCache[uid := name];
      if uid in rows {
        rows := rows[uid := Labels.LabelOr(name, Labels.ShortUid(uid))];
      }
    }

    method AddOrUpdateRow(uid: Uid, username: string)
      modifies this
      ensures State() == AddOrUpdate(old(State()), uid, username) && mainQueue == old(mainQueue)
    {
      if uid == "" {
        return;
      }
      var shown := Labels.LabelOr(username, Labels.ShortUid(uid));
      if uid in rows {
        rows := rows[uid := shown];
        ResolveAndSetTargetName(uid);
        return;
      }
      if !configured {
        return;
      }
      rows := rows[uid := shown];
      ResolveAndSetTargetName(uid);
      UpdateCounter();
    }

    method RemoveRow(uid: Uid)
      modifies this
      ensures State() == WithoutRow(old(State()), uid) && mainQueue == old(mainQueue)
    {
      if uid == "" || uid !in rows {
        return;
      }
      rows := rows - {uid};
      UpdateCounter();
    }

    /** The listener part of `UnsubscribeFromOutbox`: detach only what is registered. */
    method DetachListeners()
      modifies this
      ensures State() == Detached(old(State())) && mainQueue == old(mainQueue)
    {
      if outboxRef.Some? && dbSubscribed {
        attached := attached - multiset{outboxRef.value};
      }
      dbSubscribed, outboxRef := false, None;
    }

    method UnsubscribeFromOutbox()
      modifies this
      ensures State() == CleanedUp(old(State())) && mainQueue == old(mainQueue)
    {
      DetachListeners();
      rows := map[];
      UpdateCounter();
    }

    method RunTask(t: Task)
      modifies this
      ensures State() == Run(old(State()), t) && mainQueue == old(mainQueue)
    {
      match t
      case FullCleanup => UnsubscribeFromOutbox();
      case SeedRows(children) =>
        var i := 0;
        while i < |children|
          invariant 0 <= i <= |children|
          invariant State() == Seeded(old(State()), children[..i]) && mainQueue == old(mainQueue)
        {
          AddOrUpdateRow(children[i].key, TargetName(children[i], myUsername));
          assert children[..i + 1][..i] == children[..i];
          i := i + 1;
        }
        assert children[..i] == children;
        UpdateCounter();
      case ApplyAdded(snap) =>
        if !snap.Exists() {
          return;
        }
        AddOrUpdateRow(snap.key, TargetName(snap, myUsername));
      case ApplyChanged(snap) =>
        if !snap.Exists() {
          return;
        }
        if ParseStatus(snap) != 0 {
          RemoveRow(snap.key);
        } else {
          AddOrUpdateRow(snap.key, TargetName(snap, myUsername));
        }
      case ApplyRemoved(key) => RemoveRow(key);
    }

    /**
     * `Update`: run every queued task in order; a task that throws
     * (`faults` holds the positions that do) is caught and skipped, and the
     * drain goes on, so the queue always ends empty.
     */
    method Update(faults: set<nat>)
      requires Valid()
      modifies this
      ensures Valid()
      ensures State() == RunAll(old(State()), MainQueue.Completed(old(mainQueue), faults))
      ensures mainQueue == []
    {
      ghost var q := mainQueue;
      Drain(faults);
      RunAllKeepsConsistent(old(State()), MainQueue.Completed(q, faults));
    }

    /** The loop of `Update`. */
    method Drain(faults: set<nat>)
      modifies this
      ensures State() == RunAll(old(State()), MainQueue.Completed(old(mainQueue), faults))
      ensures mainQueue == []
    {
      var q := mainQueue;
      ghost var s0 := State();
      var i := 0;
      while i < |q|
        invariant 0 <= i <= |q|
        invariant mainQueue == q[i..]
        invariant State() == RunAll(s0, MainQueue.Completed(q[..i], faults))
      {
        DrainOne(q, faults, i, s0);
        i := i + 1;
      }
      assert q[..i] == q;
    }

    /** One turn of the loop of `Update`: dequeue the next task and run it unless it throws. */
    method DrainOne(ghost q: seq<Task>, faults: set<nat>, i: nat, ghost s0: OutboxState)
      requires i < |q| && mainQueue == q[i..]
      requires State() == RunAll(s0, MainQueue.Completed(q[..i], faults))
      modifies this
      ensures mainQueue == q[i + 1..]
      ensures State() == RunAll(s0, MainQueue.Completed(q[..i + 1], faults))
    {
      ghost var done := MainQueue.Completed(q[..i], faults);
      var t := mainQueue[0];
      assert t == q[i];
      mainQueue := mainQueue[1..];
      MainQueue.CompletedStep(q, faults, i);
      if i !in faults {
        RunTask(t);
        RunAllSnoc(s0, done, t);
      } else {
        assert MainQueue.Completed(q[..i + 1], faults) == done;
      }
    }

    method HandleChildAdded(ev: ChildEvent)
      modifies this
      ensures State() == old(State())
      ensures ev.Delivered? ==> mainQueue == old(mainQueue) + [ApplyAdded(ev.snap)]
      ensures ev.Failed? ==> mainQueue == old(mainQueue) + (if ev.permissionDenied then [FullCleanup] else [])
    {
      match ev
      case Failed(permissionDenied) =>
        if permissionDenied {
          EnqueueOnMainThread(FullCleanup);
        }
      case Delivered(snap) =>
        EnqueueOnMainThread(ApplyAdded(snap));
    }

    /** A failed delivery is only logged here. */
    method HandleChildChanged(ev: ChildEvent)
      modifies this
      ensures State() == old(State())
      ensures ev.Delivered? ==> mainQueue == old(mainQueue) + [ApplyChanged(ev.snap)]
      ensures ev.Failed? ==> mainQueue == old(mainQueue)
    {
      if ev.Delivered? {
        EnqueueOnMainThread(ApplyChanged(ev.snap));
      }
    }

    method HandleChildRemoved(ev: ChildEvent)
      modifies this
      ensures State() == old(State())
      ensures ev.Delivered? ==> mainQueue == old(mainQueue) + [ApplyRemoved(ev.snap.key)]
      ensures ev.Failed? ==> mainQueue == old(mainQueue)
    {
      if ev.Delivered? {
        EnqueueOnMainThread(ApplyRemoved(ev.snap.key));
      }
    }

    /**
     * The synchronous start of `InitializeForUser`: queue the full cleanup of
     * a previous subscription and switch to the new uid. The own user name
     * is read next (`AfterUsernameRead`), then the token is checked.
     */
    method InitializeForUser(uid: Uid)
      modifies this
      ensures State() == old(State()).(myUid := Some(uid))
      ensures mainQueue == old(mainQueue) + (if old(dbSubscribed) then [FullCleanup] else [])
    {
      if dbSubscribed {
        EnqueueOnMainThread(FullCleanup);
      }
      myUid := Some(uid);
    }

    /** The own name read: the stored value's text, or "" when it is missing or the read fails. */
    method AfterUsernameRead(read: Read)
      modifies this
      ensures read.Got? && read.value.Some? ==> State() == old(State()).(myUsername := Display(read.value.value))
      ensures !(read.Got? && read.value.Some?) ==> State() == old(State()).(myUsername := "")
      ensures mainQueue == old(mainQueue)
    {
      if read.Got? && read.value.Some? {
        myUsername := Display(read.value.value);
      } else {
        myUsername := "";
      }
    }

    /**
     * After `EnsureAuthToken`: on success point the ref at the own outbox and
     * attach the listeners, whether or not an older subscription is still
     * registered. `proceed` says whether the initial load follows.
     */
    method AfterTokenCheck(env: Auth.AuthEnv) returns (proceed: bool)
      modifies this
      ensures proceed == Auth.EnsureAuthToken(env).ok
      ensures !proceed ==> State() == old(State())
      ensures proceed ==> State() == old(State()).(
                outboxRef := Some(OutboxList(old(myUid).GetOr(""))),
                dbSubscribed := true,
                attached := old(attached) + multiset{OutboxList(old(myUid).GetOr(""))})
      ensures mainQueue == old(mainQueue)
    {
      var check := Auth.EnsureAuthToken(env);
      if !check.ok {
        return false;
      }
      var path := OutboxList(myUid.GetOr(""));
      outboxRef := Some(path);
      attached := attached + multiset{path};
      dbSubscribed := true;
      return true;
    }

    /**
     * `InitializeForUser` with the previous subscription cleaned up at once
     * instead of queued, so that the cleanup cannot run after the new
     * user's listeners are attached.
     */
    method InitializeForUserCleaningFirst(uid: Uid)
      modifies this
      ensures !dbSubscribed && myUid == Some(uid) && mainQueue == old(mainQueue)
      ensures old(dbSubscribed) ==> State() == CleanedUp(old(State())).(myUid := Some(uid))
      ensures !old(dbSubscribed) ==> State() == old(State()).(myUid := Some(uid))
    {
      if dbSubscribed {
        UnsubscribeFromOutbox();
      }
      myUid := Some(uid);
    }

    /** The initial load completed: seed the rows, or after a permission error clean up. */
    method AfterInitialLoad(load: Load)
      modifies this
      ensures State() == old(State())
      ensures load.Loaded? ==> mainQueue == old(mainQueue) + [SeedRows(load.children)]
      ensures load.LoadFailed? ==> mainQueue == old(mainQueue) + (if load.permissionDenied then [FullCleanup] else [])
    {
      match load
      case Loaded(children) => EnqueueOnMainThread(SeedRows(children));
      case LoadFailed(permissionDenied) =>
        if permissionDenied {
          EnqueueOnMainThread(FullCleanup);
        }
    }

    /**
     * `OnAuthStateChanged`: a sign-out queues the cleanup and forgets the uid
     * and the own name; the same user while subscribed is ignored; any other
     * user starts `InitializeForUser` (`initStarted`).
     */
    method OnAuthStateChanged(current: Option<Uid>) returns (initStarted: bool)
      modifies this
      ensures current.None? ==> !initStarted && State() == old(State()).(myUid := None, myUsername := "")
      ensures current.None? ==> mainQueue == old(mainQueue) + [FullCleanup]
      ensures current.Some? && old(dbSubscribed) && old(myUid) == current ==>
                !initStarted && State() == old(State()) && mainQueue == old(mainQueue)
      ensures current.Some? && !(old(dbSubscribed) && old(myUid) == current) ==>
                initStarted && State() == old(State()).(myUid := current) &&
                mainQueue == old(mainQueue) + (if old(dbSubscribed) then [FullCleanup] else [])
    {
      if current.None? {
        EnqueueOnMainThread(FullCleanup);
        myUid := None;
        myUsername := "";
        return false;
      }
      if dbSubscribed && myUid == current {
        return false;
      }
      InitializeForUser(current.value);
      return true;
    }

    method OnDestroy()
      modifies this
      ensures State() == old(State()) && mainQueue == old(mainQueue) + [FullCleanup]
    {
      EnqueueOnMainThread(FullCleanup);
    }
  }

  function TokenOk(uid: Uid): Auth.AuthEnv {
    Auth.AuthEnv(Some(uid), Some(uid), true, true)
  }

  /** A controller after `a` signed in, its name read failed and its token checked. */
  method ListeningFor(a: Uid) returns (c: OutboxController)
    ensures fresh(c) && c.Valid()
    ensures c.attached == multiset{OutboxList(a)} && c.dbSubscribed && c.outboxRef == Some(OutboxList(a))
    ensures c.myUid == Some(a) && c.mainQueue == []
  {
    c := new OutboxController(true, "");
    var started := c.OnAuthStateChanged(Some(a));
    c.AfterUsernameRead(ReadFailed);
    var ok := c.AfterTokenCheck(TokenOk(a));
  }

  /** `a` listened to, then `b` signed in directly and its outbox attached before the next `Update`. */
  method SwitchedBeforeDrain(a: Uid, b: Uid) returns (c: OutboxController)
    requires a != b
    ensures fresh(c) && c.Valid() && c.mainQueue == [FullCleanup]
    ensures c.attached == multiset{OutboxList(a), OutboxList(b)} && c.dbSubscribed && c.outboxRef == Some(OutboxList(b))
  {
    c := ListeningFor(a);
    var started := c.OnAuthStateChanged(Some(b));
    c.AfterUsernameRead(ReadFailed);
    var ok := c.AfterTokenCheck(TokenOk(b));
  }

  /** A drain of the single queued cleanup, with nothing thrown, is that cleanup. */
  lemma DrainOfCleanup(s: OutboxState)
    ensures RunAll(s, MainQueue.Completed([FullCleanup], {})) == CleanedUp(s)
  {
    MainQueue.CompletedWithoutFaults([FullCleanup], {});
    assert RunAll(s, [FullCleanup]) == Run(RunAll(s, []), FullCleanup);
  }

  /**
   * The signed-in user changes from `a` to `b` without a sign-out, and `b`'s
   * listeners are attached before the next `Update`. The queued cleanup then
   * detaches `b`'s listeners (the ref already points at `b`'s outbox) and
   * leaves `a`'s registered, so `a`'s outbox changes reach `b`'s list.
   */
  method OutboxSwitchUserBeforeDrain(a: Uid, b: Uid) returns (listensForB: bool, listensForA: bool)
    requires a != b
    ensures !listensForB && listensForA
  {
    var c := SwitchedBeforeDrain(a, b);
    ghost var before := c.State();
    c.Update({});
    DrainOfCleanup(before);
    assert OutboxList(a)[1] != OutboxList(b)[1];
    listensForB := OutboxList(b) in c.attached;
    listensForA := OutboxList(a) in c.attached;
  }

  /** `a` listened to, then cleaned up at once when `b` signs in, and `b`'s outbox attached. */
  method SwitchedCleaningFirst(a: Uid, b: Uid) returns (c: OutboxController)
    requires a != b
    ensures fresh(c) && c.Valid() && c.mainQueue == []
    ensures c.attached == multiset{OutboxList(b)}
  {
    c := ListeningFor(a);
    c.InitializeForUserCleaningFirst(b);
    assert c.attached == multiset{};
    c.AfterUsernameRead(ReadFailed);
    var ok := c.AfterTokenCheck(TokenOk(b));
  }

  /** The same switch with the cleanup done at once: `b` is listened to and `a` no longer. */
  method OutboxSwitchUserCleaningFirst(a: Uid, b: Uid) returns (listensForB: bool, listensForA: bool)
    requires a != b
    ensures listensForB && !listensForA
  {
    var c := SwitchedCleaningFirst(a, b);
    c.Update({});
    assert OutboxList(a)[1] != OutboxList(b)[1];
    listensForB := OutboxList(b) in c.attached;
    listensForA := OutboxList(a) in c.attached;
  }
}
