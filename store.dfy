/**
 * The remote tree store as the controllers see it: values as the database
 * SDK hands them to C#, data snapshots, listener deliveries, one-shot reads,
 * and the writes the scripts issue. The store itself is a flat map from
 * paths to values; only the leaf entries the scripts write are modelled.
 */
module Store {
  import opened Wrappers
  import Text

  type Uid = string
  type Path = seq<string>

  /** A value as the SDK returns it: string, integer (`long`), boolean, or a dictionary. */
  datatype Value = Str(s: string) | Int(i: int) | Bool(b: bool) | Obj(fields: map<string, Value>)

  /** What `ToString()` prints for a dictionary value. */
  const DictionaryText := "System.Collections.Generic.Dictionary`2[System.String,System.Object]"

  /** A dictionary's type name is not a number: its digit sits between letters and brackets. */
  lemma DictionaryTextNoNumber()
    ensures Text.TryParseInt32(Some(DictionaryText)) == None
  {
  }

  /** `value.ToString()` of a non-null SDK value. */
  function Display(v: Value): (s: string)
    ensures v.Str? ==> s == v.s
    ensures v.Int? ==> s == Text.IntToString(v.i)
    ensures v.Obj? ==> s == DictionaryText
  {
    match v
    case Str(s) => s
    case Int(i) => Text.IntToString(i)
    case Bool(b) => if b then "True" else "False"
    case Obj(_) => DictionaryText
  }

  /** `Value?.ToString()`: None when there is no value. */
  function DisplayOpt(v: Option<Value>): Option<string> {
    match v
    case None => None
    case Some(x) => Some(Display(x))
  }

  /** A data snapshot: its key and its value; `Exists` exactly when the value is not null. */
  datatype Snap = Snap(key: string, value: Option<Value>) {

    predicate Exists() {
      value.Some?
    }

    /** `snap.Child(name)`: a dictionary field, or a snapshot that does not exist. */
    function Child(name: string): (c: Snap)
      ensures c.key == name
      ensures c.Exists() <==> value.Some? && value.value.Obj? && name in value.value.fields
    {
      Snap(name, if value.Some? && value.value.Obj? && name in value.value.fields
                 then Some(value.value.fields[name]) else None)
    }
  }

  /** What a child listener (ChildAdded, ChildRemoved, ChildChanged) delivers. */
  datatype ChildEvent =
    | Delivered(snap: Snap)
    | Failed(permissionDenied: bool)   // DatabaseError whose message mentions "permission"

  /** Outcome of a one-shot read of a list (`GetValueAsync`); a missing node has no children. */
  datatype Load = Loaded(children: seq<Snap>) | LoadFailed(permissionDenied: bool)

  /** Outcome of a one-shot read of a single value. */
  datatype Read = Got(value: Option<Value>) | ReadFailed

  /** One write: `SetValueAsync(v)` / `SetRawJsonValueAsync`, or `SetValueAsync(null)`. */
  datatype StoreOp = Set(path: Path, value: Value) | Delete(path: Path)

  /** `SetValueAsync(x)` where `x` may be null: a null value deletes the entry. */
  function SetOrDelete(path: Path, v: Option<Value>): StoreOp {
    match v
    case Some(x) => Set(path, x)
    case None => Delete(path)
  }

  type Db = map<Path, Value>

  function Apply(db: Db, op: StoreOp): (r: Db)
    ensures op.Set? ==> op.path in r && r[op.path] == op.value
    ensures op.Delete? ==> op.path !in r
    ensures forall p :: p != op.path ==> (p in r <==> p in db) && (p in r ==> r[p] == db[p])
  {
    match op
    case Set(p, v) => db[p := v]
    case Delete(p) => db - {p}
  }

  /** The writes applied in issue order. */
  function ApplyAll(db: Db, ops: seq<StoreOp>): Db
    decreases |ops|
  {
    if ops == [] then db else Apply(ApplyAll(db, ops[..|ops| - 1]), ops[|ops| - 1])
  }

  lemma ApplyAllAppend(db: Db, ops: seq<StoreOp>, more: seq<StoreOp>)
    ensures ApplyAll(db, ops + more) == ApplyAll(ApplyAll(db, ops), more)
    decreases |more|
  {
    if more == [] {
      assert ops + more == ops;
    } else {
      assert (ops + more)[..|ops + more| - 1] == ops + more[..|more| - 1];
      ApplyAllAppend(db, ops, more[..|more| - 1]);
    }
  }

  lemma ApplyOne(db: Db, x: StoreOp)
    ensures ApplyAll(db, [x]) == Apply(db, x)
  {
    assert [x][..0] == [];
  }

  lemma ApplyTwo(db: Db, x: StoreOp, y: StoreOp)
    ensures ApplyAll(db, [x, y]) == Apply(Apply(db, x), y)
  {
    assert [x, y][..1] == [x];
    assert [x][..0] == [];
    assert ApplyAll(db, [x]) == Apply(ApplyAll(db, []), x);
  }

  /** The user whose subtree `users/{uid}/...` a path lies in, if any. */
  function OwnerOf(p: Path): Option<Uid> {
    if |p| >= 2 && p[0] == "users" then Some(p[1]) else None
  }

  function OpPath(op: StoreOp): Path {
    match op
    case Set(p, _) => p
    case Delete(p) => p
  }

  // Paths the scripts use.
  function InboxList(owner: Uid): Path { ["users", owner, "friendRequests", "inbox"] }
  function OutboxList(owner: Uid): Path { ["users", owner, "friendRequests", "outbox"] }
  function FriendsList(owner: Uid): Path { ["users", owner, "friends"] }
  function MatchRequestsList(owner: Uid): Path { ["users", owner, "matchRequests"] }
  const UsersOnline: Path := ["users-online"]
  const Matches: Path := ["matches"]

  function InboxEntry(owner: Uid, sender: Uid): Path { InboxList(owner) + [sender] }
  function OutboxEntry(owner: Uid, target: Uid): Path { OutboxList(owner) + [target] }
  function FriendEntry(owner: Uid, friend: Uid): Path { FriendsList(owner) + [friend] }
  function MatchRequestEntry(owner: Uid, sender: Uid): Path { MatchRequestsList(owner) + [sender] }
  function MatchRequestMirror(owner: Uid, target: Uid): Path { ["users", owner, "matchRequests-outbox", target] }
  function MatchEntry(key: string): Path { Matches + [key] }
  function UsernamePath(owner: Uid): Path { ["users", owner, "username"] }
  function ScorePath(owner: Uid): Path { ["users", owner, "score"] }
}
