/**
 * The game manager's two rules outside the gameplay itself: only the first
 * instance becomes the shared `Instance`, and at game over the score is
 * written to `users/{uid}/score` only when it beats the stored one (the
 * stored text read with `int.TryParse`, 0 when missing or unreadable), or
 * unconditionally when that read fails.
 */
module Game {
  import opened Wrappers
  import opened Store
  import Text

  /** The stored score as the game over handler reads it: 0 when missing or when its text does not parse. */
  function ExistingScore(stored: Option<Value>): (e: int)
    ensures stored.None? ==> e == 0
    ensures stored.Some? ==> e == Text.ParseIntOrZero(Some(Display(stored.value)))
  {
    if stored.Some? then Text.ParseIntOrZero(Some(Display(stored.value))) else 0
  }

  /**
   * `SaveScoreToFirebase(newScore)`: the write issued, if any. No user, no
   * write; a failed read writes the new score anyway; otherwise only a
   * strictly greater score is written.
   */
  function ScoreWrites(user: Option<Uid>, newScore: int, read: Read): (ops: seq<StoreOp>)
    ensures user.None? ==> ops == []
    ensures user.Some? && read.ReadFailed? ==> ops == [Set(ScorePath(user.value), Int(newScore))]
    ensures user.Some? && read.Got? ==>
              ops == (if newScore > ExistingScore(read.value) then [Set(ScorePath(user.value), Int(newScore))] else [])
    ensures |ops| <= 1
  {
    if user.None? then []
    else if read.ReadFailed? || newScore > ExistingScore(read.value) then [Set(ScorePath(user.value), Int(newScore))]
    else []
  }

  /** A score stored as a record reads as 0: its text is the dictionary's type name. */
  lemma RecordScoreIsZero(fields: map<string, Value>)
    ensures ExistingScore(Some(Obj(fields))) == 0
  {
    DictionaryTextNoNumber();
  }

  /** A stored 32-bit score reads back as itself. */
  lemma StoredScoreRead(e: int)
    requires Text.Int32Min <= e <= Text.Int32Max
    ensures ExistingScore(Some(Int(e))) == e
  {
    Text.TryParseOfIntToString(e);
  }

  /**
   * With a successful read of a stored 32-bit score `e`, the score afterwards
   * is the larger of `e` and the new one: a high score is never lowered.
   */
  lemma {:induction false} HighScoreKept(db: Db, uid: Uid, e: int, newScore: int)
    requires Text.Int32Min <= e <= Text.Int32Max
    requires ScorePath(uid) in db && db[ScorePath(uid)] == Int(e)
    ensures var db1 := ApplyAll(db, ScoreWrites(Some(uid), newScore, Got(Some(Int(e)))));
            db1[ScorePath(uid)] == Int(if newScore > e then newScore else e)
    ensures forall p :: p != ScorePath(uid) && p in db ==>
              p in ApplyAll(db, ScoreWrites(Some(uid), newScore, Got(Some(Int(e))))) &&
              ApplyAll(db, ScoreWrites(Some(uid), newScore, Got(Some(Int(e)))))[p] == db[p]
  {
    StoredScoreRead(e);
    var ops := ScoreWrites(Some(uid), newScore, Got(Some(Int(e))));
    if newScore > e {
      assert ops == [Set(ScorePath(uid), Int(newScore))];
      ApplyOne(db, ops[0]);
    } else {
      assert ops == [];
    }
  }

  /** A first score (nothing stored yet) is written exactly when it is positive. */
  lemma FirstScoreWrittenWhenPositive(uid: Uid, newScore: int)
    ensures ScoreWrites(Some(uid), newScore, Got(None)) != [] <==> newScore > 0
  {
  }

  /** A failed read overwrites whatever is stored, so a high score can then be lowered. */
  lemma {:induction false} FailedReadOverwrites(db: Db, uid: Uid, newScore: int)
    ensures ApplyAll(db, ScoreWrites(Some(uid), newScore, ReadFailed))[ScorePath(uid)] == Int(newScore)
  {
    var ops := ScoreWrites(Some(uid), newScore, ReadFailed);
    assert ops[..0] == [];
  }
}

module GameControllers {
  import opened Wrappers
  import opened Store
  import Text
  import opened Game

  /** The static `GameManager.Instance`. */
  class Statics {
    var instance: GameManager?

    constructor ()
      ensures instance == null
    {
      instance := null;
    }
  }

  class GameManager {
    var score: int
    var destroyed: bool
    var gameOverShown: bool

    constructor (score: int)
      ensures this.score == score && !destroyed && !gameOverShown
    {
      this.score := score;
      destroyed := false;
      gameOverShown := false;
    }

    /** `Awake`: become the instance unless another one already is; then this one destroys itself. */
    method Awake(statics: Statics)
      modifies this, statics
      ensures old(statics.instance) != null && old(statics.instance) != this ==>
                destroyed && statics.instance == old(statics.instance)
      ensures old(statics.instance) == null || old(statics.instance) == this ==>
                destroyed == old(destroyed) && statics.instance == this
      ensures score == old(score) && gameOverShown == old(gameOverShown)
    {
      if statics.instance != null && statics.instance != this {
        destroyed := true;
      } else {
        statics.instance := this;
      }
    }

    /** `ShowGameOverScreen`: save the score (the write issued, given the current user and the read's outcome). */
    method ShowGameOverScreen(user: Option<Uid>, read: Read) returns (ops: seq<StoreOp>)
      modifies this
      ensures ops == ScoreWrites(user, score, read)
      ensures gameOverShown && score == old(score) && destroyed == old(destroyed)
    {
      ops := SaveScoreToFirebase(user, score, read);
      gameOverShown := true;
    }

    method SaveScoreToFirebase(user: Option<Uid>, newScore: int, read: Read) returns (ops: seq<StoreOp>)
      ensures ops == ScoreWrites(user, newScore, read)
    {
      if user.None? {
        return [];
      }
      var uid := user.value;
      match read
      case ReadFailed =>
        ops := [Set(ScorePath(uid), Int(newScore))];
      case Got(v) =>
        var existingScore := 0;
        if v.Some? {
          existingScore := Text.ParseIntOrZero(Some(Display(v.value)));
        }
        if newScore > existingScore {
          ops := [Set(ScorePath(uid), Int(newScore))];
        } else {
          ops := [];
        }
    }
  }

  /** Two managers wake in turn: the first stays the instance and the second destroys itself. */
  method TwoManagersAwake() returns (first: GameManager, second: GameManager, statics: Statics)
    ensures statics.instance == first && !first.destroyed && second.destroyed
  {
    statics := new Statics();
    first := new GameManager(0);
    second := new GameManager(0);
    first.Awake(statics);
    second.Awake(statics);
  }
}
