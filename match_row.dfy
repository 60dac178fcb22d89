/**
 * A row of the matchmaking screen's online list (`MatchRowController`): the
 * user it stands for, its label, and the challenge button that sends that
 * user a match request through the screen's manager and then stays locked.
 */
module MatchRow {
  import opened Wrappers
  import opened Store
  import Matchmaking
  import MatchmakingControllers

  class MatchRowController {
    const hasUsernameText: bool       // the label reference is assigned in the prefab
    var usernameText: string
    var uid: Uid
    var username: string
    var parent: MatchmakingControllers.MatchmakingManager?
    var challengeInteractable: bool

    constructor (hasUsernameText: bool)
      ensures this.hasUsernameText == hasUsernameText
      ensures usernameText == "" && uid == "" && username == "" && parent == null && challengeInteractable
    {
      this.hasUsernameText := hasUsernameText;
      usernameText := "";
      uid := "";
      username := "";
      parent := null;
      challengeInteractable := true;
    }

    /** `Init`: remember the user and the manager; label the row with the name, else the short uid. */
    method Init(uid: Uid, username: string, parent: MatchmakingControllers.MatchmakingManager?)
      modifies this
      ensures this.uid == uid && this.username == username && this.parent == parent
      ensures hasUsernameText ==> usernameText == Matchmaking.RowLabel(uid, username)
      ensures !hasUsernameText ==> usernameText == old(usernameText)
      ensures challengeInteractable == old(challengeInteractable)
    {
      this.uid := uid;
      this.username := username;
      this.parent := parent;
      if hasUsernameText {
        usernameText := Matchmaking.RowLabel(uid, username);
      }
    }

    /**
     * `OnChallengeClicked`: with a manager and a uid, lock the button and send
     * the request (the returned writes, given each awaited write's outcome);
     * otherwise nothing happens. Nothing unlocks the button again.
     */
    method OnChallengeClicked(requestOk: bool, mirrorOk: bool) returns (ops: seq<StoreOp>)
      modifies this
      ensures uid == old(uid) && username == old(username) && parent == old(parent) && usernameText == old(usernameText)
      ensures parent != null && uid != "" ==>
                && !challengeInteractable
                && ops == Matchmaking.SendMatchRequestOps(parent.myUid, parent.myUsername, uid, requestOk, mirrorOk)
      ensures parent == null || uid == "" ==> challengeInteractable == old(challengeInteractable) && ops == []
      ensures ops != [] ==> parent != null && parent.myUid.Some?
      ensures ops != [] ==>
                ops[0] == Set(MatchRequestEntry(uid, parent.myUid.value), Str(Matchmaking.Payload(parent.myUid.value, parent.myUsername)))
    {
      ops := [];
      if parent != null && uid != "" {
        challengeInteractable := false;
        ops := parent.SendMatchRequest(uid, username, requestOk, mirrorOk);
      }
    }
  }

  /** A row clicked once stays locked: a second click is still possible but the button shows disabled. */
  method ClickedRowStaysLocked(m: MatchmakingControllers.MatchmakingManager, target: Uid, name: string)
    returns (locked: bool)
    requires target != ""
    ensures locked
  {
    var row := new MatchRowController(true);
    row.Init(target, name, m);
    var ops1 := row.OnChallengeClicked(true, true);
    var ops2 := row.OnChallengeClicked(false, false);
    locked := !row.challengeInteractable;
  }
}
