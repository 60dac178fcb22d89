/**
 * A row of the matchmaking screen's incoming-request list
 * (`IncomingMatchRowController`): the sender, its label, and the accept and
 * reject buttons that answer through the screen's manager and then destroy
 * the row.
 */
module IncomingMatchRow {
  import opened Wrappers
  import opened Store
  import Matchmaking
  import MatchmakingControllers

  class IncomingMatchRowController {
    const hasUsernameText: bool
    var usernameText: string
    var senderUid: Uid
    var senderName: string
    var parent: MatchmakingControllers.MatchmakingManager?
    var destroyed: bool

    constructor (hasUsernameText: bool)
      ensures this.hasUsernameText == hasUsernameText
      ensures usernameText == "" && senderUid == "" && senderName == "" && parent == null && !destroyed
    {
      this.hasUsernameText := hasUsernameText;
      usernameText := "";
      senderUid := "";
      senderName := "";
      parent := null;
      destroyed := false;
    }

    /** `Init`: remember the sender and the manager; label the row with the name, else the short uid. */
    method Init(senderUid: Uid, senderName: string, parent: MatchmakingControllers.MatchmakingManager?)
      modifies this
      ensures this.senderUid == senderUid && this.senderName == senderName && this.parent == parent
      ensures hasUsernameText ==> usernameText == Matchmaking.RowLabel(senderUid, senderName)
      ensures !hasUsernameText ==> usernameText == old(usernameText)
      ensures destroyed == old(destroyed)
    {
      this.senderUid := senderUid;
      this.senderName := senderName;
      this.parent := parent;
      if hasUsernameText {
        usernameText := Matchmaking.RowLabel(senderUid, senderName);
      }
    }

    /**
     * The accept (`accepted`) or reject button: answer through the manager, if
     * there is one, and destroy the row whatever the answer's outcome. The
     * answer's writes are returned; `deleteOk`, `createOk` are the awaited
     * writes' outcomes, `matchKey` the pushed key and `now` the clock.
     */
    method Answer(accepted: bool, deleteOk: bool, matchKey: string, now: int, createOk: bool) returns (ops: seq<StoreOp>)
      modifies this
      ensures destroyed
      ensures senderUid == old(senderUid) && senderName == old(senderName) && parent == old(parent) && usernameText == old(usernameText)
      ensures parent == null ==> ops == []
      ensures parent != null ==> ops == Matchmaking.RespondMatchRequestOps(parent.myUid, senderUid, accepted, deleteOk, matchKey, now, createOk)
    {
      ops := [];
      if parent != null {
        ops := parent.RespondMatchRequest(senderUid, accepted, deleteOk, matchKey, now, createOk);
      }
      destroyed := true;
    }

    /** `OnAccept`. */
    method OnAccept(deleteOk: bool, matchKey: string, now: int, createOk: bool) returns (ops: seq<StoreOp>)
      modifies this
      ensures destroyed
      ensures senderUid == old(senderUid) && parent == old(parent)
      ensures parent == null ==> ops == []
      ensures parent != null ==> ops == Matchmaking.RespondMatchRequestOps(parent.myUid, senderUid, true, deleteOk, matchKey, now, createOk)
    {
      ops := Answer(true, deleteOk, matchKey, now, createOk);
    }

    /** `OnReject`: at most the deletion of the request; never a match. */
    method OnReject(deleteOk: bool, matchKey: string, now: int, createOk: bool) returns (ops: seq<StoreOp>)
      modifies this
      ensures destroyed
      ensures senderUid == old(senderUid) && parent == old(parent)
      ensures |ops| <= 1
      ensures ops != [] ==> parent != null && parent.myUid.Some? && ops == [Delete(MatchRequestEntry(parent.myUid.value, senderUid))]
    {
      ops := Answer(false, deleteOk, matchKey, now, createOk);
    }
  }
}
