/**
 * A row of the incoming friend-request list (`RequestRowController`):
 * accepting or rejecting sends the response through the request manager
 * (status 1 or 2) and then removes the row from the inbox list.
 */
module RequestRow {
  import opened Wrappers
  import opened Store
  import Labels
  import FriendRequests
  import Inbox
  import InboxControllers

  class RequestRowController {
    var usernameText: string
    var acceptButton: Labels.ButtonView
    var rejectButton: Labels.ButtonView
    var uid: Uid
    var username: string
    var manager: FriendRequests.FriendRequestManager?
    var parent: InboxControllers.InboxController?

    constructor ()
      ensures manager == null && parent == null && uid == "" && username == "" && usernameText == ""
    {
      usernameText := "";
      acceptButton := Labels.ButtonView(false, false);
      rejectButton := Labels.ButtonView(false, false);
      uid := "";
      username := "";
      manager := null;
      parent := null;
    }

    /** `Init`: the label is the user name, else the uid; both buttons are shown and enabled. */
    method Init(uid: Uid, username: string, frm: FriendRequests.FriendRequestManager?, parent: InboxControllers.InboxController?)
      modifies this
      ensures this.uid == uid && this.username == username && manager == frm && this.parent == parent
      ensures usernameText == Labels.LabelOr(username, uid)
      ensures acceptButton == Labels.ButtonView(true, true) && rejectButton == Labels.ButtonView(true, true)
    {
      this.uid := uid;
      this.username := username;
      manager := frm;
      this.parent := parent;
      usernameText := Labels.LabelOr(username, uid);
      acceptButton := Labels.ButtonView(true, true);
      rejectButton := Labels.ButtonView(true, true);
    }

    /**
     * Respond with `status`, then tell the inbox list to drop the row. Without
     * a manager nothing happens.
     */
    method Respond(status: int, current: Option<Uid>, deleteOk: bool) returns (ops: seq<StoreOp>, removed: Option<Uid>)
      modifies manager, parent
      ensures manager == null ==> ops == [] && removed.None?
      ensures manager == null && parent != null ==> parent.State() == old(parent.State()) && parent.mainQueue == old(parent.mainQueue)
      ensures manager != null ==> manager.myUsername == old(manager.myUsername)
      ensures manager != null && old(manager.myUserId) != "" ==> manager.myUserId == old(manager.myUserId)
      ensures manager != null && manager.myUserId != "" ==>
                ops == FriendRequests.RespondOps(manager.myUserId, uid, username, status, deleteOk)
      ensures manager != null && manager.myUserId == "" ==> ops == []
      ensures manager != null && parent != null ==>
                parent.State() == Inbox.WithoutRow(old(parent.State()), uid) && parent.mainQueue == old(parent.mainQueue)
    {
      if manager == null {
        return [], None;
      }
      ops, removed := manager.RespondFriendRequestAsync(uid, username, status, current, deleteOk);
      if parent != null {
        parent.OnResponded(uid);
      }
    }

    method OnAcceptClicked(current: Option<Uid>, deleteOk: bool) returns (ops: seq<StoreOp>, removed: Option<Uid>)
      modifies manager, parent
      ensures manager == null ==> ops == [] && removed.None?
      ensures manager != null && manager.myUserId != "" ==>
                ops == FriendRequests.RespondOps(manager.myUserId, uid, username, FriendRequests.Accepted, deleteOk)
      ensures manager != null && parent != null ==> parent.State() == Inbox.WithoutRow(old(parent.State()), uid)
    {
      ops, removed := Respond(FriendRequests.Accepted, current, deleteOk);
    }

    method OnRejectClicked(current: Option<Uid>, deleteOk: bool) returns (ops: seq<StoreOp>, removed: Option<Uid>)
      modifies manager, parent
      ensures manager == null ==> ops == [] && removed.None?
      ensures manager != null && manager.myUserId != "" ==>
                ops == FriendRequests.RespondOps(manager.myUserId, uid, username, FriendRequests.Rejected, deleteOk)
      ensures manager != null && parent != null ==> parent.State() == Inbox.WithoutRow(old(parent.State()), uid)
    {
      ops, removed := Respond(FriendRequests.Rejected, current, deleteOk);
    }
  }
}
