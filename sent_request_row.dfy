/**
 * A row of the sent friend-request list (`SentRequestRowController`):
 * cancelling deletes the own outbox entry and then the recipient's inbox
 * entry; the row goes away only when both deletes succeed.
 */
module SentRequestRow {
  import opened Wrappers
  import opened Store
  import Labels
  import FriendRequests

  /**
   * The deletes a cancel makes: the own outbox entry, then (only if that
   * succeeded) the recipient's inbox entry for the sender.
   */
  function CancelOps(me: Uid, target: Uid, outboxOk: bool, inboxOk: bool): (ops: seq<StoreOp>)
    ensures forall op :: op in ops ==> op.Delete?
    ensures outboxOk ==> |ops| == (if inboxOk then 2 else 1) && ops[0] == Delete(OutboxEntry(me, target))
    ensures outboxOk && inboxOk ==> ops[1] == Delete(InboxEntry(target, me))
    ensures !outboxOk ==> ops == []
  {
    if !outboxOk then []
    else [Delete(OutboxEntry(me, target))] + (if inboxOk then [Delete(InboxEntry(target, me))] else [])
  }

  /** A cancel that succeeds undoes a send that succeeded: neither request entry is left. */
  lemma CancelUndoesSend(db: Db, me: Uid, name: Option<string>, target: Uid)
    requires me != ""
    ensures var sent := ApplyAll(db, FriendRequests.SendOps(me, name, target, true, true));
            var cancelled := ApplyAll(sent, CancelOps(me, target, true, true));
            OutboxEntry(me, target) !in cancelled && InboxEntry(target, me) !in cancelled
  {
    var ops := CancelOps(me, target, true, true);
    var sent := ApplyAll(db, FriendRequests.SendOps(me, name, target, true, true));
    ApplyTwo(sent, ops[0], ops[1]);
    assert OutboxEntry(me, target)[2] != InboxEntry(target, me)[3];
  }

  class SentRequestRowController {
    var usernameText: string
    var cancelButton: Labels.ButtonView
    var targetUid: Uid
    /** The row has been destroyed. */
    var destroyed: bool

    constructor ()
      ensures usernameText == "" && targetUid == "" && !destroyed
    {
      usernameText := "";
      cancelButton := Labels.ButtonView(false, false);
      targetUid := "";
      destroyed := false;
    }

    /** `Init`: the label is the user name, else the shortened uid; the cancel button is shown and enabled. */
    method Init(uid: Uid, username: string)
      modifies this
      ensures targetUid == uid && usernameText == Labels.LabelOr(username, Labels.ShortUid(uid))
      ensures cancelButton == Labels.ButtonView(true, true) && destroyed == old(destroyed)
    {
      targetUid := uid;
      usernameText := Labels.LabelOr(username, Labels.ShortUid(uid));
      cancelButton := Labels.ButtonView(true, true);
    }

    /** `UpdateUsername`: an empty name falls back to the shortened uid. */
    method UpdateUsername(username: string)
      modifies this`usernameText
      ensures usernameText == Labels.LabelOr(username, Labels.ShortUid(targetUid))
    {
      usernameText := Labels.LabelOr(username, Labels.ShortUid(targetUid));
    }

    /**
     * `OnCancelClicked` with `current` the signed-in user: nothing without both
     * uids; otherwise the button is disabled and the two deletes are made; on
     * a failure the button is enabled again and the row stays, on success the
     * row is destroyed.
     */
    method OnCancelClicked(current: Option<Uid>, outboxOk: bool, inboxOk: bool) returns (ops: seq<StoreOp>)
      modifies this`cancelButton, this`destroyed
      ensures current.None? || current.value == "" || targetUid == "" ==>
                ops == [] && cancelButton == old(cancelButton) && destroyed == old(destroyed)
      ensures current.Some? && current.value != "" && targetUid != "" ==>
                ops == CancelOps(current.value, targetUid, outboxOk, inboxOk)
      ensures current.Some? && current.value != "" && targetUid != "" && outboxOk && inboxOk ==>
                destroyed && !cancelButton.interactable
      ensures current.Some? && current.value != "" && targetUid != "" && !(outboxOk && inboxOk) ==>
                cancelButton.interactable && destroyed == old(destroyed)
    {
      if current.None? || current.value == "" || targetUid == "" {
        return [];
      }
      cancelButton := cancelButton.(interactable := false);
      ops := CancelOps(current.value, targetUid, outboxOk, inboxOk);
      if !(outboxOk && inboxOk) {
        cancelButton := cancelButton.(interactable := true);
        return;
      }
      destroyed := true;
    }
  }
}
