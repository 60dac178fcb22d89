/**
 * A row of the online-users list (`UserRowController`): the label, and the
 * "send friend request" button whose state follows from whether the row is
 * the user's own, a friend, or has a request pending.
 */
module UserRow {
  import opened Wrappers
  import opened Store
  import Labels
  import FriendRequests

  const SelfSuffix := " (tú)"
  const CaptionAdd := "Agregar"
  const CaptionUnavailable := "No disponible"
  const CaptionSent := "Enviado"
  const CaptionSending := "Enviando..."
  const CaptionRetry := "Error - Reintentar"

  /** The row label: the user name, else the uid, marked when it is the user's own row. */
  function RowLabel(uid: Uid, username: string, isSelf: bool): string {
    Labels.LabelOr(username, uid) + (if isSelf then SelfSuffix else "")
  }

  /** The send button: shown or hidden, clickable or not, and its caption. */
  datatype SendButton = SendButton(active: bool, interactable: bool, caption: string)

  /**
   * `ApplyButtonState`: hidden for the own row and for a friend (nothing else
   * about it changes); otherwise shown, disabled with "No disponible" without
   * a request manager, disabled with "Enviado" while a request is pending,
   * and enabled with "Agregar" otherwise.
   */
  function ButtonFor(b: SendButton, isSelf: bool, isFriend: bool, hasManager: bool, isPending: bool): (r: SendButton)
    ensures isSelf || isFriend ==> r == b.(active := false)
    ensures !isSelf && !isFriend ==> r.active
    ensures !isSelf && !isFriend && !hasManager ==> !r.interactable && r.caption == CaptionUnavailable
    ensures !isSelf && !isFriend && hasManager && isPending ==> !r.interactable && r.caption == CaptionSent
    ensures !isSelf && !isFriend && hasManager && !isPending ==> r.interactable && r.caption == CaptionAdd
  {
    if isSelf || isFriend then b.(active := false)
    else if !hasManager then SendButton(true, false, CaptionUnavailable)
    else if isPending then SendButton(true, false, CaptionSent)
    else SendButton(true, true, CaptionAdd)
  }

  /** A click can reach the request manager only on a stranger's row, with a manager and nothing pending. */
  lemma ClickableExactly(b: SendButton, isSelf: bool, isFriend: bool, hasManager: bool, isPending: bool)
    ensures var r := ButtonFor(b, isSelf, isFriend, hasManager, isPending);
            (r.active && r.interactable) <==> (!isSelf && !isFriend && hasManager && !isPending)
  {
  }

  /** Applying the table twice is applying it once. */
  lemma ButtonForIdempotent(b: SendButton, isSelf: bool, isFriend: bool, hasManager: bool, isPending: bool)
    ensures var r := ButtonFor(b, isSelf, isFriend, hasManager, isPending);
            ButtonFor(r, isSelf, isFriend, hasManager, isPending) == r
  {
  }

  class UserRowController {
    var usernameText: string
    var button: SendButton
    var userId: Uid
    var username: string
    var manager: FriendRequests.FriendRequestManager?
    var isSelf: bool
    var isFriend: bool
    var isPending: bool

    /** A row as the prefab instantiates it, before `Init`. */
    constructor (button: SendButton)
      ensures this.button == button && manager == null
      ensures usernameText == "" && userId == "" && username == "" && !isSelf && !isFriend && !isPending
    {
      usernameText := "";
      this.button := button;
      userId := "";
      username := "";
      manager := null;
      isSelf := false;
      isFriend := false;
      isPending := false;
    }

    /** `Init`; `sceneManager` is what a lookup in the scene finds when no manager is passed. */
    method Init(uid: Uid, uname: string, frm: FriendRequests.FriendRequestManager?,
                sceneManager: FriendRequests.FriendRequestManager?, self: bool, friend: bool, pending: bool)
      modifies this
      ensures userId == uid && username == uname
      ensures manager == (if frm != null then frm else sceneManager)
      ensures isSelf == self && isFriend == friend && isPending == pending
      ensures usernameText == RowLabel(uid, uname, self)
      ensures button == ButtonFor(old(button), self, friend, manager != null, pending)
    {
      userId := uid;
      username := uname;
      manager := if frm != null then frm else sceneManager;
      isSelf, isFriend, isPending := self, friend, pending;
      usernameText := RowLabel(uid, uname, self);
      ApplyButtonState();
    }

    /** `UpdateState`: replace the three flags and re-apply the table. */
    method UpdateState(self: bool, friend: bool, pending: bool)
      modifies this
      ensures isSelf == self && isFriend == friend && isPending == pending
      ensures button == ButtonFor(old(button), self, friend, manager != null, pending)
      ensures usernameText == old(usernameText) && userId == old(userId) && username == old(username) && manager == old(manager)
    {
      isSelf, isFriend, isPending := self, friend, pending;
      ApplyButtonState();
    }

    method ApplyButtonState()
      modifies this`button
      ensures button == ButtonFor(old(button), isSelf, isFriend, manager != null, isPending)
    {
      button := ButtonFor(button, isSelf, isFriend, manager != null, isPending);
    }

    /**
     * `OnSendFriendClicked`: disable the button and send; on success mark the
     * request pending and re-apply the table, on failure re-enable the button
     * with a retry caption. `ops` are the writes the send made.
     */
    method OnSendFriendClicked(inboxOk: bool, outboxOk: bool) returns (ops: seq<StoreOp>)
      modifies this`isPending, this`button
      ensures manager == null || userId == "" ==> ops == [] && isPending == old(isPending) && button == old(button)
      ensures manager != null && userId != "" ==>
                ops == FriendRequests.SendOps(manager.myUserId, manager.myUsername, userId, inboxOk, outboxOk)
      ensures manager != null && userId != "" && manager.myUserId != "" && inboxOk && outboxOk ==>
                isPending && button == ButtonFor(old(button).(interactable := false, caption := CaptionSending), isSelf, isFriend, true, true)
      ensures manager != null && userId != "" && !(manager.myUserId != "" && inboxOk && outboxOk) ==>
                isPending == old(isPending) && button == old(button).(interactable := true, caption := CaptionRetry)
    {
      if manager == null {
        return [];
      }
      if userId == "" {
        return [];
      }
      button := button.(interactable := false, caption := CaptionSending);
      var success;
      success, ops := manager.SendFriendRequest(userId, inboxOk, outboxOk);
      if success {
        isPending := true;
        ApplyButtonState();
      } else {
        button := button.(interactable := true, caption := CaptionRetry);
      }
    }
  }

  /** After a successful send from a stranger's row the button shows "Enviado" and cannot be clicked again. */
  method SendThenLocked(m: FriendRequests.FriendRequestManager, uid: Uid) returns (b: SendButton)
    requires uid != "" && m.myUserId != ""
    ensures b.active && !b.interactable && b.caption == CaptionSent
  {
    var row := new UserRowController(SendButton(true, true, ""));
    row.Init(uid, "", m, null, false, false, false);
    var ops := row.OnSendFriendClicked(true, true);
    b := row.button;
  }
}
