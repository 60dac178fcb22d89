/**
 * Row labels: the shortened uid and the fallbacks used when a display name
 * is empty; and the shown / enabled state of a row's buttons.
 */
module Labels {

  /** A row button: shown (`SetActive`) and enabled (`interactable`). */
  datatype ButtonView = ButtonView(active: bool, interactable: bool)

  const NoIdLabel := "sin-id"

  /**
   * `ShortUidLabel` / `ShortUid` (the same rule in four scripts): "sin-id"
   * for an empty uid, the first eight characters followed by "..." for a
   * longer one, the uid itself otherwise.
   */
  function ShortUid(uid: string): (r: string)
    ensures r != [] && |r| <= 11
    ensures uid == "" ==> r == NoIdLabel
    ensures 0 < |uid| <= 8 ==> r == uid
    ensures |uid| > 8 ==> |r| == 11 && r[..8] == uid[..8] && r[8..] == "..."
  {
    if uid == "" then NoIdLabel else if |uid| > 8 then uid[..8] + "..." else uid
  }

  /** Shortening a label that is already short changes nothing. */
  lemma ShortUidIdempotent(uid: string)
    ensures ShortUid(ShortUid(uid)) == ShortUid(uid)
  {
    if |uid| > 8 {
      assert ShortUid(uid)[..8] == uid[..8];
    }
  }

  /** Two non-empty uids of at most eight characters are shown as themselves, so equal labels mean equal uids. */
  lemma ShortUidInjectiveOnShort(a: string, b: string)
    requires 0 < |a| <= 8 && 0 < |b| <= 8
    requires ShortUid(a) == ShortUid(b)
    ensures a == b
  {
  }

  /** The label text: the display name, or `fallback` when the name is empty. */
  function LabelOr(name: string, fallback: string): string {
    if name != "" then name else fallback
  }
}
