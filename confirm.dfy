/** The confirmation rule shared by the two destructive actions: a button
    stays disabled until the box is ticked and the typed key equals the
    session master key. */
module Confirm {

  /** `disabled={!confirm || typed !== key}`, the per-card delete button and
      the delete-all button alike. */
  function ButtonDisabled(confirmed: bool, typed: string, key: string): (disabled: bool)
    ensures !confirmed ==> disabled
    ensures typed != key ==> disabled
    ensures confirmed && typed == key ==> !disabled
  {
    !confirmed || typed != key
  }

  /** The guard re-checked inside the per-card delete click handler. It
      admits exactly the clicks an enabled button lets through. */
  function ClickGuard(typed: string, key: string, confirmed: bool): (go: bool)
    ensures go <==> !ButtonDisabled(confirmed, typed, key)
    ensures go ==> confirmed && typed == key
  {
    typed == key && confirmed
  }
}
