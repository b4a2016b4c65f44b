/**
 * The auth dialog store of src/stores/auth.store.ts: one flag,
 * `isAuthDialogOpen`, written through the store's `set`. Every `set`
 * notifies the store's subscribers, so the model counts the writes.
 */
module AuthStore {

  class AuthDialogStore {
    var isAuthDialogOpen: bool
    /** Number of `set` calls so far (each one notifies subscribers). */
    var writes: nat

    /** The dialog starts closed. */
    constructor ()
      ensures !isAuthDialogOpen && writes == 0
    {
      isAuthDialogOpen := false;
      writes := 0;
    }

    /** `showAuthDialog`: opens the dialog, writing only when it was closed. */
    method ShowAuthDialog()
      modifies this
      ensures isAuthDialogOpen
      ensures writes == if old(isAuthDialogOpen) then old(writes) else old(writes) + 1
    {
      if !isAuthDialogOpen {
        isAuthDialogOpen := true;
        writes := writes + 1;
      }
    }

    /** `hideAuthDialog`: always writes `false`. */
    method HideAuthDialog()
      modifies this
      ensures !isAuthDialogOpen && writes == old(writes) + 1
    {
      isAuthDialogOpen := false;
      writes := writes + 1;
    }
  }

  /** Any number of `showAuthDialog` calls in a row (say, from several
      requests failing with 401 at once) open the dialog with at most one
      write. */
  method ShowRepeatedly(store: AuthDialogStore, n: nat)
    requires n >= 1
    modifies store
    ensures store.isAuthDialogOpen
    ensures store.writes == if old(store.isAuthDialogOpen) then old(store.writes) else old(store.writes) + 1
  {
    store.ShowAuthDialog();
    var k := 1;
    while k < n
      invariant 1 <= k <= n
      invariant store.isAuthDialogOpen
      invariant store.writes == if old(store.isAuthDialogOpen) then old(store.writes) else old(store.writes) + 1
    {
      store.ShowAuthDialog();
      k := k + 1;
    }
  }

  /** Showing then hiding leaves the dialog closed whatever it was before. */
  method ShowThenHide(store: AuthDialogStore)
    modifies store
    ensures !store.isAuthDialogOpen
    ensures old(store.writes) + 1 <= store.writes <= old(store.writes) + 2
  {
    store.ShowAuthDialog();
    store.HideAuthDialog();
  }
}
