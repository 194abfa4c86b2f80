/** The state of the vault screen (`Main`) and of one password card, and the
    handlers that change it. The backend is not modelled: each handler
    returns the requests it sends, in order, and takes the backend's replies
    as parameters. */
module Session {
  import opened StrengthMeter
  import opened Confirm

  datatype Option<T> = None | Some(value: T)

  /** A stored credential as the screen receives and shows it. */
  datatype PasswordData = PasswordData(website: string, password: string, nickname: Option<string>)

  /** A backend call and its payload. */
  datatype Request =
    | GetPasswordsRequest(masterKey: string)
    | CreatePasswordRequest(password: string, masterKey: string, website: string, nickname: Option<string>)
    | DeletePasswordRequest(website: string, password: string, masterKey: string, nickname: Option<string>)
    | DeleteAllRequest

  /** The parsed reply to `getPasswords`: the records, or an `error` field. */
  datatype ListReply = Listing(records: seq<PasswordData>) | ListError(error: string)

  /** The reply to `deletePassword`. */
  datatype DeleteReply = DeleteDone | DeleteError(error: string)

  /** `if (d.error)`: an `error` field counts only when it is truthy, so an
      empty message is taken as success. */
  function DeleteFailed(reply: DeleteReply): (failed: bool)
    ensures failed ==> reply.DeleteError?
    ensures reply == DeleteError("") ==> !failed
  {
    reply.DeleteError? && reply.error != ""
  }

  /** What a card hands to its `deleteFn`: its record and the session key. */
  datatype DeleteTarget = DeleteTarget(data: PasswordData, masterKey: string)

  /** The three ways `getPasswords` can end. */
  datatype ListStep = Blocked | Rejected(error: string) | Unlocked(records: seq<PasswordData>)

  /** The decision `getPasswords` takes, given the session key whose strength
      the screen shows and the backend's reply (which matters only when the
      call is made). */
  function ListDecision(sessionKey: string, reply: ListReply): (step: ListStep)
    ensures step.Blocked? <==> FailedChecks(sessionKey) >= 3
    ensures step.Unlocked? <==> FailedChecks(sessionKey) <= 2 && reply.Listing?
    ensures step.Unlocked? ==> step.records == reply.records
    ensures step.Rejected? ==> reply == ListError(step.error)
  {
    if !(Strength(sessionKey) >= 50) then Blocked
    else match reply
      case ListError(e) => Rejected(e)
      case Listing(records) => Unlocked(records)
  }

  /** The requests `getPasswords(key)` sends: none when the gate blocks. */
  function ListRequests(step: ListStep, key: string): (sent: seq<Request>)
    ensures |sent| <= 1
    ensures sent == [] <==> step.Blocked?
  {
    if step.Blocked? then [] else [GetPasswordsRequest(key)]
  }

  /** The state of `Main`. */
  class Vault {
    var needMasterKey: bool
    var masterKey: string
    var passwords: seq<PasswordData>
    var deleteDataModalOpen: bool
    var deleteDataConfirm: bool
    var deleteDataMK: string

    /** The records are shown only after the backend accepted a key that
        passed the strength gate. */
    ghost predicate Valid()
      reads this
    {
      && (!needMasterKey ==> Strength(masterKey) >= 50)
      && (needMasterKey ==> passwords == [])
    }

    /** The effect of a `getPasswords` decision on the locked flag and the
        records, from the given earlier values. */
    ghost predicate Applied(step: ListStep, wasLocked: bool, wasShown: seq<PasswordData>)
      reads this
    {
      && needMasterKey == (wasLocked && !step.Unlocked?)
      && passwords == (if step.Unlocked? then step.records else wasShown)
    }

    /** The delete-all button is enabled; once the screen is unlocked the
        key to type is never empty, since the empty key scores 10. */
    predicate DeleteAllEnabled()
      reads this
      ensures DeleteAllEnabled() ==> deleteDataConfirm && deleteDataMK == masterKey
      ensures Valid() && !needMasterKey && DeleteAllEnabled() ==> deleteDataMK != ""
    {
      EmptyKeyScoresTen();
      !ButtonDisabled(deleteDataConfirm, deleteDataMK, masterKey)
    }

    constructor ()
      ensures Valid()
      ensures needMasterKey && masterKey == "" && passwords == []
      ensures !deleteDataModalOpen && !deleteDataConfirm && deleteDataMK == ""
    {
      needMasterKey := true;
      masterKey := "";
      passwords := [];
      deleteDataModalOpen := false;
      deleteDataConfirm := false;
      deleteDataMK := "";
    }

    /** Typing in the master-key field, which sits in the modal that is open
        exactly while a master key is needed. */
    method TypeMasterKey(value: string)
      requires Valid() && needMasterKey
      modifies this`masterKey
      ensures Valid() && masterKey == value
    {
      masterKey := value;
    }

    /** `getPasswords(key)`: refuse a weak session key without calling the
        backend; otherwise ask the backend, and unlock the screen with the
        records only when the reply carries no error. */
    method GetPasswords(key: string, reply: ListReply) returns (sent: seq<Request>)
      requires Valid()
      modifies this`needMasterKey, this`passwords
      ensures Valid()
      ensures sent == ListRequests(ListDecision(masterKey, reply), key)
      ensures Applied(ListDecision(masterKey, reply), old(needMasterKey), old(passwords))
      ensures !old(needMasterKey) ==> !needMasterKey
    {
      var strength := GetStrength(masterKey);
      if !(strength >= 50) {
        sent := [];
        return;
      }
      sent := [GetPasswordsRequest(key)];
      match reply
      case ListError(_) =>
      case Listing(records) =>
        needMasterKey := false;
        passwords := records;
    }

    /** `createPassword`: send the new record, ignore the reply, then reload
        the list. */
    method CreatePassword(password: string, key: string, website: string, nickname: Option<string>,
                          listReply: ListReply)
      returns (sent: seq<Request>)
      requires Valid()
      modifies this`needMasterKey, this`passwords
      ensures Valid()
      ensures sent == [CreatePasswordRequest(password, key, website, nickname)]
                      + ListRequests(ListDecision(masterKey, listReply), key)
      ensures Applied(ListDecision(masterKey, listReply), old(needMasterKey), old(passwords))
    {
      var reload := GetPasswords(key, listReply);
      sent := [CreatePasswordRequest(password, key, website, nickname)] + reload;
    }

    /** `deletePassword`, the `deleteFn` of every card: send the deletion;
        on a reply with a (non-empty) error change nothing, otherwise reload
        the list. */
    method DeletePassword(target: DeleteTarget, reply: DeleteReply, listReply: ListReply)
      returns (sent: seq<Request>)
      requires Valid()
      modifies this`needMasterKey, this`passwords
      ensures Valid()
      ensures |sent| >= 1 && sent[..1] == [DeletePasswordRequest(target.data.website, target.data.password,
                                                  target.masterKey, target.data.nickname)]
      ensures DeleteFailed(reply) ==> |sent| == 1 && unchanged(this)
      ensures !DeleteFailed(reply) ==>
                && sent[1..] == ListRequests(ListDecision(masterKey, listReply), target.masterKey)
                && Applied(ListDecision(masterKey, listReply), old(needMasterKey), old(passwords))
    {
      sent := [DeletePasswordRequest(target.data.website, target.data.password,
                                     target.masterKey, target.data.nickname)];
      if DeleteFailed(reply) {
        return;
      }
      var reload := GetPasswords(target.masterKey, listReply);
      sent := sent + reload;
    }

    /** "Remove All Passwords": clear the confirmation, then open the modal. */
    method OpenDeleteAll()
      requires Valid()
      modifies this`deleteDataConfirm, this`deleteDataMK, this`deleteDataModalOpen
      ensures Valid()
      ensures deleteDataModalOpen && !deleteDataConfirm && deleteDataMK == ""
      ensures !DeleteAllEnabled()
    {
      deleteDataConfirm := false;
      deleteDataMK := "";
      deleteDataModalOpen := true;
    }

    method CloseDeleteAll()
      requires Valid()
      modifies this`deleteDataModalOpen
      ensures Valid() && !deleteDataModalOpen
    {
      deleteDataModalOpen := false;
    }

    /** Typing in the delete-all modal's key field. */
    method TypeDeleteAllKey(value: string)
      requires Valid() && deleteDataModalOpen
      modifies this`deleteDataMK
      ensures Valid() && deleteDataMK == value
      ensures DeleteAllEnabled() <==> deleteDataConfirm && value == masterKey
    {
      deleteDataMK := value;
    }

    /** Ticking or clearing the delete-all modal's checkbox. */
    method TickDeleteAll(checked: bool)
      requires Valid() && deleteDataModalOpen
      modifies this`deleteDataConfirm
      ensures Valid() && deleteDataConfirm == checked
      ensures DeleteAllEnabled() <==> checked && deleteDataMK == masterKey
    {
      deleteDataConfirm := checked;
    }

    /** A click on "Delete ALL of my Passwords". A disabled button delivers no
        click; an enabled one wipes the store, reloads the list and closes
        the modal. */
    method ClickDeleteAll(listReply: ListReply) returns (sent: seq<Request>)
      requires Valid() && deleteDataModalOpen
      modifies this`needMasterKey, this`passwords, this`deleteDataModalOpen
      ensures Valid()
      ensures !old(DeleteAllEnabled()) ==> sent == [] && unchanged(this)
      ensures old(DeleteAllEnabled()) ==>
                && sent == [DeleteAllRequest] + ListRequests(ListDecision(masterKey, listReply), masterKey)
                && Applied(ListDecision(masterKey, listReply), old(needMasterKey), old(passwords))
                && !deleteDataModalOpen
    {
      if !DeleteAllEnabled() {
        sent := [];
        return;
      }
      sent := [DeleteAllRequest];
      var reload := GetPasswords(masterKey, listReply);
      sent := sent + reload;
      deleteDataModalOpen := false;
    }
  }

  /** The state of one `PasswordCard` with its props, the record and the
      session key. The model keeps one card per record; the screen keys its
      cards by list position, so after a deletion the same component may go
      on to show the next record with the state below unchanged. */
  class PasswordCard {
    const data: PasswordData
    const masterKey: string
    var modalOpen: bool
    var confirmMasterKey: string
    var confirm: bool

    predicate DeleteEnabled()
      reads this
      ensures DeleteEnabled() <==> confirm && confirmMasterKey == masterKey
    {
      !ButtonDisabled(confirm, confirmMasterKey, masterKey)
    }

    constructor (data: PasswordData, masterKey: string)
      ensures this.data == data && this.masterKey == masterKey
      ensures !modalOpen && confirmMasterKey == "" && !confirm
      ensures !DeleteEnabled()
    {
      this.data := data;
      this.masterKey := masterKey;
      modalOpen := false;
      confirmMasterKey := "";
      confirm := false;
    }

    /** The trash icon opens the modal and, unlike "Remove All Passwords",
        leaves the confirmation as it was. */
    method OpenDeleteModal()
      modifies this`modalOpen
      ensures modalOpen
      ensures DeleteEnabled() == old(DeleteEnabled())
    {
      modalOpen := true;
    }

    method CloseDeleteModal()
      modifies this`modalOpen
      ensures !modalOpen
    {
      modalOpen := false;
    }

    method TypeConfirmKey(value: string)
      requires modalOpen
      modifies this`confirmMasterKey
      ensures confirmMasterKey == value
      ensures DeleteEnabled() <==> confirm && value == masterKey
    {
      confirmMasterKey := value;
    }

    method TickConfirm(checked: bool)
      requires modalOpen
      modifies this`confirm
      ensures confirm == checked
      ensures DeleteEnabled() <==> checked && confirmMasterKey == masterKey
    {
      confirm := checked;
    }

    /** The delete button's click handler: it calls `deleteFn` with the
        card's record and the session key exactly when the button is
        enabled, and then closes the modal; otherwise it only notifies. */
    method ClickDelete() returns (target: Option<DeleteTarget>)
      requires modalOpen
      modifies this`modalOpen
      ensures target.Some? <==> old(DeleteEnabled())
      ensures target.Some? ==> target.value == DeleteTarget(data, masterKey) && !modalOpen
      ensures target.Some? ==> DeleteEnabled()
      ensures target.None? ==> unchanged(this)
    {
      if ClickGuard(confirmMasterKey, masterKey, confirm) {
        target := Some(DeleteTarget(data, masterKey));
        modalOpen := false;
      } else {
        target := None;
      }
    }
  }

  /** A card confirmed and then closed without deleting opens again with its
      delete button already enabled. */
  method ReopenedCardStaysConfirmed(data: PasswordData, key: string) returns (card: PasswordCard)
    ensures card.modalOpen && card.DeleteEnabled()
  {
    card := new PasswordCard(data, key);
    card.OpenDeleteModal();
    card.TickConfirm(true);
    card.TypeConfirmKey(key);
    card.CloseDeleteModal();
    card.OpenDeleteModal();
  }

  /** A card whose deletion went through keeps its confirmation: opened
      again, its delete button is enabled at once. */
  method DeletedCardStaysConfirmed(card: PasswordCard) returns (target: Option<DeleteTarget>)
    requires card.modalOpen && card.DeleteEnabled()
    modifies card
    ensures target == Some(DeleteTarget(card.data, card.masterKey))
    ensures card.modalOpen && card.DeleteEnabled()
  {
    target := card.ClickDelete();
    card.OpenDeleteModal();
  }

  /** The delete-all button, by contrast, is disabled every time its modal
      opens on the unlocked screen, even right after the user confirmed with
      the right key and closed the modal without deleting. */
  method ReopenedDeleteAllIsDisabled(vault: Vault)
    requires vault.Valid() && !vault.needMasterKey
    modifies vault
    ensures vault.Valid() && !vault.needMasterKey
    ensures vault.deleteDataModalOpen && !vault.DeleteAllEnabled()
  {
    vault.OpenDeleteAll();
    vault.TickDeleteAll(true);
    vault.TypeDeleteAllKey(vault.masterKey);
    assert vault.DeleteAllEnabled();
    vault.CloseDeleteAll();
    vault.OpenDeleteAll();
  }
}
