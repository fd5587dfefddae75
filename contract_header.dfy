/**
 * The header of a contract's page, src/components/features/contract/contract-header.tsx: the
 * shortened id, the heading, which view is shown, and the edit and delete flags its handlers flip.
 */
module ContractHeader {
  import opened Wrappers
  import opened Strings
  import opened SavedContracts

  /** `${contractId.slice(0, 6)}...${contractId.slice(-4)}`, with no length guard. */
  function TruncatedId(id: string): (r: string)
    ensures |r| == |Take(id, 6)| + 3 + |TakeLast(id, 4)|
    ensures StartsWith(r, Take(id, 6)) && EndsWith(r, TakeLast(id, 4))
    ensures r[|Take(id, 6)|..|Take(id, 6)| + 3] == "..."
    ensures |id| >= 10 ==> |r| == 13 && r[..6] == id[..6] && r[9..] == id[|id| - 4..]
  {
    var r := Take(id, 6) + "..." + TakeLast(id, 4);
    assert r[..|Take(id, 6)|] == Take(id, 6);
    assert r[|r| - |TakeLast(id, 4)|..] == TakeLast(id, 4);
    r
  }

  /** For a non-empty id of at most nine characters the two ends overlap: the shortened id shows more
      characters of the id than the id has. */
  lemma ShortIdRepeatsCharacters(id: string)
    requires 0 < |id| < 10
    ensures |TruncatedId(id)| - 3 > |id|
  {
  }

  /** The heading: the saved nickname when it is non-empty, otherwise "Contract". */
  function Heading(contract: Option<SavedContract>): (h: string)
    ensures |h| > 0
    ensures h != "Contract" ==> contract.Some? && h == contract.value.nickname
    ensures contract.Some? && contract.value.nickname != "" ==> h == contract.value.nickname
  {
    if contract.Some? && contract.value.nickname != "" then contract.value.nickname else "Contract"
  }

  const LoadingText := "Loading contract details..."
  const ErrorText := "Failed to load contract details. Please try again later."

  /** What the header shows. */
  datatype HeaderView =
    | Message(text: string)
    | NicknameInput(value: string)
    | Title(heading: string, shortId: string)

  /** `ContractHeader`'s state, created when the header mounts. */
  class ContractHeaderState {
    const contractId: string
    var isEditing: bool
    var editedNickname: string
    var isDeleteDialogOpen: bool

    /** The initial state: not editing, dialog closed, the nickname fetched so far (or ""). */
    constructor (contractId: string, fetched: Option<SavedContract>)
      ensures this.contractId == contractId
      ensures !isEditing && !isDeleteDialogOpen
      ensures editedNickname == if fetched.Some? then fetched.value.nickname else ""
    {
      this.contractId := contractId;
      isEditing := false;
      editedNickname := if fetched.Some? then fetched.value.nickname else "";
      isDeleteDialogOpen := false;
    }

    /** The view for the query's current state: loading wins over an error, which wins over the
        header itself. */
    function View(isLoading: bool, hasError: bool, contract: Option<SavedContract>): (v: HeaderView)
      reads this
      ensures v == Message(LoadingText) <==> isLoading
      ensures v == Message(ErrorText) <==> !isLoading && hasError
      ensures !isLoading && !hasError ==>
                if isEditing then v == NicknameInput(editedNickname)
                else v.Title? && v.heading == Heading(contract) && v.shortId == TruncatedId(contractId)
    {
      if isLoading then Message(LoadingText)
      else if hasError then Message(ErrorText)
      else if isEditing then NicknameInput(editedNickname)
      else Title(Heading(contract), TruncatedId(contractId))
    }

    /** The effect on `savedContract`: a fetched contract resets the edited nickname. */
    method OnContractFetched(contract: Option<SavedContract>)
      modifies this
      ensures editedNickname == if contract.Some? then contract.value.nickname else old(editedNickname)
      ensures isEditing == old(isEditing) && isDeleteDialogOpen == old(isDeleteDialogOpen)
    {
      if contract.Some? {
        editedNickname := contract.value.nickname;
      }
    }

    /** `handleEdit`, the pencil button. */
    method HandleEdit()
      modifies this
      ensures isEditing
      ensures editedNickname == old(editedNickname) && isDeleteDialogOpen == old(isDeleteDialogOpen)
    {
      isEditing := true;
    }

    /** The input's `onChange`. */
    method EditNickname(text: string)
      modifies this
      ensures editedNickname == text
      ensures isEditing == old(isEditing) && isDeleteDialogOpen == old(isDeleteDialogOpen)
    {
      editedNickname := text;
    }

    /** `handleSave` (Enter or blur): sends the edited nickname; once the update succeeds the
        input closes and the contract is fetched again. A failed update leaves the input open. */
    method HandleSave(succeeded: bool) returns (sent: Mutation, refetch: bool)
      modifies this
      ensures sent == Update(contractId, old(editedNickname))
      ensures refetch == succeeded
      ensures isEditing == (old(isEditing) && !succeeded)
      ensures editedNickname == old(editedNickname) && isDeleteDialogOpen == old(isDeleteDialogOpen)
    {
      sent := Update(contractId, editedNickname);
      refetch := false;
      if succeeded {
        isEditing := false;
        refetch := true;
      }
    }

    /** `handleDelete`, the trash button: opens the confirmation dialog. */
    method HandleDelete()
      modifies this
      ensures isDeleteDialogOpen
      ensures isEditing == old(isEditing) && editedNickname == old(editedNickname)
    {
      isDeleteDialogOpen := true;
    }

    /** `confirmDelete`: deletes this contract; on success the dialog closes and the app goes to
        "/". A failed delete leaves the dialog open and stays on the page. */
    method ConfirmDelete(succeeded: bool) returns (sent: Mutation, navigateTo: Option<string>)
      modifies this
      ensures sent == Delete(contractId)
      ensures navigateTo == if succeeded then Some("/") else None
      ensures isDeleteDialogOpen == (old(isDeleteDialogOpen) && !succeeded)
      ensures isEditing == old(isEditing) && editedNickname == old(editedNickname)
    {
      sent := Delete(contractId);
      navigateTo := None;
      if succeeded {
        isDeleteDialogOpen := false;
        navigateTo := Some("/");
      }
    }

    /** The dialog's Cancel button and its `onClose`: close the dialog, nothing else. */
    method CancelDelete()
      modifies this
      ensures !isDeleteDialogOpen
      ensures isEditing == old(isEditing) && editedNickname == old(editedNickname)
    {
      isDeleteDialogOpen := false;
    }
  }

  /** Editing and saving a nickname successfully sends exactly that nickname and returns to the
      title view. */
  method EditAndSave(h: ContractHeaderState, text: string) returns (sent: Mutation)
    modifies h
    ensures sent == Update(h.contractId, text)
    ensures !h.isEditing && h.editedNickname == text
    ensures h.View(false, false, None) == Title("Contract", TruncatedId(h.contractId))
  {
    h.HandleEdit();
    h.EditNickname(text);
    var refetch;
    sent, refetch := h.HandleSave(true);
  }
}
