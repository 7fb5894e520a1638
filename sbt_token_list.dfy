/**
 * The token-list component: how it reacts to deployment events, the mint,
 * update and revoke handlers with their input guards, the dialog handlers,
 * which tokens it lists, and how it shortens the contract address.
 */
module SbtTokenList {
  import opened JsRuntime
  import opened CommonTypes
  import opened SbtApi
  import opened DeployedSbtContext

  /** Shown when a failed deployment carries no usable message. */
  const DefaultErrorMessage := "遇到意外错误。"

  /** Shown in the header while there is no contract address to show. */
  const LoadingCaption := "加载中..."

  /** JavaScript truthiness of a string: only the empty string is falsy. */
  predicate TruthyText(s: string) {
    s != ""
  }

  /** JavaScript truthiness of a `bigint | null`: `null` and `0n` are falsy. */
  predicate TruthyId(id: Option<int>) {
    id.Some? && id.value != 0
  }

  /**
   * The error text for a failed deployment: its message when that is
   * non-empty, the default text otherwise.
   */
  function FailureMessage(error: Option<SbtDeploymentError>): (text: string)
    ensures text != ""
    ensures error.Some? && error.value.message != "" ==> text == error.value.message
    ensures error.None? || error.value.message == "" ==> text == DefaultErrorMessage
  {
    if error.Some? && |error.value.message| > 0 then error.value.message else DefaultErrorMessage
  }

  /**
   * A deployment whose `deploy` threw shows the thrown value's text, or the
   * default text when that is empty; either way the error banner has text.
   */
  lemma FailedDeploymentMessage(thrown: Thrown)
    ensures var settled := ResolveEvents(Throws(thrown))[1];
      && settled.status == Failed
      && FailureMessage(settled.error)
         == (if ErrorText(thrown) != "" then ErrorText(thrown) else DefaultErrorMessage)
  {
  }

  /** The ids the list renders: the user's ids that have a token record. */
  function ListedIds(state: SbtDerivedState): (ids: set<int>)
    ensures ids <= state.myTokens && ids <= state.tokens.Keys
    ensures forall id | id in state.myTokens && id in state.tokens :: id in ids
    ensures state.myTokens <= state.tokens.Keys ==> ids == state.myTokens
  {
    set id | id in state.myTokens && id in state.tokens
  }

  /** The list shows the "no tokens yet" notice instead of entries. */
  predicate ShowsEmptyNotice(state: SbtDerivedState)
    ensures ShowsEmptyNotice(state) ==> ListedIds(state) == {}
  {
    |state.myTokens| == 0
  }

  /**
   * On a coherent derived state the list shows exactly the user's own
   * tokens, and every listed token offers the edit and revoke actions.
   */
  lemma ListedAreExactlyOwned(state: SbtDerivedState)
    requires Coherent(state)
    ensures ListedIds(state) == OwnedIds(state.tokens)
    ensures forall id | id in ListedIds(state) :: state.tokens[id].isOwner
  {
  }

  /**
   * On a coherent derived state the empty notice appears exactly when no
   * token is listed.
   */
  lemma EmptyNoticeIffNothingListed(state: SbtDerivedState)
    requires Coherent(state)
    ensures ShowsEmptyNotice(state) <==> ListedIds(state) == {}
  {
    assert ListedIds(state) == state.myTokens;
  }

  /** `Min(8, n)`: how many characters of each end the short address keeps. */
  function EndLength(n: nat): nat {
    if n < 8 then n else 8
  }

  /**
   * The short form of a contract address: up to eight characters from each
   * end around an ellipsis; nothing for a missing or empty address.
   */
  function ShortAddress(address: Option<string>): (text: Option<string>)
    ensures text.None? <==> address.None? || address.value == ""
    ensures text.Some? ==>
      var a, k := address.value, EndLength(|address.value|);
      && |text.value| == 2 * k + 3
      && text.value[..k] == a[..k]
      && text.value[k..k + 3] == "..."
      && text.value[k + 3..] == a[|a| - k..]
  {
    match address
    case None => None
    case Some(a) =>
      if a == "" then None
      else Some(Substring(a, 0, 8) + "..." + Substring(a, |a| - 8, |a|))
  }

  /** An address of at most eight characters appears whole on both sides. */
  lemma ShortAddressOfShortAddress(a: string)
    requires 0 < |a| <= 8
    ensures ShortAddress(Some(a)) == Some(a + "..." + a)
  {
  }

  /** The header caption: the short address, or the loading text without one. */
  function HeaderCaption(api: Option<DeployedSbtApi>): (caption: string)
    ensures api.Some? && api.value.deployedContractAddress != "" ==>
      caption == ShortAddress(Some(api.value.deployedContractAddress)).value
    ensures api.None? || api.value.deployedContractAddress == "" ==> caption == LoadingCaption
  {
    var short := ShortAddress(if api.Some? then Some(api.value.deployedContractAddress) else None);
    if short.Some? then short.value else LoadingCaption
  }

  /**
   * The header reads as loading exactly when there is no handle or its
   * address is empty: no short address can look like the loading text,
   * since a short address has odd length.
   */
  lemma CaptionLoadingIffNoAddress(api: Option<DeployedSbtApi>)
    ensures HeaderCaption(api) == LoadingCaption <==> api.None? || api.value.deployedContractAddress == ""
  {
  }

  /** The component's state, one field per state hook. */
  class SbtTokenListState {
    var sbtDeployment: Option<SbtDeployment>
    var deployedSbtApi: Option<DeployedSbtApi>
    var errorMessage: Option<string>
    var sbtState: Option<SbtDerivedState>
    var isWorking: bool
    var mintDialogOpen: bool
    var updateDialogOpen: bool
    var selectedTokenId: Option<int>
    var tokenMetadata: string

    /**
     * The update dialog always names a token, and the working indicator is
     * never up once the last deployment event has settled.
     */
    ghost predicate Valid()
      reads this
    {
      && (updateDialogOpen ==> selectedTokenId.Some?)
      && (isWorking ==> sbtDeployment.None? || sbtDeployment.value.status == InProgress)
    }

    /** The first render: working exactly when a deployment stream is given. */
    constructor (hasDeploymentStream: bool)
      ensures Valid()
      ensures sbtDeployment == None && deployedSbtApi == None && errorMessage == None
      ensures sbtState == None && isWorking == hasDeploymentStream
      ensures !mintDialogOpen && !updateDialogOpen
      ensures selectedTokenId == None && tokenMetadata == ""
    {
      sbtDeployment := None;
      deployedSbtApi := None;
      errorMessage := None;
      sbtState := None;
      isWorking := hasDeploymentStream;
      mintDialogOpen := false;
      updateDialogOpen := false;
      selectedTokenId := None;
      tokenMetadata := "";
    }

    /**
     * A deployment event arrives and the effect watching it runs: an
     * `in-progress` event changes nothing else; a settling one stops the
     * working indicator, and then a failure sets the error text and a
     * completion stores the handle.
     */
    method OnDeployment(d: SbtDeployment)
      requires Valid()
      modifies this
      ensures Valid()
      ensures sbtDeployment == Some(d)
      ensures d.status == InProgress ==>
        isWorking == old(isWorking) && errorMessage == old(errorMessage) && deployedSbtApi == old(deployedSbtApi)
      ensures d.status != InProgress ==> !isWorking
      ensures d.status == Failed ==>
        errorMessage == Some(FailureMessage(d.error)) && deployedSbtApi == old(deployedSbtApi)
      ensures d.status == Complete ==> deployedSbtApi == d.api && errorMessage == old(errorMessage)
      ensures sbtState == old(sbtState) && tokenMetadata == old(tokenMetadata)
      ensures selectedTokenId == old(selectedTokenId)
      ensures mintDialogOpen == old(mintDialogOpen) && updateDialogOpen == old(updateDialogOpen)
    {
      sbtDeployment := Some(d);
      if d.status == InProgress {
        return;
      }
      isWorking := false;
      if d.status == Failed {
        errorMessage := Some(FailureMessage(d.error));
        return;
      }
      deployedSbtApi := d.api;
    }

    /** The handle's state stream delivers a new derived state. */
    method OnStateUpdate(state: SbtDerivedState)
      requires Valid()
      modifies this`sbtState
      ensures Valid()
      ensures sbtState == Some(state)
    {
      sbtState := Some(state);
    }

    /**
     * The mint button: nothing happens without metadata; otherwise, with a
     * handle, a successful mint closes the dialog and clears the metadata
     * and a failed one sets the error text; the indicator ends down.
     */
    method OnMintToken(mint: Outcome<int>)
      requires Valid()
      modifies this
      ensures Valid()
      ensures !TruthyText(old(tokenMetadata)) ==> unchanged(this)
      ensures TruthyText(old(tokenMetadata)) ==> !isWorking
      ensures TruthyText(old(tokenMetadata)) && old(deployedSbtApi).Some? && mint.Returns? ==>
        !mintDialogOpen && tokenMetadata == "" && errorMessage == old(errorMessage)
      ensures TruthyText(old(tokenMetadata)) && old(deployedSbtApi).Some? && mint.Throws? ==>
        && errorMessage == Some(ErrorText(mint.thrown))
        && mintDialogOpen == old(mintDialogOpen) && tokenMetadata == old(tokenMetadata)
      ensures old(deployedSbtApi).None? ==>
        && errorMessage == old(errorMessage)
        && mintDialogOpen == old(mintDialogOpen) && tokenMetadata == old(tokenMetadata)
      ensures sbtDeployment == old(sbtDeployment) && deployedSbtApi == old(deployedSbtApi)
      ensures sbtState == old(sbtState) && selectedTokenId == old(selectedTokenId)
      ensures updateDialogOpen == old(updateDialogOpen)
    {
      if !TruthyText(tokenMetadata) {
        return;
      }
      if deployedSbtApi.Some? {
        isWorking := true;
        match mint {
          case Returns(_) =>
            mintDialogOpen := false;
            tokenMetadata := "";
          case Throws(e) =>
            errorMessage := Some(ErrorText(e));
        }
      }
      isWorking := false;
    }

    /**
     * The update button: nothing happens without metadata or without a
     * truthy selected id (so never for id 0); otherwise, with a handle, the
     * dialog closes and the metadata and selection are cleared, with no call
     * made; the indicator ends down.
     */
    method OnUpdateToken()
      requires Valid()
      modifies this
      ensures Valid()
      ensures !TruthyText(old(tokenMetadata)) || !TruthyId(old(selectedTokenId)) ==> unchanged(this)
      ensures TruthyText(old(tokenMetadata)) && TruthyId(old(selectedTokenId)) ==> !isWorking
      ensures TruthyText(old(tokenMetadata)) && TruthyId(old(selectedTokenId)) && old(deployedSbtApi).Some? ==>
        !updateDialogOpen && tokenMetadata == "" && selectedTokenId == None
      ensures old(deployedSbtApi).None? ==>
        && updateDialogOpen == old(updateDialogOpen)
        && tokenMetadata == old(tokenMetadata) && selectedTokenId == old(selectedTokenId)
      ensures errorMessage == old(errorMessage) && mintDialogOpen == old(mintDialogOpen)
      ensures sbtDeployment == old(sbtDeployment) && deployedSbtApi == old(deployedSbtApi)
      ensures sbtState == old(sbtState)
    {
      if !TruthyText(tokenMetadata) || !TruthyId(selectedTokenId) {
        return;
      }
      if deployedSbtApi.Some? {
        isWorking := true;
        updateDialogOpen := false;
        tokenMetadata := "";
        selectedTokenId := None;
      }
      isWorking := false;
    }

    /**
     * The revoke button of a listed token: with a handle, a failed revoke
     * sets the error text; the indicator ends down.
     */
    method OnRevokeToken(tokenId: int, revoke: Outcome<()>)
      requires Valid()
      modifies this
      ensures Valid()
      ensures !isWorking
      ensures old(deployedSbtApi).Some? && revoke.Throws? ==> errorMessage == Some(ErrorText(revoke.thrown))
      ensures old(deployedSbtApi).None? || revoke.Returns? ==> errorMessage == old(errorMessage)
      ensures sbtDeployment == old(sbtDeployment) && deployedSbtApi == old(deployedSbtApi)
      ensures sbtState == old(sbtState) && tokenMetadata == old(tokenMetadata)
      ensures selectedTokenId == old(selectedTokenId)
      ensures mintDialogOpen == old(mintDialogOpen) && updateDialogOpen == old(updateDialogOpen)
    {
      if deployedSbtApi.Some? {
        isWorking := true;
        if revoke.Throws? {
          errorMessage := Some(ErrorText(revoke.thrown));
        }
      }
      isWorking := false;
    }

    /** Opening the mint dialog starts from empty metadata. */
    method OpenMintDialog()
      requires Valid()
      modifies this`tokenMetadata, this`mintDialogOpen
      ensures Valid()
      ensures tokenMetadata == "" && mintDialogOpen
    {
      tokenMetadata := "";
      mintDialogOpen := true;
    }

    /** Opening the update dialog selects the token and loads the given metadata. */
    method OpenUpdateDialog(tokenId: int, currentMetadata: string)
      requires Valid()
      modifies this`selectedTokenId, this`tokenMetadata, this`updateDialogOpen
      ensures Valid()
      ensures selectedTokenId == Some(tokenId) && tokenMetadata == currentMetadata && updateDialogOpen
    {
      selectedTokenId := Some(tokenId);
      tokenMetadata := currentMetadata;
      updateDialogOpen := true;
    }

    /** Typing in either dialog's text field replaces the metadata. */
    method EditMetadata(text: string)
      requires Valid()
      modifies this`tokenMetadata
      ensures Valid()
      ensures tokenMetadata == text
    {
      tokenMetadata := text;
    }

    /** Cancelling (or dismissing) the mint dialog closes it and keeps the metadata. */
    method CloseMintDialog()
      requires Valid()
      modifies this`mintDialogOpen
      ensures Valid()
      ensures !mintDialogOpen
    {
      mintDialogOpen := false;
    }

    /** Cancelling (or dismissing) the update dialog closes it and keeps the selection. */
    method CloseUpdateDialog()
      requires Valid()
      modifies this`updateDialogOpen
      ensures Valid()
      ensures !updateDialogOpen
    {
      updateDialogOpen := false;
    }
  }

  /**
   * The component subscribed to the deployment stream receives both events
   * of one `resolve`: afterwards the working indicator is down and the
   * component holds the handle of a successful deployment or the error text
   * of a failed one.
   */
  method ReceiveResolve(view: SbtTokenListState, deployment: Outcome<DeployedSbtApi>)
    requires view.Valid()
    modifies view
    ensures view.Valid()
    ensures !view.isWorking
    ensures deployment.Returns? ==>
      view.deployedSbtApi == Some(deployment.value) && view.errorMessage == old(view.errorMessage)
    ensures deployment.Throws? ==>
      && view.errorMessage == Some(FailureMessage(Some(SbtDeploymentError(ErrorText(deployment.thrown)))))
      && view.deployedSbtApi == old(view.deployedSbtApi)
    ensures view.sbtDeployment == Some(ResolveEvents(deployment)[1])
    ensures view.sbtState == old(view.sbtState) && view.tokenMetadata == old(view.tokenMetadata)
    ensures view.selectedTokenId == old(view.selectedTokenId)
    ensures view.mintDialogOpen == old(view.mintDialogOpen) && view.updateDialogOpen == old(view.updateDialogOpen)
  {
    var events := ResolveEvents(deployment);
    view.OnDeployment(events[0]);
    view.OnDeployment(events[1]);
  }
}
