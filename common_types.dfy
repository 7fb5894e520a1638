/**
 * The view-model records the API hands to the user interface: one record per
 * token and the derived state built from a ledger snapshot and the local
 * private state.
 */
module CommonTypes {

  /** One soulbound token as the interface shows it; `owner` is hex text. */
  datatype SbtToken = SbtToken(
    tokenId: int,
    owner: string,
    metadata: string,
    issuedAt: int,
    isOwner: bool)

  /**
   * The derived state: every token by id, the ids the local user owns, and
   * the ledger's token counter and clock, passed through.
   */
  datatype SbtDerivedState = SbtDerivedState(
    tokens: map<int, SbtToken>,
    myTokens: set<int>,
    tokenCounter: int,
    currentTime: int)

  /** The ids of all tokens whose record says the local user owns them. */
  function OwnedIds(tokens: map<int, SbtToken>): set<int> {
    set id | id in tokens && tokens[id].isOwner
  }

  /**
   * What the derived state promises its readers: each record is filed under
   * its own id, and `myTokens` holds exactly the ids of the owned records.
   */
  predicate Coherent(d: SbtDerivedState) {
    && (forall id | id in d.tokens :: d.tokens[id].tokenId == id)
    && d.myTokens == OwnedIds(d.tokens)
  }

  /** In a coherent state the user's ids are all ids of known tokens. */
  lemma CoherentMineAreKnown(d: SbtDerivedState, id: int)
    requires Coherent(d)
    ensures id in d.myTokens <==> id in d.tokens && d.tokens[id].isOwner
    ensures d.myTokens <= d.tokens.Keys
  {
  }
}
