/**
 * The contract's private state and its single witness: the local secret key,
 * handed to the contract runtime when it generates a proof.
 */
module Witnesses {
  import opened JsRuntime

  /** The only hidden state the contract needs: the user's secret key. */
  datatype SbtPrivateState = SbtPrivateState(secretKey: Bytes)

  /**
   * What the runtime passes to a witness: the ledger snapshot (of any type
   * `L`), the private state and the contract's address.
   */
  datatype WitnessContext<L> = WitnessContext(
    ledger: L,
    privateState: SbtPrivateState,
    contractAddress: string)

  /** Builds the private state around a secret key. */
  function CreateSbtPrivateState(secretKey: Bytes): (ps: SbtPrivateState)
    ensures ps.secretKey == secretKey
  {
    SbtPrivateState(secretKey)
  }

  /**
   * The `local_secret_key` witness: the private state, unchanged, paired with
   * the secret key it holds.
   */
  function LocalSecretKey<L>(context: WitnessContext<L>): (r: (SbtPrivateState, Bytes))
    ensures r.0 == context.privateState
    ensures r.1 == context.privateState.secretKey
  {
    (context.privateState, context.privateState.secretKey)
  }

  /**
   * The witness reads back the key the private state was created with, and
   * leaves that state as it was.
   */
  lemma WitnessReturnsCreatedKey<L>(secretKey: Bytes, ledger: L, address: string)
    ensures LocalSecretKey(WitnessContext(ledger, CreateSbtPrivateState(secretKey), address))
            == (SbtPrivateState(secretKey), secretKey)
  {
  }

  /** Calling the witness twice in a row gives the same key both times. */
  lemma WitnessIsStable<L>(context: WitnessContext<L>)
    ensures var (next, key) := LocalSecretKey(context);
            LocalSecretKey(context.(privateState := next)).1 == key
  {
  }
}
