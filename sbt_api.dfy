/**
 * The API adapter around a deployed SBT contract: the combiner that turns a
 * ledger snapshot and the private state into the derived state the interface
 * renders, and the unwrapping of circuit-call results in `mint` and
 * `getMyTokens`.
 *
 * The platform functions the adapter calls (`pureCircuits.public_key`,
 * `toHex`, `JSON.stringify`) are parameters: the model says where and on
 * what they are applied, not what they compute.
 */
module SbtApi {
  import opened JsRuntime
  import opened CommonTypes
  import opened Witnesses

  /**
   * A token's metadata as the ledger decoder hands it over: a string, an
   * object or an array with its own properties, a bigint, a value of another
   * type (number, boolean), or nothing (`undefined` or `null`).
   */
  datatype Metadata =
    | MetaString(text: string)
    | MetaObject(fields: map<string, Metadata>, isArray: bool)
    | MetaBigInt(n: int)
    | MetaPrimitive
    | MetaAbsent

  /** A token as the public ledger stores it. */
  datatype LedgerToken = LedgerToken(owner: Bytes, metadata: Metadata, issuedAt: int)

  /** No token id occurs twice: a map's iterator yields each key once. */
  predicate DistinctIds(entries: seq<(int, LedgerToken)>) {
    forall i, j | 0 <= i < j < |entries| :: entries[i].0 != entries[j].0
  }

  /** The entries of the ledger's token map, in the order its iterator yields them. */
  type LedgerEntries = entries: seq<(int, LedgerToken)> | DistinctIds(entries) witness []

  /**
   * The ledger's `tokens` field: missing (falsy), present but without an
   * iterator, or an iterable map.
   */
  datatype LedgerTokens =
    | TokensAbsent
    | TokensNotIterable
    | TokensIterable(entries: LedgerEntries)

  /** The parts of a ledger snapshot the combiner reads. */
  datatype LedgerState = LedgerState(tokens: LedgerTokens, tokenCounter: int, currentTime: int)

  /**
   * A handle on a deployed contract. Only its address is local data; its
   * other members are remote calls.
   */
  datatype DeployedSbtApi = DeployedSbtApi(deployedContractAddress: string)

  /** True when `JSON.stringify` is skipped: the object carries a string `value`. */
  predicate HasStringValue(fields: map<string, Metadata>) {
    "value" in fields && fields["value"].MetaString?
  }

  /**
   * A bigint is reachable from `m`. `JSON.stringify` without a replacer
   * throws a `TypeError` on such a value.
   */
  predicate HoldsBigInt(m: Metadata) {
    match m
    case MetaBigInt(_) => true
    case MetaObject(fields, _) => exists k | k in fields :: HoldsBigInt(fields[k])
    case _ => false
  }

  /**
   * The metadata text stored in a token record: a string is kept, an object
   * with a string `value` gives that value, any other object its JSON text,
   * and anything else the empty string. `None` is the `TypeError` the JSON
   * conversion throws on an object that holds a bigint. `stringify` is the
   * JSON text of an object it does not throw on.
   */
  function NormalizeMetadata(m: Metadata, stringify: Metadata -> string): (text: Option<string>)
    ensures text.None? <==> m.MetaObject? && !HasStringValue(m.fields) && HoldsBigInt(m)
    ensures m.MetaString? ==> text == Some(m.text)
    ensures m.MetaObject? && HasStringValue(m.fields) ==> text == Some(m.fields["value"].text)
    ensures m.MetaObject? && !HasStringValue(m.fields) && !HoldsBigInt(m) ==> text == Some(stringify(m))
    ensures !m.MetaString? && !m.MetaObject? ==> text == Some("")
  {
    match m
    case MetaString(s) => Some(s)
    case MetaObject(fields, _) =>
      if HasStringValue(fields) then Some(fields["value"].text)
      else if HoldsBigInt(m) then None
      else Some(stringify(m))
    case _ => Some("")
  }

  /**
   * A string survives normalisation whether it is stored bare or wrapped as
   * the `value` of an object or array, whatever else that holds, bigints
   * included.
   */
  lemma NormalizeRecoversWrappedText(s: string, others: map<string, Metadata>, isArray: bool,
                                     stringify: Metadata -> string)
    ensures NormalizeMetadata(MetaString(s), stringify) == Some(s)
    ensures NormalizeMetadata(MetaObject(others["value" := MetaString(s)], isArray), stringify) == Some(s)
  {
  }

  /** Token `t` gets a record: computing its metadata text does not throw. */
  predicate Filed(t: LedgerToken, stringify: Metadata -> string) {
    NormalizeMetadata(t.metadata, stringify).Some?
  }

  /** The ids the combiner visits. */
  function LedgerIds(tokens: LedgerTokens): set<int> {
    if tokens.TokensIterable? then IdsOf(tokens.entries, |tokens.entries|) else {}
  }

  /** The ids of the first `n` entries. */
  function IdsOf(entries: seq<(int, LedgerToken)>, n: nat): set<int>
    requires n <= |entries|
  {
    set j | 0 <= j < n :: entries[j].0
  }

  /** The ids the combiner files a record for. */
  function FiledIds(tokens: LedgerTokens, stringify: Metadata -> string): set<int> {
    if tokens.TokensIterable? then FiledIdsOf(tokens.entries, |tokens.entries|, stringify) else {}
  }

  /** The ids of those among the first `n` entries that get a record. */
  function FiledIdsOf(entries: seq<(int, LedgerToken)>, n: nat, stringify: Metadata -> string): set<int>
    requires n <= |entries|
  {
    set j | 0 <= j < n && Filed(entries[j].1, stringify) :: entries[j].0
  }

  /**
   * `v` is the interface record for ledger token `t` filed under `id`, for a
   * user whose public key has hex text `myKeyHex`.
   */
  predicate Describes(v: SbtToken, id: int, t: LedgerToken, myKeyHex: string,
                      toHex: Bytes -> string, stringify: Metadata -> string)
  {
    && v.tokenId == id
    && v.owner == toHex(t.owner)
    && NormalizeMetadata(t.metadata, stringify) == Some(v.metadata)
    && v.issuedAt == t.issuedAt
    && (v.isOwner <==> toHex(t.owner) == myKeyHex)
  }

  /**
   * The combiner run on every new ledger snapshot: it derives the user's
   * public key from the secret key, files one record per ledger token and
   * collects the ids the user owns. A token whose metadata conversion throws
   * is caught and skipped: it gets no record and is not among the user's.
   */
  method CombineStates(ledger: LedgerState, privateState: SbtPrivateState,
                       publicKey: Bytes -> Bytes, toHex: Bytes -> string,
                       stringify: Metadata -> string)
    returns (d: SbtDerivedState)
    ensures d.tokens.Keys == FiledIds(ledger.tokens, stringify)
    ensures ledger.tokens.TokensIterable? ==>
      forall i | 0 <= i < |ledger.tokens.entries| ::
        var (id, t) := ledger.tokens.entries[i];
        && (Filed(t, stringify) ==>
              id in d.tokens &&
              Describes(d.tokens[id], id, t, toHex(publicKey(privateState.secretKey)), toHex, stringify))
        && (!Filed(t, stringify) ==> id !in d.tokens && id !in d.myTokens)
    ensures d.myTokens == OwnedIds(d.tokens)
    ensures !ledger.tokens.TokensIterable? ==> d.tokens == map[] && d.myTokens == {}
    ensures d.tokenCounter == ledger.tokenCounter && d.currentTime == ledger.currentTime
    ensures Coherent(d)
  {
    var myPublicKey := publicKey(privateState.secretKey);
    var tokens: map<int, SbtToken> := map[];
    var myTokens: set<int> := {};
    if ledger.tokens.TokensIterable? {
      var entries := ledger.tokens.entries;
      for i := 0 to |entries|
        invariant tokens.Keys == FiledIdsOf(entries, i, stringify)
        invariant forall j | 0 <= j < i && Filed(entries[j].1, stringify) ::
          Describes(tokens[entries[j].0], entries[j].0, entries[j].1, toHex(myPublicKey), toHex, stringify)
        invariant myTokens == OwnedIds(tokens)
      {
        var (tokenId, tokenData) := entries[i];
        var metadataText := NormalizeMetadata(tokenData.metadata, stringify);
        if metadataText.Some? {
          var actualMetadata := metadataText.value;
          var isOwner := toHex(tokenData.owner) == toHex(myPublicKey);
          tokens := tokens[tokenId := SbtToken(tokenId, toHex(tokenData.owner), actualMetadata,
                                               tokenData.issuedAt, isOwner)];
          if isOwner {
            myTokens := myTokens + {tokenId};
          }
        }
      }
    }
    d := SbtDerivedState(tokens, myTokens, ledger.tokenCounter, ledger.currentTime);
  }

  /**
   * Without a bigint in any token's metadata nothing throws, and every
   * ledger token gets a record.
   */
  lemma WithoutBigIntEveryTokenIsFiled(tokens: LedgerTokens, stringify: Metadata -> string)
    requires tokens.TokensIterable? ==>
      forall i | 0 <= i < |tokens.entries| :: !HoldsBigInt(tokens.entries[i].1.metadata)
    ensures FiledIds(tokens, stringify) == LedgerIds(tokens)
  {
  }

  /**
   * The ids that do get a record are always ledger ids; the one skipped
   * is exactly a token whose metadata is an object, without a string
   * `value`, that holds a bigint.
   */
  lemma FiledIdsAreLedgerIds(tokens: LedgerTokens, stringify: Metadata -> string)
    ensures FiledIds(tokens, stringify) <= LedgerIds(tokens)
    ensures tokens.TokensIterable? ==>
      forall i | 0 <= i < |tokens.entries| ::
        tokens.entries[i].0 !in FiledIds(tokens, stringify) <==>
          && tokens.entries[i].1.metadata.MetaObject?
          && !HasStringValue(tokens.entries[i].1.metadata.fields)
          && HoldsBigInt(tokens.entries[i].1.metadata)
  {
  }

  /**
   * The result of the circuit as the proving side reports it: absent, a list
   * of values, or a single value without a `length`.
   */
  datatype CircuitResult = NoResult | ResultItems(items: seq<int>) | ResultScalar(value: int)

  /** The private part of a finalized call's data. */
  datatype PrivateTxData = PrivateTxData(result: CircuitResult)

  /** One public output of a circuit call; `value` may be missing. */
  datatype PublicOutput = PublicOutput(value: Option<int>)

  /** The public part of a finalized call's data; `outputs` may be missing. */
  datatype PublicTxData = PublicTxData(outputs: Option<seq<PublicOutput>>)

  /** What a circuit call resolves with. */
  datatype CallTxData = CallTxData(privatePart: Option<PrivateTxData>, publicPart: PublicTxData)

  /** The private part holds a non-empty list of results. */
  predicate HasPrivateResult(tx: CallTxData) {
    && tx.privatePart.Some?
    && tx.privatePart.value.result.ResultItems?
    && |tx.privatePart.value.result.items| > 0
  }

  /**
   * What `mint` returns once its call has gone through: the first private
   * result, or 0 when there is none.
   */
  function MintedTokenId(tx: CallTxData): (id: int)
    ensures HasPrivateResult(tx) ==> id == tx.privatePart.value.result.items[0]
    ensures !HasPrivateResult(tx) ==> id == 0
  {
    if HasPrivateResult(tx) then tx.privatePart.value.result.items[0] else 0
  }

  /** The error reading a property of the missing first output raises. */
  const ReadValueOfUndefined := "Cannot read properties of undefined (reading 'value')"

  /**
   * What `getMyTokens` does once its call has gone through: it returns the
   * first private result; failing that, the `value` of the first public
   * output, `undefined` when there are no outputs at all, and it throws when
   * the outputs are an empty list.
   */
  function MyTokensResult(tx: CallTxData): (r: Outcome<Option<int>>)
    ensures HasPrivateResult(tx) ==> r == Returns(Some(tx.privatePart.value.result.items[0]))
    ensures !HasPrivateResult(tx) && tx.publicPart.outputs.None? ==> r == Returns(None)
    ensures !HasPrivateResult(tx) && tx.publicPart.outputs.Some? && |tx.publicPart.outputs.value| > 0
            ==> r == Returns(tx.publicPart.outputs.value[0].value)
    ensures r.Throws? <==> !HasPrivateResult(tx) && tx.publicPart.outputs == Some([])
  {
    if HasPrivateResult(tx) then
      Returns(Some(tx.privatePart.value.result.items[0]))
    else
      match tx.publicPart.outputs
      case None => Returns(None)
      case Some(outputs) =>
        if |outputs| == 0 then Throws(ErrorInstance(ReadValueOfUndefined))
        else Returns(outputs[0].value)
  }

  /**
   * When the private part carries a result, `mint` and `getMyTokens` unwrap
   * the same value, and the public outputs play no part.
   */
  lemma PrivateResultTakesPrecedence(tx: CallTxData, publicPart: PublicTxData)
    requires HasPrivateResult(tx)
    ensures MyTokensResult(tx) == Returns(Some(MintedTokenId(tx)))
    ensures MyTokensResult(tx.(publicPart := publicPart)) == MyTokensResult(tx)
  {
  }
}
