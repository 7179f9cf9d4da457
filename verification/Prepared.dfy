/** Prepared transaction slots, the signer keys behind them, and their role in a signing flow. */
module Prepared {
  import opened Basics
  import opened Transactions
  import opened Requests
  import opened Gathering
  import opened Exchange
  import Hex

  const FLOW_COSIGNER1 := "cosigner1"
  const FLOW_BOUNDED1 := "bounded1"
  const FLOW_BOUNDED_COSIGNER1 := "bounded-cosigner1"
  const KIND_NATIVE_PQ := "native_pq"
  const DUMMY_RESOURCES := Resources(6, 0, 1)

  datatype Profile = Profile(
    standard: Option<Resources>,
    spend: Option<Resources>,
    spendingRekey: Option<Resources>,
    adminRekey: Option<Resources>)

  datatype AdminOperation = AdminOperation(kind: string, authorization: string)

  datatype CosignerInfo = CosignerInfo(publicKey: string, componentKeyType: string)

  datatype BoundedInfo = BoundedInfo(maxFee: int, operations: seq<AdminOperation>, cosigner: Option<CosignerInfo>)

  datatype KeyInfo = KeyInfo(
    signingFlow: string,
    authorizationKind: string,
    profile: Option<Profile>,
    bounded: Option<BoundedInfo>,
    componentKeyType: string,
    cosignerParameter: string)

  /** The signer's key inventory, asked for one address; it may fail. */
  type KeyLookup = string -> Result<Option<KeyInfo>, Error>

  datatype PreparedTxn = PreparedTxn(
    signedBase64: string,
    transaction: Option<Txn>,
    authAddress: string,
    txnSender: string,
    signerKey: Option<KeyInfo>,
    lsigArgs: Pairs,
    resources: Option<Resources>,
    pqScheme: string,
    appCallInfo: Pairs)

  datatype PrimaryTarget = PrimaryTarget(
    index: int,
    authAddress: string,
    txnSender: string,
    lsigArgs: Pairs,
    appCallInfo: Pairs)

  function ResolveKey(lookup: KeyLookup, item: PreparedTxn): Result<KeyInfo, Error> {
    if item.signerKey.Some? then Success(item.signerKey.value)
    else if item.authAddress == "" then Failure(BadInput)
    else
      match lookup(item.authAddress)
      case Failure(e) => Failure(e)
      case Success(None) => Failure(BadInput)
      case Success(Some(key)) => Success(key)
  }

  /** What the first rekey operation demands; empty if there is none. */
  function RekeyAuthorization(operations: seq<AdminOperation>): string {
    if operations == [] then ""
    else if operations[0].kind == "rekey" then operations[0].authorization
    else RekeyAuthorization(operations[1..])
  }

  function SelectedResources(key: KeyInfo, t: Txn): Result<Option<Resources>, Error> {
    if key.profile.None? then Success(None)
    else
      var profile := key.profile.value;
      if key.bounded.Some? && t.rekeyTo.Some? then
        var authorization := RekeyAuthorization(key.bounded.value.operations);
        if authorization == "spending_key" then Success(profile.spendingRekey)
        else if authorization == "admin_key" then Success(profile.adminRekey)
        else Failure(BadInput)
      else Success(if profile.spend.Some? then profile.spend else profile.standard)
  }

  /** The post-quantum scheme a foreign slot has to declare. */
  function ForeignScheme(key: KeyInfo, resources: Option<Resources>): Result<string, Error> {
    if key.authorizationKind != KIND_NATIVE_PQ then Success("")
    else if resources.Some? then Failure(BadInput)
    else Success(PQ_SCHEME_FALCON1024)
  }

  /** The signing entry of a slot that names its authorizing address. */
  function ToSignEntry(c: Codec, item: PreparedTxn): Result<SignEntry, Error>
    requires item.transaction.Some? && item.authAddress != ""
  {
    if item.pqScheme != "" || item.resources.Some? then Failure(BadInput)
    else
      var t := item.transaction.value;
      Success(SignEntry(
                c.EncodeTxn(t), "", item.authAddress,
                if item.txnSender != "" then item.txnSender else t.sender,
                item.lsigArgs, item.appCallInfo, None, ""))
  }

  function CosignerKey(key: KeyInfo): string {
    if key.bounded.Some? && key.bounded.value.cosigner.Some? && key.bounded.value.cosigner.value.publicKey != ""
    then key.bounded.value.cosigner.value.publicKey
    else key.cosignerParameter
  }

  function CosignerKeyType(key: KeyInfo): string {
    if key.componentKeyType != "" then key.componentKeyType
    else if key.bounded.Some? && key.bounded.value.cosigner.Some? then key.bounded.value.cosigner.value.componentKeyType
    else ""
  }

  lemma EncodedTxnNonEmpty(c: Codec, t: Txn)
    ensures c.EncodeTxn(t) != ""
  {
    assert c.SignedBytes(t)[0] == 84;
    Hex.NonEmpty(c.SignedBytes(t));
  }
}
