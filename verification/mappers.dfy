/**
 The result mappers, restricted to what they do besides floating-point
 arithmetic and dates: the composite id reduced to its hash, renamed and
 passed-through fields, decoded currency keys, and the two ways optional
 numeric fields are turned into `null`. Number conversions (`Number(x)`,
 `x / 1e18`) are parameters, since their floating-point results are not
 modelled.
 */
module Mappers {
  import opened JsValues
  import opened CompositeId
  import opened ShortCode

  /** `out` is null exactly for a `null` input, and converted otherwise. */
  predicate NullPreserved(out: Option<real>, x: JsValue, convert: JsValue -> real) {
    && (out.None? <==> x == Null)
    && (out.Some? ==> out.value == convert(x))
  }

  /** `out` is null exactly for a falsy input, and converted otherwise. */
  predicate FalsyToNull(out: Option<real>, x: JsValue, convert: JsValue -> real) {
    && (out.None? <==> !Truthy(x))
    && (out.Some? ==> out.value == convert(x))
  }

  /** `x !== null ? convert(x) : null`: only `null` is kept as null. */
  function UnlessNull(x: JsValue, convert: JsValue -> real): (r: Option<real>)
    ensures NullPreserved(r, x, convert)
  {
    if x != Null then Some(convert(x)) else None
  }

  /** `x ? convert(x) : null`: every falsy value becomes null. */
  function IfTruthy(x: JsValue, convert: JsValue -> real): (r: Option<real>)
    ensures FalsyToNull(r, x, convert)
  {
    if Truthy(x) then Some(convert(x)) else None
  }

  /**
   The two null policies agree on `null` and on every truthy value, and
   differ on the other falsy ones: `0`, `""` and `undefined` are converted
   by the depot mappers and become null in the holder mapper.
   */
  lemma NullPoliciesCompared(x: JsValue, convert: JsValue -> real)
    ensures x == Null ==> UnlessNull(x, convert) == IfTruthy(x, convert) == None
    ensures Truthy(x) ==> UnlessNull(x, convert) == IfTruthy(x, convert) == Some(convert(x))
    ensures x != Null && !Truthy(x) ==> UnlessNull(x, convert) == Some(convert(x)) && IfTruthy(x, convert) == None
  {
  }

  // depot.userActions

  /** The record field `type` is named `kind` in both records, `type` being a Dafny keyword. */
  datatype UserActionRaw = UserActionRaw(
    id: string, user: JsValue, kind: JsValue, minimum: JsValue, depositIndex: JsValue)

  datatype UserAction = UserAction(
    hash: string, user: JsValue, kind: JsValue, minimum: Option<real>, depositIndex: Option<real>)

  function MapUserAction(raw: UserActionRaw, toNumber: JsValue -> real): (r: UserAction)
    ensures IsHashOf(r.hash, raw.id)
    ensures r.user == raw.user && r.kind == raw.kind
    ensures NullPreserved(r.minimum, raw.minimum, toNumber)
    ensures NullPreserved(r.depositIndex, raw.depositIndex, toNumber)
  {
    UserAction(
      HashOf(raw.id),
      raw.user,
      raw.kind,
      UnlessNull(raw.minimum, toNumber),
      UnlessNull(raw.depositIndex, toNumber))
  }

  // depot.clearedDeposits

  datatype ClearedDepositRaw = ClearedDepositRaw(
    id: string, fromAddress: JsValue, toAddress: JsValue, depositIndex: JsValue)

  datatype ClearedDeposit = ClearedDeposit(
    hash: string, fromAddress: JsValue, toAddress: JsValue, depositIndex: Option<real>)

  function MapClearedDeposit(raw: ClearedDepositRaw, toNumber: JsValue -> real): (r: ClearedDeposit)
    ensures IsHashOf(r.hash, raw.id)
    ensures r.fromAddress == raw.fromAddress && r.toAddress == raw.toAddress
    ensures NullPreserved(r.depositIndex, raw.depositIndex, toNumber)
  {
    ClearedDeposit(
      HashOf(raw.id),
      raw.fromAddress,
      raw.toAddress,
      UnlessNull(raw.depositIndex, toNumber))
  }

  // exchanges._mapSynthExchange

  datatype SynthExchangeRaw = SynthExchangeRaw(
    id: string, from: JsValue, fromCurrencyKey: string, toCurrencyKey: string, toAddress: JsValue)

  datatype SynthExchange = SynthExchange(
    hash: string,
    fromAddress: JsValue,
    fromCurrencyKeyBytes: string,
    fromCurrencyKey: string,
    toCurrencyKeyBytes: string,
    toCurrencyKey: string,
    toAddress: JsValue)

  function MapSynthExchange(raw: SynthExchangeRaw): (r: SynthExchange)
    requires HexFrom(raw.fromCurrencyKey, 2) && OneUnitPrefix(raw.fromCurrencyKey)
    requires HexFrom(raw.toCurrencyKey, 2) && OneUnitPrefix(raw.toCurrencyKey)
    ensures IsHashOf(r.hash, raw.id)
    ensures r.fromAddress == raw.from && r.toAddress == raw.toAddress
    ensures r.fromCurrencyKeyBytes == raw.fromCurrencyKey && r.toCurrencyKeyBytes == raw.toCurrencyKey
    ensures r.fromCurrencyKey == HexToAscii(raw.fromCurrencyKey)
    ensures r.toCurrencyKey == HexToAscii(raw.toCurrencyKey)
  {
    SynthExchange(
      HashOf(raw.id),
      raw.from,
      raw.fromCurrencyKey,
      HexToAscii(raw.fromCurrencyKey),
      raw.toCurrencyKey,
      HexToAscii(raw.toCurrencyKey),
      raw.toAddress)
  }

  /** Currency keys stored as padded bytes come back as the tickers they encode. */
  lemma SynthExchangeTickers(id: string, from: JsValue, fromKey: string, toKey: string,
                             toAddress: JsValue, fromPad: nat, toPad: nat)
    requires IsKeyText(fromKey) && IsKeyText(toKey)
    ensures var raw := SynthExchangeRaw(id, from, EncodePadded(fromKey, fromPad), EncodePadded(toKey, toPad), toAddress);
            && MapSynthExchange(raw).fromCurrencyKey == fromKey
            && MapSynthExchange(raw).toCurrencyKey == toKey
  {
    DecodeEncodePadded(fromKey, fromPad);
    DecodeEncodePadded(toKey, toPad);
  }

  /** Example: id `0xaaa-0` and key `0x4f4b5300` map to `0xaaa` and `OKS`. */
  lemma SynthExchangeExample(from: JsValue, toAddress: JsValue)
    ensures HexFrom("0x4f4b5300", 2) && OneUnitPrefix("0x4f4b5300")
    ensures var r := MapSynthExchange(SynthExchangeRaw("0xaaa-0", from, "0x4f4b5300", "0x4f4b5300", toAddress));
            && r.hash == "0xaaa"
            && r.fromCurrencyKey == "OKS"
            && r.fromCurrencyKeyBytes == "0x4f4b5300"
  {
    DecodeExample();
    HashOfComposite("0xaaa", "0");
    assert "0xaaa" + "-" + "0" == "0xaaa-0";
  }

  // exchanges._rebateOrReclaim

  datatype RebateOrReclaimRaw = RebateOrReclaimRaw(id: string, account: JsValue, currencyKey: string)

  datatype RebateOrReclaim = RebateOrReclaim(
    hash: string, account: JsValue, currencyKey: string, currencyKeyBytes: string)

  function MapRebateOrReclaim(raw: RebateOrReclaimRaw): (r: RebateOrReclaim)
    requires HexFrom(raw.currencyKey, 2) && OneUnitPrefix(raw.currencyKey)
    ensures IsHashOf(r.hash, raw.id)
    ensures r.account == raw.account
    ensures r.currencyKeyBytes == raw.currencyKey
    ensures r.currencyKey == HexToAscii(raw.currencyKey)
  {
    RebateOrReclaim(HashOf(raw.id), raw.account, HexToAscii(raw.currencyKey), raw.currencyKey)
  }

  // synths.transfers and oks.transfers

  datatype TransferRaw = TransferRaw(id: string, source: JsValue, from: JsValue, to: JsValue)

  datatype SynthTransfer = SynthTransfer(source: JsValue, hash: string, from: JsValue, to: JsValue)

  datatype OksTransfer = OksTransfer(hash: string, from: JsValue, to: JsValue)

  function MapSynthTransfer(raw: TransferRaw): (r: SynthTransfer)
    ensures IsHashOf(r.hash, raw.id)
    ensures r.source == raw.source && r.from == raw.from && r.to == raw.to
  {
    SynthTransfer(raw.source, HashOf(raw.id), raw.from, raw.to)
  }

  function MapOksTransfer(raw: TransferRaw): (r: OksTransfer)
    ensures IsHashOf(r.hash, raw.id)
    ensures r.from == raw.from && r.to == raw.to
  {
    OksTransfer(HashOf(raw.id), raw.from, raw.to)
  }

  // oks.holders

  datatype HolderRaw = HolderRaw(
    id: string,
    collateral: JsValue,
    balanceOf: JsValue,
    transferable: JsValue,
    initialDebtOwnership: JsValue,
    debtEntryAtIndex: JsValue)

  datatype Holder = Holder(
    address: string,
    collateral: Option<real>,
    balanceOf: Option<real>,
    transferable: Option<real>,
    initialDebtOwnership: Option<real>,
    debtEntryAtIndex: Option<real>)

  function MapHolder(raw: HolderRaw, fromWei: JsValue -> real): (r: Holder)
    ensures r.address == raw.id
    ensures FalsyToNull(r.collateral, raw.collateral, fromWei)
    ensures FalsyToNull(r.balanceOf, raw.balanceOf, fromWei)
    ensures FalsyToNull(r.transferable, raw.transferable, fromWei)
    ensures FalsyToNull(r.initialDebtOwnership, raw.initialDebtOwnership, fromWei)
    ensures FalsyToNull(r.debtEntryAtIndex, raw.debtEntryAtIndex, fromWei)
  {
    Holder(
      raw.id,
      IfTruthy(raw.collateral, fromWei),
      IfTruthy(raw.balanceOf, fromWei),
      IfTruthy(raw.transferable, fromWei),
      IfTruthy(raw.initialDebtOwnership, fromWei),
      IfTruthy(raw.debtEntryAtIndex, fromWei))
  }
}
