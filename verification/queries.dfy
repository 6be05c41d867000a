/**
 The query builders: each turns a call's named options into the selection
 the paging helper is given: entity, ordering, filter predicate and page cap.
 Every builder is written as its `where` object literal, a list of entries,
 exactly as the library spells it out.
 */
module Queries {
  import opened JsValues
  import opened Where
  import opened Strings

  /** The `max` page cap: a number, or `Infinity`. */
  datatype Cap = Limit(n: int) | Unlimited

  datatype Query = Query(
    entity: string,
    orderBy: string,
    orderDirection: string,
    where: map<string, Value>,
    max: Cap)

  /**
   What a call does with its argument: hands a query to the paging helper, or
   throws a `TypeError` before any request when it destructures `undefined`.
   */
  datatype Call = Requests(query: Query) | ThrowsTypeError

  /** `'0x' + '0'.repeat(40)`. */
  const ZeroAddress: string := "0x0000000000000000000000000000000000000000"

  lemma ZeroAddressShape()
    ensures |ZeroAddress| == 42 && ZeroAddress[..2] == "0x"
    ensures forall i | 2 <= i < 42 :: ZeroAddress[i] == '0'
  {
    assert ZeroAddress[..2] == [ZeroAddress[0], ZeroAddress[1]];
  }

  /** The native token, which the synth-transfer query leaves out. */
  const NativeSource: string := "oks"

  /** The price feeds that are not synths, which rate updates leave out by default. */
  const NonSynthCodes: seq<string> := ["oks", "BNB", "ODR"]

  /** `key` holds the quoted argument exactly when the argument is truthy. */
  predicate TextFilter(m: map<string, Value>, key: string, x: Option<string>) {
    && (key in m <==> TextTruthy(x))
    && (TextTruthy(x) ==> m[key] == Text(Quote(x.value)))
  }

  /** `key` holds the number exactly when it is given and non-zero. */
  predicate NumberFilter(m: map<string, Value>, key: string, x: Option<int>) {
    && (key in m <==> NumberTruthy(x))
    && (NumberTruthy(x) ==> m[key] == Number(x.value))
  }

  /** `key` is always present with value `v`. */
  predicate Fixed(m: map<string, Value>, key: string, v: Value) {
    key in m && m[key] == v
  }

  /** The `network` predicate: the quoted network, `mainnet` when undefined. */
  function NetworkEntry(network: Option<string>): Entry {
    Entry("network", Always(Text(Quote(network.GetOr("mainnet")))))
  }

  // depot.userActions

  datatype UserActionsOptions = UserActionsOptions(
    network: Option<string>,
    user: Option<string>,
    max: Option<Cap>)

  function UserActionsEntries(o: UserActionsOptions): seq<Entry> {
    [ NetworkEntry(o.network),
      Entry("user", QuotedIfTruthy(o.user)) ]
  }

  lemma UserActionsEntriesWellFormed(o: UserActionsOptions)
    ensures DistinctKeys(UserActionsEntries(o))
    ensures KeySet(UserActionsEntries(o)) <= {"network", "user"}
  {
  }

  /** The `where` literal of UserActions, undefined properties dropped. */
  function UserActionsWhere(o: UserActionsOptions): (m: map<string, Value>)
    ensures m.Keys <= {"network", "user"}
    ensures Fixed(m, "network", Text(Quote(o.network.GetOr("mainnet"))))
    ensures TextFilter(m, "user", o.user)
  {
    var es := UserActionsEntries(o);
    UserActionsEntriesWellFormed(o);
    DefinedLookup(es, 0);
    DefinedLookup(es, 1);
    Defined(es)
  }

  function UserActions(o: UserActionsOptions): (q: Query)
    ensures q.entity == "userActions"
    ensures q.orderBy == "timestamp" && q.orderDirection == "desc"
    ensures q.max == o.max.GetOr(Limit(100))
    ensures q.where == UserActionsWhere(o)
  {
    Query("userActions", "timestamp", "desc", UserActionsWhere(o), o.max.GetOr(Limit(100)))
  }

  /**
   `depot.userActions(arg)`: the parameter has no `= {}` default, so a call
   without an argument throws instead of using the defaults.
   */
  function UserActionsCall(arg: Option<UserActionsOptions>): (r: Call)
    ensures r.ThrowsTypeError? <==> arg.None?
    ensures arg.Some? ==> r.Requests? && r.query.entity == "userActions"
    ensures arg.Some? ==> r.query.where == UserActionsWhere(arg.value)
  {
    match arg
    case None => ThrowsTypeError
    case Some(o) => Requests(UserActions(o))
  }

  // depot.clearedDeposits

  datatype ClearedDepositsOptions = ClearedDepositsOptions(
    network: Option<string>,
    fromAddress: Option<string>,
    toAddress: Option<string>,
    max: Option<Cap>)

  function ClearedDepositsEntries(o: ClearedDepositsOptions): seq<Entry> {
    [ NetworkEntry(o.network),
      Entry("fromAddress", QuotedIfTruthy(o.fromAddress)),
      Entry("toAddress", QuotedIfTruthy(o.toAddress)) ]
  }

  lemma ClearedDepositsEntriesWellFormed(o: ClearedDepositsOptions)
    ensures DistinctKeys(ClearedDepositsEntries(o))
    ensures KeySet(ClearedDepositsEntries(o)) <= {"network", "fromAddress", "toAddress"}
  {
  }

  /** The `where` literal of ClearedDeposits, undefined properties dropped. */
  function ClearedDepositsWhere(o: ClearedDepositsOptions): (m: map<string, Value>)
    ensures m.Keys <= {"network", "fromAddress", "toAddress"}
    ensures Fixed(m, "network", Text(Quote(o.network.GetOr("mainnet"))))
    ensures TextFilter(m, "fromAddress", o.fromAddress)
    ensures TextFilter(m, "toAddress", o.toAddress)
  {
    var es := ClearedDepositsEntries(o);
    ClearedDepositsEntriesWellFormed(o);
    DefinedLookup(es, 0);
    DefinedLookup(es, 1);
    DefinedLookup(es, 2);
    Defined(es)
  }

  function ClearedDeposits(o: ClearedDepositsOptions): (q: Query)
    ensures q.entity == "clearedDeposits"
    ensures q.orderBy == "timestamp" && q.orderDirection == "desc"
    ensures q.max == o.max.GetOr(Limit(100))
    ensures q.where == ClearedDepositsWhere(o)
  {
    Query("clearedDeposits", "timestamp", "desc", ClearedDepositsWhere(o), o.max.GetOr(Limit(100)))
  }

  /** `depot.clearedDeposits(arg)`: like UserActionsCall, no argument throws. */
  function ClearedDepositsCall(arg: Option<ClearedDepositsOptions>): (r: Call)
    ensures r.ThrowsTypeError? <==> arg.None?
    ensures arg.Some? ==> r.Requests? && r.query.entity == "clearedDeposits"
    ensures arg.Some? ==> r.query.where == ClearedDepositsWhere(arg.value)
  {
    match arg
    case None => ThrowsTypeError
    case Some(o) => Requests(ClearedDeposits(o))
  }

  // exchanges.since

  datatype SinceOptions = SinceOptions(
    network: Option<string>,
    max: Option<Cap>,
    minTimestamp: Option<int>,
    maxTimestamp: Option<int>,
    minBlock: Option<int>,
    maxBlock: Option<int>,
    fromAddress: Option<string>)

  function SinceEntries(o: SinceOptions): seq<Entry> {
    [ NetworkEntry(o.network),
      Entry("timestamp_gte", NumberIfTruthy(o.minTimestamp)),
      Entry("timestamp_lte", NumberIfTruthy(o.maxTimestamp)),
      Entry("block_gte", NumberIfTruthy(o.minBlock)),
      Entry("block_lte", NumberIfTruthy(o.maxBlock)),
      Entry("from", QuotedIfTruthy(o.fromAddress)) ]
  }

  lemma SinceEntriesWellFormed(o: SinceOptions)
    ensures DistinctKeys(SinceEntries(o))
    ensures KeySet(SinceEntries(o)) <= {"network", "timestamp_gte", "timestamp_lte", "block_gte", "block_lte", "from"}
  {
  }

  /** The `where` literal of Since, undefined properties dropped. */
  function SinceWhere(o: SinceOptions): (m: map<string, Value>)
    ensures m.Keys <= {"network", "timestamp_gte", "timestamp_lte", "block_gte", "block_lte", "from"}
    ensures Fixed(m, "network", Text(Quote(o.network.GetOr("mainnet"))))
    ensures NumberFilter(m, "timestamp_gte", o.minTimestamp)
    ensures NumberFilter(m, "timestamp_lte", o.maxTimestamp)
    ensures NumberFilter(m, "block_gte", o.minBlock)
    ensures NumberFilter(m, "block_lte", o.maxBlock)
    ensures TextFilter(m, "from", o.fromAddress)
  {
    var es := SinceEntries(o);
    SinceEntriesWellFormed(o);
    DefinedLookup(es, 0);
    DefinedLookup(es, 1);
    DefinedLookup(es, 2);
    DefinedLookup(es, 3);
    DefinedLookup(es, 4);
    DefinedLookup(es, 5);
    Defined(es)
  }

  function Since(o: SinceOptions): (q: Query)
    ensures q.entity == "synthExchanges"
    ensures q.orderBy == "timestamp" && q.orderDirection == "desc"
    ensures q.max == o.max.GetOr(Unlimited)
    ensures q.where == SinceWhere(o)
  {
    Query("synthExchanges", "timestamp", "desc", SinceWhere(o), o.max.GetOr(Unlimited))
  }

  /** One of the four numeric bounds `exchanges.since` accepts. */
  datatype Bound = MinTimestamp | MaxTimestamp | MinBlock | MaxBlock

  function BoundKey(b: Bound): string {
    match b
    case MinTimestamp => "timestamp_gte"
    case MaxTimestamp => "timestamp_lte"
    case MinBlock => "block_gte"
    case MaxBlock => "block_lte"
  }

  function WithBound(o: SinceOptions, b: Bound, x: Option<int>): SinceOptions {
    match b
    case MinTimestamp => o.(minTimestamp := x)
    case MaxTimestamp => o.(maxTimestamp := x)
    case MinBlock => o.(minBlock := x)
    case MaxBlock => o.(maxBlock := x)
  }

  /** `m1` and `m2` hold the same predicates on every key but `key`. */
  ghost predicate AgreeExcept(m1: map<string, Value>, m2: map<string, Value>, key: string) {
    forall k | k != key :: (k in m1 <==> k in m2) && (k in m1 ==> m1[k] == m2[k])
  }

  /**
   Changing one bound of `exchanges.since` changes only that bound's key:
   the bounds are independent of each other and of every other filter.
   */
  lemma SinceBoundIndependent(o: SinceOptions, b: Bound, x: Option<int>)
    ensures AgreeExcept(SinceWhere(o), SinceWhere(WithBound(o, b, x)), BoundKey(b))
    ensures NumberFilter(SinceWhere(WithBound(o, b, x)), BoundKey(b), x)
  {
    var es := SinceEntries(o);
    var i := match b
      case MinTimestamp => 1
      case MaxTimestamp => 2
      case MinBlock => 3
      case MaxBlock => 4;
    var e := Entry(BoundKey(b), NumberIfTruthy(x));
    assert SinceEntries(WithBound(o, b, x)) == es[i := e];
    forall k | k != BoundKey(b)
      ensures k in Defined(es) <==> k in Defined(es[i := e])
      ensures k in Defined(es) ==> Defined(es)[k] == Defined(es[i := e])[k]
    {
      DefinedOtherKeys(es, i, e, k);
    }
  }

  // exchanges._rebateOrReclaim, exchanges.reclaims, exchanges.rebates

  datatype RebateOrReclaimOptions = RebateOrReclaimOptions(
    account: Option<string>,
    max: Option<Cap>,
    minTimestamp: Option<int>,
    maxTimestamp: Option<int>,
    minBlock: Option<int>,
    maxBlock: Option<int>)

  function RebateOrReclaimEntries(o: RebateOrReclaimOptions): seq<Entry> {
    [ Entry("timestamp_gte", NumberIfTruthy(o.minTimestamp)),
      Entry("timestamp_lte", NumberIfTruthy(o.maxTimestamp)),
      Entry("block_gte", NumberIfTruthy(o.minBlock)),
      Entry("block_lte", NumberIfTruthy(o.maxBlock)),
      Entry("account", QuotedIfTruthy(o.account)) ]
  }

  lemma RebateOrReclaimEntriesWellFormed(o: RebateOrReclaimOptions)
    ensures DistinctKeys(RebateOrReclaimEntries(o))
    ensures KeySet(RebateOrReclaimEntries(o)) <= {"timestamp_gte", "timestamp_lte", "block_gte", "block_lte", "account"}
  {
  }

  /** The `where` literal of RebateOrReclaim, undefined properties dropped. */
  function RebateOrReclaimWhere(o: RebateOrReclaimOptions): (m: map<string, Value>)
    ensures m.Keys <= {"timestamp_gte", "timestamp_lte", "block_gte", "block_lte", "account"}
    ensures NumberFilter(m, "timestamp_gte", o.minTimestamp)
    ensures NumberFilter(m, "timestamp_lte", o.maxTimestamp)
    ensures NumberFilter(m, "block_gte", o.minBlock)
    ensures NumberFilter(m, "block_lte", o.maxBlock)
    ensures TextFilter(m, "account", o.account)
  {
    var es := RebateOrReclaimEntries(o);
    RebateOrReclaimEntriesWellFormed(o);
    DefinedLookup(es, 0);
    DefinedLookup(es, 1);
    DefinedLookup(es, 2);
    DefinedLookup(es, 3);
    DefinedLookup(es, 4);
    Defined(es)
  }

  function RebateOrReclaim(isReclaim: bool, o: RebateOrReclaimOptions): (q: Query)
    ensures q.entity == if isReclaim then "exchangeReclaims" else "exchangeRebates"
    ensures q.orderBy == "timestamp" && q.orderDirection == "desc"
    ensures q.max == o.max.GetOr(Unlimited)
    ensures q.where == RebateOrReclaimWhere(o)
  {
    var entity := "exchange" + (if isReclaim then "Reclaim" else "Rebate") + "s";
    Query(entity, "timestamp", "desc", RebateOrReclaimWhere(o), o.max.GetOr(Unlimited))
  }

  function Reclaims(o: RebateOrReclaimOptions): (q: Query)
    ensures q.entity == "exchangeReclaims"
    ensures q.where == RebateOrReclaim(false, o).where
  {
    RebateOrReclaim(true, o)
  }

  function Rebates(o: RebateOrReclaimOptions): (q: Query)
    ensures q.entity == "exchangeRebates"
    ensures q.where == RebateOrReclaim(true, o).where
  {
    RebateOrReclaim(false, o)
  }

  // synths.transfers

  datatype SynthTransfersOptions = SynthTransfersOptions(
    synth: Option<string>,
    from: Option<string>,
    to: Option<string>,
    max: Option<Cap>,
    minBlock: Option<int>,
    maxBlock: Option<int>)

  function SynthTransfersEntries(o: SynthTransfersOptions): seq<Entry> {
    [ Entry("source", QuotedIfTruthy(o.synth)),
      Entry("source_not", Always(Text(Quote(NativeSource)))),
      Entry("from", QuotedIfTruthy(o.from)),
      Entry("to", QuotedIfTruthy(o.to)),
      Entry("from_not", Always(Text(Quote(ZeroAddress)))),
      Entry("to_not", Always(Text(Quote(ZeroAddress)))),
      Entry("block_gte", NumberIfTruthy(o.minBlock)),
      Entry("block_lte", NumberIfTruthy(o.maxBlock)) ]
  }

  lemma SynthTransfersEntriesWellFormed(o: SynthTransfersOptions)
    ensures DistinctKeys(SynthTransfersEntries(o))
    ensures KeySet(SynthTransfersEntries(o)) <= {"source", "source_not", "from", "to", "from_not", "to_not", "block_gte", "block_lte"}
  {
  }

  /** The `where` literal of SynthTransfers, undefined properties dropped. */
  function SynthTransfersWhere(o: SynthTransfersOptions): (m: map<string, Value>)
    ensures m.Keys <= {"source", "source_not", "from", "to", "from_not", "to_not", "block_gte", "block_lte"}
    ensures TextFilter(m, "source", o.synth)
    ensures Fixed(m, "source_not", Text(Quote("oks")))
    ensures TextFilter(m, "from", o.from)
    ensures TextFilter(m, "to", o.to)
    ensures Fixed(m, "from_not", Text(Quote(ZeroAddress)))
    ensures Fixed(m, "to_not", Text(Quote(ZeroAddress)))
    ensures NumberFilter(m, "block_gte", o.minBlock)
    ensures NumberFilter(m, "block_lte", o.maxBlock)
  {
    var es := SynthTransfersEntries(o);
    SynthTransfersEntriesWellFormed(o);
    DefinedLookup(es, 0);
    DefinedLookup(es, 1);
    DefinedLookup(es, 2);
    DefinedLookup(es, 3);
    DefinedLookup(es, 4);
    DefinedLookup(es, 5);
    DefinedLookup(es, 6);
    DefinedLookup(es, 7);
    Defined(es)
  }

  function SynthTransfers(o: SynthTransfersOptions): (q: Query)
    ensures q.entity == "transfers"
    ensures q.orderBy == "timestamp" && q.orderDirection == "desc"
    ensures q.max == o.max.GetOr(Limit(100))
    ensures q.where == SynthTransfersWhere(o)
  {
    Query("transfers", "timestamp", "desc", SynthTransfersWhere(o), o.max.GetOr(Limit(100)))
  }

  // rate.updates

  datatype RateUpdatesOptions = RateUpdatesOptions(
    synth: Option<string>,
    minBlock: Option<int>,
    maxBlock: Option<int>,
    minTimestamp: Option<int>,
    maxTimestamp: Option<int>,
    max: Option<Cap>)

  /** `!synth ? '[…]' : undefined`: leave out the non-synth prices unless a synth is named. */
  function NonSynthExclusion(synth: Option<string>): (r: Option<Value>)
    ensures r.Some? <==> synth.None? || synth.value == ""
    ensures r.Some? ==>
              r.value == Text("[" + "\\\"oks\\\"" + "," + "\\\"BNB\\\"" + "," + "\\\"ODR\\\"" + "]")
  {
    NonSynthListLiteral();
    if !TextTruthy(synth) then Some(Text(QuotedList(NonSynthCodes))) else None
  }

  function RateUpdatesEntries(o: RateUpdatesOptions): seq<Entry> {
    [ Entry("synth", QuotedIfTruthy(o.synth)),
      Entry("synth_not_in", NonSynthExclusion(o.synth)),
      Entry("block_gte", NumberIfTruthy(o.minBlock)),
      Entry("block_lte", NumberIfTruthy(o.maxBlock)),
      Entry("timestamp_gte", NumberIfTruthy(o.minTimestamp)),
      Entry("timestamp_lte", NumberIfTruthy(o.maxTimestamp)) ]
  }

  lemma RateUpdatesEntriesWellFormed(o: RateUpdatesOptions)
    ensures DistinctKeys(RateUpdatesEntries(o))
    ensures KeySet(RateUpdatesEntries(o)) <= {"synth", "synth_not_in", "block_gte", "block_lte", "timestamp_gte", "timestamp_lte"}
  {
  }

  /** The `where` literal of RateUpdates, undefined properties dropped. */
  function RateUpdatesWhere(o: RateUpdatesOptions): (m: map<string, Value>)
    ensures m.Keys <= {"synth", "synth_not_in", "block_gte", "block_lte", "timestamp_gte", "timestamp_lte"}
    ensures TextFilter(m, "synth", o.synth)
    ensures ("synth" in m) != ("synth_not_in" in m)
    ensures "synth_not_in" in m ==>
              m["synth_not_in"] == Text("[" + "\\\"oks\\\"" + "," + "\\\"BNB\\\"" + "," + "\\\"ODR\\\"" + "]")
    ensures NumberFilter(m, "block_gte", o.minBlock)
    ensures NumberFilter(m, "block_lte", o.maxBlock)
    ensures NumberFilter(m, "timestamp_gte", o.minTimestamp)
    ensures NumberFilter(m, "timestamp_lte", o.maxTimestamp)
  {
    var es := RateUpdatesEntries(o);
    RateUpdatesEntriesWellFormed(o);
    DefinedLookup(es, 0);
    DefinedLookup(es, 1);
    DefinedLookup(es, 2);
    DefinedLookup(es, 3);
    DefinedLookup(es, 4);
    DefinedLookup(es, 5);
    NonSynthListLiteral();
    Defined(es)
  }

  function RateUpdates(o: RateUpdatesOptions): (q: Query)
    ensures q.entity == "rateUpdates"
    ensures q.orderBy == "timestamp" && q.orderDirection == "desc"
    ensures q.max == o.max.GetOr(Limit(100))
    ensures q.where == RateUpdatesWhere(o)
  {
    Query("rateUpdates", "timestamp", "desc", RateUpdatesWhere(o), o.max.GetOr(Limit(100)))
  }

  /** The exclusion list is the literal `[\"oks\",\"BNB\",\"ODR\"]`. */
  lemma QuotedListOfThree(a: string, b: string, c: string)
    ensures QuotedList([a, b, c]) == "[" + Quote(a) + "," + Quote(b) + "," + Quote(c) + "]"
  {
    var quoted := seq(3, i requires 0 <= i < 3 => Quote([a, b, c][i]));
    assert quoted == [Quote(a), Quote(b), Quote(c)];
    assert Join(quoted[2..], ',') == Quote(c);
    assert quoted[1..][1..] == quoted[2..];
    assert Join(quoted[1..], ',') == Quote(b) + "," + Quote(c);
    assert Join(quoted, ',') == Quote(a) + "," + (Quote(b) + "," + Quote(c));
  }

  lemma NonSynthListLiteral()
    ensures QuotedList(NonSynthCodes)
         == "[" + "\\\"oks\\\"" + "," + "\\\"BNB\\\"" + "," + "\\\"ODR\\\"" + "]"
  {
    QuotedListOfThree("oks", "BNB", "ODR");
    assert Quote("oks") == "\\\"oks\\\"";
    assert Quote("BNB") == "\\\"BNB\\\"";
    assert Quote("ODR") == "\\\"ODR\\\"";
  }

  // oks.transfers

  datatype OksTransfersOptions = OksTransfersOptions(
    from: Option<string>,
    to: Option<string>,
    max: Option<Cap>,
    minBlock: Option<int>,
    maxBlock: Option<int>)

  function OksTransfersEntries(o: OksTransfersOptions): seq<Entry> {
    [ Entry("source", Always(Text(Quote(NativeSource)))),
      Entry("from", QuotedIfTruthy(o.from)),
      Entry("to", QuotedIfTruthy(o.to)),
      Entry("block_gte", NumberIfTruthy(o.minBlock)),
      Entry("block_lte", NumberIfTruthy(o.maxBlock)) ]
  }

  lemma OksTransfersEntriesWellFormed(o: OksTransfersOptions)
    ensures DistinctKeys(OksTransfersEntries(o))
    ensures KeySet(OksTransfersEntries(o)) <= {"source", "from", "to", "block_gte", "block_lte"}
  {
  }

  /** The `where` literal of OksTransfers, undefined properties dropped. */
  function OksTransfersWhere(o: OksTransfersOptions): (m: map<string, Value>)
    ensures m.Keys <= {"source", "from", "to", "block_gte", "block_lte"}
    ensures Fixed(m, "source", Text(Quote("oks")))
    ensures TextFilter(m, "from", o.from)
    ensures TextFilter(m, "to", o.to)
    ensures NumberFilter(m, "block_gte", o.minBlock)
    ensures NumberFilter(m, "block_lte", o.maxBlock)
  {
    var es := OksTransfersEntries(o);
    OksTransfersEntriesWellFormed(o);
    DefinedLookup(es, 0);
    DefinedLookup(es, 1);
    DefinedLookup(es, 2);
    DefinedLookup(es, 3);
    DefinedLookup(es, 4);
    Defined(es)
  }

  function OksTransfers(o: OksTransfersOptions): (q: Query)
    ensures q.entity == "transfers"
    ensures q.orderBy == "timestamp" && q.orderDirection == "desc"
    ensures q.max == o.max.GetOr(Limit(100))
    ensures q.where == OksTransfersWhere(o)
  {
    Query("transfers", "timestamp", "desc", OksTransfersWhere(o), o.max.GetOr(Limit(100)))
  }
}
