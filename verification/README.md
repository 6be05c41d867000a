# Oikos data library: pure core

`index.js` is a thin client for the Oikos subgraphs. Each public call passes a
query to a paging library, then maps every returned record through a result
mapper. Almost all of it is network plumbing. This project models the parts that
are deterministic and self-contained:

- **`hexToAscii`** (module `ShortCode`): the decoder of currency keys. The index
  stores a key as the `0x`-prefixed hex of a right-zero-padded byte string. The
  decoder walks two-character chunks from index 2. It drops every chunk that is
  exactly `00` and turns each other chunk into the character with that
  hexadecimal code. An encoder (`EncodePadded`) is the decoder's partner, and the
  round trip is proved.
- **The composite id** (modules `Strings` and `CompositeId`): `id.split('-')[0]`,
  which every mapper uses to turn `<txHash>-<logIndex>` into the transaction hash.
  It is modelled on top of `split` and `join`, and `split` is proved to invert
  `join`.
- **The `where` predicates** (modules `Where` and `Queries`): the seven query
  builders `depot.userActions`, `depot.clearedDeposits`, `exchanges.since`,
  `exchanges._rebateOrReclaim` (with `reclaims` and `rebates`), `synths.transfers`,
  `rate.updates` and `oks.transfers`.
  - Each builder is modelled as its object literal: a list of entries whose
    values may be `undefined`. The map of the defined entries is what the
    subgraph receives.
  - JavaScript truthiness is modelled exactly. `x ? \"x\" : undefined` drops the
    empty string, and `x || undefined` drops `0`.
- **The result mappers** (module `Mappers`): the hash, renamed and passed-through
  fields, decoded currency keys, and the two policies for optional numeric
  fields. The depot mappers keep only `null` as null (`x !== null ? … : null`).
  The holder mapper turns every falsy value into null (`x ? … : null`).

JavaScript values the mappers receive are `JsValue = Undefined | Null | Str | Num`.
A missing option is `Option.None`, standing for `undefined`. A `where` value is a
`Value`: either a string already quoted for the query language, or a number,
because the bounds are passed unquoted.

An odd-length key is not truncated. At the odd tail `substr(n, 2)` returns one
character, which is decoded as a one-digit chunk: `ShortCode.OddZeroTail` shows
that `0x000` decodes to the character with code 0.

## Model

| member | source | states |
|---|---|---|
| Strings.Join | index.js:391 | `join`: the first part is a prefix of the result, followed by the separator when there is a second part; no parts give the empty string |
| Strings.Split | index.js:57 | `split` on one separator: at least one part, no part contains the separator, and joining the parts with the separator gives back the input |
| Strings.SplitWithoutSeparator | index.js:57 | a string without the separator splits into itself alone |
| Strings.SplitAtFirst | index.js:57 | splitting `head + sep + tail` with a separator-free head yields the head followed by the parts of the tail |
| Strings.SplitJoin | index.js:57 | `split` inverts `join` for every non-empty list of separator-free parts |
| CompositeId.HashOf | index.js:57 | the hash is a prefix of the id with no `-`, followed in the id by `-` or by nothing |
| CompositeId.HashIsUnique | index.js:99 | at most one string has that prefix property, so it pins down the hash exactly |
| CompositeId.HashOfComposite | index.js:149 | an id built as `hash-logIndex` from a hash without `-` gives that hash back, whatever the log index |
| CompositeId.HashOfIdempotent | index.js:258 | taking the hash of a hash changes nothing |
| CompositeId.HashOfExample | index.js:359 | `0xabc123-5` has hash `0xabc123` |
| ShortCode.DigitValue | index.js:28 | one hex digit's value, below 16 |
| ShortCode.ChunkValue | index.js:28 | `parseInt(chunk, 16)` of a one- or two-digit hex chunk is below 256 |
| ShortCode.Substr | index.js:26 | `substr(start, length)`: the characters from `start` on, `length` of them or as many as remain, none when `start` is past the end |
| ShortCode.DecodeFrom | index.js:25-30 | the loop from position `n` emits nothing once `n` reaches the end, and at most one character per two input characters |
| ShortCode.Emit | index.js:27-29 | a chunk contributes at most one character |
| ShortCode.DecodeStep | index.js:25-29 | each iteration reads a hex chunk of one or two characters, appends its contribution, and moves on by two |
| ShortCode.DecodeFromBytes | index.js:28 | every emitted character has a code below 256 |
| ShortCode.HexToAscii | index.js:22-32 | the output has at most ⌈(len − 2) / 2⌉ characters, input of length 2 or less gives the empty string, and every code is below 256 |
| ShortCode.Chunk | index.js:26 | chunk `k` is the text at index 2 + 2k, one character long exactly at an odd tail, and hex whenever the input is |
| ShortCode.KeptFrom | index.js:27 | every listed index is a chunk from `k` on that is not `00` |
| ShortCode.KeptFromComplete | index.js:27 | every chunk from `k` on that is not `00` is listed |
| ShortCode.KeptFromAscending | index.js:25 | the listed indices are strictly ascending, in loop order |
| ShortCode.KeptChunks | index.js:25-29 | the indices of exactly the chunks that are not `00`, in ascending order |
| ShortCode.CharsOf | index.js:28 | one character per listed chunk, the j-th being the j-th chunk's character |
| ShortCode.DecodeFromChunks | index.js:25-30 | from chunk `k` on, the loop's output is the characters of the kept chunks from `k` on |
| ShortCode.DecodeIsChunkwise | index.js:22-32 | exactly one output character per chunk that is not `00`, in input order, each with its chunk's hex value |
| ShortCode.DecodeFromSuffix | index.js:25-29 | the loop from a position depends only on the text from that position on |
| ShortCode.ZeroPairsDecodeEmpty | index.js:27 | a run of whole `00` pairs decodes to nothing |
| ShortCode.HexAroundZeroPair | index.js:26 | inserting `00` keeps the input hex |
| ShortCode.ZeroPairEmitsNothing | index.js:27 | a `00` chunk emits nothing and the loop carries on after it |
| ShortCode.SkipFrom | index.js:25-29 | decoding with and without an inserted `00` pair visits the same chunks before it and the same text after it |
| ShortCode.SkipsZeroPair | index.js:25-29 | a `00` pair at any chunk boundary is skipped, not a stop: inserting one leaves the output unchanged |
| ShortCode.AllZeroDecodesEmpty | index.js:27 | all-zero input of even length decodes to the empty string |
| ShortCode.ZeroTailFrom | index.js:26-28 | an odd all-zero tail decodes to the single character with code 0 |
| ShortCode.OddZeroTail | index.js:26-28 | all-zero input of odd length decodes to one character with code 0: the single-character tail is decoded, not dropped |
| ShortCode.HexDigit | index.js:28 | the lower-case hex digit whose value is `v` |
| ShortCode.EncodeByte | index.js:28 | two hex digits whose `parseInt` value is the byte |
| ShortCode.EncodeBody | index.js:22-32 | the hex body of a key text is two hex digits per character |
| ShortCode.EncodePadded | index.js:22-32 | the padded key is `0x`, two hex digits per character, then two per padding byte |
| ShortCode.DecodePair | index.js:27-28 | a whole pair other than `00` emits the character of its value |
| ShortCode.EncodePaddedCons | index.js:25-28 | the first chunk of an encoded key is its first byte, which is not `00`, and the rest of the text encodes the rest of the key |
| ShortCode.DecodeEncodePadded | index.js:22-32 | decoding a right-zero-padded encoding of a key with non-zero single-byte codes gives the key back, whatever the padding |
| ShortCode.DecodeExample | index.js:22-32 | `0x4f4b5300` decodes to `OKS`, with the zero pair skipped |
| Where.Quote | index.js:47 | the quoted string is the argument between two backslash-quote delimiters |
| Where.QuoteInjective | index.js:48 | distinct arguments give distinct quoted predicates |
| Where.QuotedIfTruthy | index.js:48 | `x ? \"x\" : undefined`: defined exactly for a non-empty string, and then the quoted string |
| Where.NumberIfTruthy | index.js:210 | the numeric fallback to `undefined` (JavaScript logical or): defined exactly for a non-zero number, and then that number |
| Where.QuotedList | index.js:391 | the list text is bracketed; no codes give `[]` and one code gives its quoted form in brackets |
| Where.Defined | index.js:46-49 | the map of defined properties uses only the literal's keys |
| Where.DefinedLookup | index.js:46-49 | with distinct keys, a property is in the map exactly when its value is defined, and then with that value |
| Where.DefinedOtherKeys | index.js:208-215 | replacing one property of the literal leaves every other key of the map as it was |
| Queries.ZeroAddressShape | index.js:20 | the zero address is `0x` followed by forty `0` characters |
| Queries.UserActionsEntriesWellFormed | index.js:46-49 | the literal has distinct keys `network` and `user` |
| Queries.UserActionsWhere | index.js:46-49 | `network` is always the quoted network, `mainnet` by default; `user` is present exactly when the user is non-empty, and quoted; no other key |
| Queries.UserActions | index.js:38-54 | entity `userActions`, newest first by timestamp, page cap 100 by default |
| Queries.UserActionsCall | index.js:38 | a call without an argument throws a `TypeError`, since the parameter has no default; with one it requests the `userActions` query with its filter |
| Queries.ClearedDepositsEntriesWellFormed | index.js:78-82 | the literal has distinct keys `network`, `fromAddress` and `toAddress` |
| Queries.ClearedDepositsWhere | index.js:78-82 | `network` always present with the `mainnet` default; `fromAddress` and `toAddress` present exactly when non-empty, and quoted; no other key |
| Queries.ClearedDeposits | index.js:70-96 | entity `clearedDeposits`, newest first by timestamp, page cap 100 by default |
| Queries.ClearedDepositsCall | index.js:70 | a call without an argument throws a `TypeError`; with one it requests the `clearedDeposits` query with its filter |
| Queries.SinceEntriesWellFormed | index.js:208-215 | the literal has six distinct keys |
| Queries.SinceWhere | index.js:208-215 | `network` always present; each of the four bounds present exactly when its argument is non-zero, holding that number; `from` present exactly when non-empty, and quoted; no other key |
| Queries.Since | index.js:191-219 | entity `synthExchanges`, newest first by timestamp, no page cap by default |
| Queries.SinceBoundIndependent | index.js:210-213 | setting or clearing one bound changes only that bound's key, and that key then reflects the new value |
| Queries.RebateOrReclaimEntriesWellFormed | index.js:241-247 | the literal has five distinct keys |
| Queries.RebateOrReclaimWhere | index.js:241-247 | each bound present exactly when non-zero; `account` present exactly when non-empty, and quoted; no network and no other key |
| Queries.RebateOrReclaim | index.js:224-251 | entity `exchangeReclaims` or `exchangeRebates` by the flag, newest first, no page cap by default |
| Queries.Reclaims | index.js:270-272 | queries `exchangeReclaims` with the same filter that rebates builds |
| Queries.Rebates | index.js:274-276 | queries `exchangeRebates` with the same filter that reclaims builds |
| Queries.SynthTransfersEntriesWellFormed | index.js:339-348 | the literal has eight distinct keys |
| Queries.SynthTransfersWhere | index.js:339-348 | `source_not` is always the quoted `oks`; `from_not` and `to_not` are always the quoted zero address; `source`, `from` and `to` present exactly when non-empty; the block bounds present exactly when non-zero; no other key |
| Queries.SynthTransfers | index.js:323-352 | entity `transfers`, newest first by timestamp, page cap 100 by default |
| Queries.NonSynthExclusion | index.js:390-392 | `synth_not_in` is defined exactly when no synth is named (undefined or empty), and then it is the quoted list of `oks`, `BNB` and `ODR` |
| Queries.RateUpdatesEntriesWellFormed | index.js:388-397 | the literal has six distinct keys |
| Queries.RateUpdatesWhere | index.js:388-397 | exactly one of `synth` and `synth_not_in` is present; `synth` present exactly when non-empty; `synth_not_in` is the quoted list of `oks`, `BNB` and `ODR`; each bound present exactly when non-zero; no other key |
| Queries.RateUpdates | index.js:372-401 | entity `rateUpdates`, newest first by timestamp, page cap 100 by default |
| Queries.QuotedListOfThree | index.js:391 | a three-code list is `[`, the three quoted codes joined by `,`, then `]` |
| Queries.NonSynthListLiteral | index.js:390-392 | the exclusion list is the text `[\"oks\",\"BNB\",\"ODR\"]` |
| Queries.OksTransfersEntriesWellFormed | index.js:559-565 | the literal has five distinct keys |
| Queries.OksTransfersWhere | index.js:559-565 | `source` is always the quoted `oks`; `from` and `to` present exactly when non-empty; block bounds present exactly when non-zero; no other key |
| Queries.OksTransfers | index.js:550-569 | entity `transfers`, newest first by timestamp, page cap 100 by default |
| Mappers.UnlessNull | index.js:61-62 | `x !== null ? convert(x) : null`: null exactly for `null`, the converted value otherwise |
| Mappers.IfTruthy | index.js:492-496 | `x ? convert(x) : null`: null exactly for a falsy value, the converted value otherwise |
| Mappers.NullPoliciesCompared | index.js:61-62 | the `!== null` and truthiness policies agree on `null` and on truthy values, and differ exactly on `0`, `""` and `undefined` |
| Mappers.MapUserAction | index.js:56-62 | hash of the id; `user` and `type` (field `kind`, as `type` is a Dafny keyword) passed through; `minimum` and `depositIndex` null exactly when null, converted otherwise |
| Mappers.MapClearedDeposit | index.js:98-104 | hash of the id; both addresses passed through; `depositIndex` null exactly when null, converted otherwise |
| Mappers.MapSynthExchange | index.js:144-161 | hash of the id; `from` renamed `fromAddress`; the raw keys kept as bytes; both currency keys decoded |
| Mappers.SynthExchangeTickers | index.js:153-158 | currency keys stored as padded bytes map to the tickers they encode |
| Mappers.SynthExchangeExample | index.js:149-153 | the record with id `0xaaa-0` and key `0x4f4b5300` maps to hash `0xaaa` and key `OKS` |
| Mappers.MapRebateOrReclaim | index.js:253-264 | hash of the id; `account` passed through; the currency key decoded, the raw key kept as bytes |
| Mappers.MapSynthTransfer | index.js:354-361 | hash of the id; `source`, `from` and `to` passed through |
| Mappers.MapOksTransfer | index.js:571-577 | hash of the id; `from` and `to` passed through |
| Mappers.MapHolder | index.js:487-497 | address is the id; each of the five balances is null exactly when the raw value is falsy, converted otherwise |

## Left out

- `pageResults` and the endpoint constants (index.js:6-18): a foreign paging library and network I/O. The model stops at the query each builder hands it.
- The subscription adapters `exchanges.observe` and `rate.observe` (index.js:278-305, 419-451): WebSocket plumbing whose query text is built for transport. `rate.observe` forwards raw, unmapped records (index.js:444).
- Divisions by `1e18` and `1e9`, `Number(...)` and `new Date(...)`: floating-point and host-clock behaviour. The mappers take the conversion as a function parameter and leave out the fields computed only by such arithmetic (`amount`, `gasPrice`, `block`, `timestamp`, `date` and the USD amounts).
- `.catch(err => console.error(err))` and the array destructuring in the `total()` calls (index.js:180, 541): asynchronous control flow and logging.
- The mapper of `rate.updates` (index.js:402-413): its callback builds an array and returns nothing, so the call resolves to `undefined`. That is asynchronous behaviour outside the pure core.
- The `properties` field lists: static data, not behaviour.
- `exchanges.total`, `synths.issuers`, `oks.holders`, `oks.rewards` and `oks.total` as queries: none of them builds a filter from its arguments. `exchanges.total` takes a `network` option but ignores it, since its `where` is commented out (index.js:166-175). `oks.total` has the fixed filter `id: 1`. Only the holder mapper's null handling is modelled.
- ShortCode.HexToAscii: positions are counted in characters, while JavaScript counts UTF-16 code units. The decoder therefore requires the two skipped leading characters to be one code unit each (`OneUnitPrefix`); hex digits always are. With a character outside the Basic Multilingual Plane in front, every chunk would shift, and that case is not modelled. The mappers that decode currency keys carry the same requirement.
- The five builders other than the two depot calls default their parameter to `{}`: the call without an argument is the call with every option `None`, and it is not modelled separately.
- Non-hex keys: the decoder requires hex digits from index 2 on. For other input, `parseInt` yields `NaN` or a partial prefix value, and that is not modelled.
- The `network` option set to an explicit `null`: the model's `None` is `undefined`, which triggers the `mainnet` default, and any given string is quoted as is.
- Where values are the datatype `Value` rather than strings only, because the bounds are numbers in the literal.
