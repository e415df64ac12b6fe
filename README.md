# arbitrum-rollup configuration synthesis, in Dafny

This project models the pure middle of `generateConfig` in `src/config.ts`.
That is the step that turns a decoded rollup-creation transaction into the two
configuration artifacts an Orbit (Arbitrum L3) chain needs:

- **the L3 config record** (`l3Config`). Its role addresses come from the
  operators' keys. The deployer fills `networkFeeReceiver`,
  `infrastructureFeeCollector` and `chainOwner`. The validator key gives the
  `staker` and the batch-poster key gives the `batchPoster`. The record also
  holds the chain ids and the chain name, the fixed `minL2BaseFee` of
  100000000 wei and a fixed parent-chain node URL. Every core contract is
  copied into it, `validatorUtils` under two keys. Last comes the block number
  of the creation receipt.
- **its serialisation** with the replacer
  `(key, value) => typeof value === "bigint" ? value.toString() : value`.
  Without the replacer `JSON.stringify` throws a TypeError on the block number,
  which is a BigInt. With it, every BigInt becomes its decimal string.
- **`getRpcUrl`** and the argument object handed to the node-config builder:
  the raw batch-poster and validator keys, the parent chain's id and its
  resolved RPC URL.

Modules:

- `Wrappers`: `Option` and `Result`.
- `Decimal`: BigInt `toString()` in radix 10 (ECMA-262, section 21.2.3.3), and
  a parser, so that the round trip can be stated.
- `Json`: the values `JSON.stringify` walks, and its serialisation with and
  without a replacer (ECMA-262, section 25.5.2, no indentation). This includes
  string quoting, the omission of `undefined` members and the TypeError on a
  BigInt.
- `Config`: the chain descriptor, `getRpcUrl`, the record, its object form,
  the written text and the node-config arguments.

The key-to-address derivation `privateKeyToAccount(sanitizePrivateKey(k)).address`
is a function parameter `accountOf`; `None` stands for a derivation that throws.
An environment variable read with `process.env.X!` is an `Option<string>`: the
`!` checks nothing, so an unset `CHAIN_NAME` is `undefined`, and `JSON.stringify`
then leaves the key out.

Two further points about the code that the model carries over:

- The block-number round trip through its decimal string is proved for every
  integer, with no bound on its size.
- `getRpcUrl` indexes `http[0]` without a guard. On an empty list JavaScript
  yields `undefined`, which the model returns as `None`.

## Model

| member | source | states |
|---|---|---|
| `Decimal.BigIntToString` | src/config.ts:109 | `value.toString()` on a BigInt is a canonical decimal: digits with no leading zero, and a minus sign only before a non-zero magnitude. It starts with `-` exactly when the value is negative |
| `Decimal.BigIntToStringRoundTrip` | src/config.ts:108-110 | parsing the replacer's string gives back the BigInt exactly, for every integer, with no precision bound |
| `Decimal.CanonicalDecimalRoundTrip` | src/config.ts:108-110 | every canonical decimal string is the replacer's output for the value it parses to, so the encoding is one-to-one onto canonical strings |
| `Json.BigIntReplacer` | src/config.ts:108-110 | a BigInt becomes a string that is its canonical decimal and parses back to it. Any other value is returned unchanged, and the key is not consulted |
| `Json.ReplaceAllLeavesNoBig` | src/config.ts:108-110 | after the replacer has run over a value, no BigInt remains at any depth |
| `Json.ReplaceAllWithoutBig` | src/config.ts:108-110 | a value holding no BigInt passes the replacer unchanged |
| `Json.ReplaceAllIdempotent` | src/config.ts:108-110 | replacing twice gives the same value as replacing once |
| `Json.LookupAfterReplaceAll` | src/config.ts:108-110 | the replacer leaves the member at each position with its key and its replaced value, so the keys stay distinct and each key finds its replaced value |
| `Json.StringifyThrowsIffBig` | src/config.ts:108-110 | without a replacer, `JSON.stringify` throws a TypeError exactly when a BigInt occurs somewhere in the value |
| `Json.PropertyReplacerIsReplaceAll` | src/config.ts:108-110 | applying the replacer at each property during the walk gives the same outcome as serialising the value with every BigInt replaced beforehand |
| `Json.StringifyReplacingBigIntsNeverThrows` | src/config.ts:108-110 | `JSON.stringify` with the replacer never throws, and it equals plain `JSON.stringify` of the replaced value |
| `Json.UnquoteQuote` | src/config.ts:108-110 | quoting a string for the text loses nothing: the string is read back exactly from its JSON literal |
| `Json.StringifyShowsMember` | src/config.ts:108-110 | the text of an object contains `"key":value` for each member whose value serialises to text |
| `Json.ReplaceAll` | src/config.ts:108-110 | the replacer applied at every depth of a value. It has no contract of its own; `Json.ReplaceAllLeavesNoBig`, `Json.ReplaceAllWithoutBig`, `Json.ReplaceAllIdempotent` and `Json.PropertyReplacerIsReplaceAll` describe it |
| `Json.EscapeChar` | src/config.ts:108-110 | QuoteJSONString for one character: the short escapes, `\u00XX` in lowercase hex for other control characters, and the character itself otherwise. Its escape is never empty; `Json.UnquoteQuote` shows that reading it back is exact |
| `Json.QuotePlain` | src/config.ts:108-110 | a string with no double quote, backslash or control character is written by QuoteJSONString as itself between double quotes |
| `Json.Quote` | src/config.ts:108-110 | QuoteJSONString: the escaped characters between double quotes. `Json.UnquoteQuote` shows that it loses nothing |
| `Json.SerializeProperty` | src/config.ts:108-110 | SerializeJSONProperty: the replacer when given, then `undefined` gives no text and a BigInt throws a TypeError. Integral Numbers print as decimal and strings are quoted. No contract of its own; `Json.StringifyThrowsIffBig`, `Json.PropertyReplacerIsReplaceAll` and `Json.SerializeNumber` describe it |
| `Json.SerializeArrayFrom` | src/config.ts:108-110 | SerializeJSONArray from an element on, writing `undefined` elements as `null`. No contract of its own; `Json.ArrayThrowsIffBig` and `Json.ArrayReplacerIsReplaceAll` describe it |
| `Json.SerializeObjectFrom` | src/config.ts:108-110 | SerializeJSONObject from a member on, omitting members whose value is `undefined`. No contract of its own; `Json.ObjectThrowsIffBig`, `Json.ObjectReplacerIsReplaceAll` and `Json.ObjectShowsMember` describe it |
| `Json.Stringify` | src/config.ts:108-110 | `JSON.stringify(v)`. No contract of its own; `Json.StringifyThrowsIffBig` and `Json.StringifyShowsMember` describe it |
| `Json.StringifyReplacingBigInts` | src/config.ts:108-110 | `JSON.stringify(v, replacer)` with the replacer of lines 108-110. No contract of its own; `Json.StringifyReplacingBigIntsNeverThrows` describes it |
| `Json.SerializeNumber` | src/config.ts:108-110 | an integral Number is written as its decimal digits |
| `Json.ObjectShowsMember` | src/config.ts:108-110 | a serialised object lists `"key":value` for each member whose value is not `undefined` |
| `Json.ArrayThrowsIffBig` | src/config.ts:108-110 | serialising array elements from position k throws exactly when one of them holds a BigInt |
| `Json.ObjectThrowsIffBig` | src/config.ts:108-110 | serialising object members from position k throws exactly when one of their values holds a BigInt |
| `Json.ArrayReplacerIsReplaceAll` | src/config.ts:108-110 | on array elements, serialising with the replacer equals serialising the replaced array |
| `Json.ObjectReplacerIsReplaceAll` | src/config.ts:108-110 | on object members, serialising with the replacer equals serialising the replaced object |
| `Config.GetRpcUrl` | src/config.ts:24-26 | yields a URL exactly when the chain's default HTTP list is non-empty; the URL is a member of that list, namely its first entry |
| `Config.DeriveOperators` | src/config.ts:70-78 | succeeds exactly when all three keys derive. The deployer, staker and batch poster are the accounts of the deployer, validator and batch-poster keys |
| `Config.BuildL3Config` | src/config.ts:80-105 | states the record field by field: the deployer in the two fee roles and in `chainOwner`; the staker and batch poster from their own keys; chainId, chainName and parentChainId; `minL2BaseFee` 100000000; the literal node URL; `utils` equal to `validatorUtils`, both the core `validatorUtils`; every core contract copied; the block number |
| `Config.NoAddressSynthesised` | src/config.ts:80-103 | every address in the record is one of the three operator addresses or a core contract |
| `Config.EveryCoreContractEmitted` | src/config.ts:91-103 | every core contract address appears in the record |
| `Config.NodeUrlIgnoresParentRpcUrls` | src/config.ts:89-90 | the record reads the parent chain only through its id. Two parent chains with the same id and different RPC URLs give the same record |
| `Config.NodeUrlAgreesForArbitrumSepolia` | src/config.ts:24-29 | for the parent chain fixed at line 29, `getRpcUrl` yields exactly the URL that line 90 writes as a literal |
| `Config.L3Value` | src/config.ts:81-104 | the value the literal gives the key at each position: addresses and the chain name as strings (an unset name is `undefined`), the ids and the fee as Numbers, the block number as a BigInt. No contract of its own; `Config.L3ObjectHoldsLiteral` and the `Config.L3Object…` lemmas describe it |
| `Config.L3ToJson` | src/config.ts:80-105 | the object literal as the serialiser sees it: 24 members in source order. `Config.L3ObjectKeys` and `Config.L3ObjectHoldsLiteral` state its keys and values |
| `Config.L3ObjectKeys` | src/config.ts:80-105 | the object has the literal's 24 keys in source order, pairwise distinct |
| `Config.L3ObjectHoldsLiteral` | src/config.ts:80-105 | every key of the object finds exactly the value the literal assigns it |
| `Config.L3ObjectRoles` | src/config.ts:81-85 | the five role keys find the record's role addresses |
| `Config.L3ObjectValidatorContracts` | src/config.ts:91-103 | `utils`, `validatorUtils` and `validatorWalletCreator` find the record's fields of those names |
| `Config.L3ObjectRollupContracts` | src/config.ts:92-96 | `rollup`, `inbox`, `nativeToken`, `outbox` and `rollupEventInbox` find the record's fields |
| `Config.L3ObjectAdminContracts` | src/config.ts:97-101 | `challengeManager`, `adminProxy`, `sequencerInbox`, `bridge` and `upgradeExecutor` find the record's fields |
| `Config.L3ObjectScalars` | src/config.ts:86-104 | the ids and the fee are Numbers, and the node URL is a string. The block number is a BigInt. `chainName` is a string when set and `undefined` otherwise |
| `Config.EmittedRoles` | src/config.ts:70-85 | in the built object, the deployer's address sits under three keys; the staker and the batch poster sit under their own |
| `Config.EmittedCoreContracts` | src/config.ts:91-103 | the built object carries each core contract under its key, with the core `validatorUtils` under both `utils` and `validatorUtils` |
| `Config.EmittedScalars` | src/config.ts:86-104 | the built object holds the decoded chainId, the parent chain id, `minL2BaseFee` 100000000, the literal node URL and the receipt's block number. The chain name appears only when set |
| `Config.PlainStringifyOfL3Throws` | src/config.ts:104-110 | serialising the object without the replacer throws a TypeError, whatever the record holds |
| `Config.SerializeL3` | src/config.ts:107-110 | the text written is what `JSON.stringify` with the replacer returns for the object. That call succeeds and equals plain `JSON.stringify` of the replaced object |
| `Config.SerialisedHasNoBigInt` | src/config.ts:107-110 | after the replacer the object holds no BigInt |
| `Config.SerialisedNumbers` | src/config.ts:107-110 | `chainId` and `minL2BaseFee` remain Numbers through the replacer |
| `Config.SerialisedBlockNumber` | src/config.ts:104-110 | the block number becomes a canonical decimal string that parses back to the block number |
| `Config.ReplacerTouchesOnlyBlockNumber` | src/config.ts:107-110 | the replacer changes no member of the object except `deployedAtBlockNumber` |
| `Config.L3TextShowsMember` | src/config.ts:107-110 | the written text contains `"key":value` for each key whose replaced value serialises to text |
| `Config.L3TextShowsString` | src/config.ts:107-110 | each string-valued member shows in the text as its quoted key and its quoted value |
| `Config.L3TextShowsFee` | src/config.ts:88 | the fee shows in the text as the bare decimal digits of a Number |
| `Config.FeeDigits` | src/config.ts:88 | the fee's digits are `100000000` |
| `Config.L3TextShowsBlockNumber` | src/config.ts:104 | the block number shows in the text as a quoted decimal string |
| `Config.L3TextShowsChainName` | src/config.ts:87 | a chain name that is set shows in the text as a quoted string under `chainName` |
| `Config.L3TextShowsRollupAndInbox` | src/config.ts:92-93 | the rollup and inbox addresses show in the text as quoted strings under their keys |
| `Config.L3TextScenario` | src/config.ts:80-110 | the written text contains, as literal text, `"minL2BaseFee":100000000`, `"rollup":` and `"inbox":` followed by the quoted addresses, `"chainName":` followed by the quoted name when it is set, and `"deployedAtBlockNumber":` followed by the quoted decimal block number |
| `Config.BuildNodeConfigParams` | src/config.ts:55-63 | the node-config arguments pass the chain name, chain config and core contracts through. They also carry the raw batch-poster and validator keys, the parent chain's id, and exactly what `getRpcUrl` yields for the parent chain: its first default HTTP URL, or `undefined` when there is none |
| `Config.GenerateL3Text` | src/config.ts:70-110 | text is produced exactly when all three derivations succeed; it is the replacer serialisation of the record built from the derived operators |
| `Config.L3TextDependsOnlyOnAccounts` | src/config.ts:70-110 | the raw keys reach the L3 text only through their derived addresses |
| `Config.ArtifactsAgree` | src/config.ts:55-105 | the L3 record and the node-config arguments agree on chainId, parentChainId, chain name and core contracts. The L3 staker and batch poster are the accounts of the keys the node-config builder receives. Their node URLs agree exactly when `getRpcUrl` yields the literal |

## Left out

- Network I/O is not modelled: the public client (lines 30-33), `getTransaction` and `getTransactionReceipt` (38-45). The decoded transaction and receipt are parameters.
- The orbit-sdk decoders `createRollupPrepareTransaction` and `createRollupPrepareTransactionReceipt` and their accessors are not modelled: they are external libraries. The chain config, core contracts and block number are parameters.
- `JSON.parse` of the chain config (48-50) is not modelled. Only `chainId` is read; the rest of the decoded config is carried unseen.
- `prepareNodeConfig` (orbit-sdk) is not part of this model. Only the argument object it receives is modelled, by `Config.BuildNodeConfigParams`.
- `JSON.stringify(nodeConfig, null, 2)` and `node-config.json` (65) are not modelled: the content comes from `prepareNodeConfig`, and indentation is not modelled.
- Key derivation is the parameter `accountOf`: secp256k1, Keccak-256 and checksumming are not modelled. `sanitizePrivateKey` lives in `src/rollup.ts`, which is not part of this model.
- `generatePublicAddress` (16-22) is not called by `generateConfig` and is not modelled.
- `writeFile`, `console.log` and the catch-all at 114-116 are not modelled. A throw is `None`/`Err`, and the log text is not modelled.
- The order of the two writes is not modelled. `node-config.json` is written before the keys are derived, so a key that fails to derive still leaves that file behind.
- The arbitrumSepolia chain descriptor (id 421614 and its default RPC URL) comes from viem's chain table, which is not part of this model. It is written in as the constant `Config.ArbitrumSepolia`.
- Json.SerializeProperty: JavaScript Numbers are modelled as integers written in decimal. Fractions, exponent notation at 1e21 and above, NaN and Infinity (written as `null`), and the 2^53 precision limit are not modelled; every Number in the record is an integer id or constant.
- Json.SerializeProperty: `toJSON` methods, symbol and function values, cycles, and the ordering of integer-like keys are not modelled; the record has none of them.
- Json.EscapeChar: Dafny characters are Unicode scalar values, so escaping lone UTF-16 surrogates as `\uXXXX` is not modelled.
