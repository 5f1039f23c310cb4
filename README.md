# EVM wallet generator, modelled in Dafny

Two of the repository's command-line scripts are modelled here. Both generate
EVM key pairs and write chosen views of them to seven plain-text files. Each script takes a
wallet count and a comma-separated selection of codes from a prompt. It then
builds a record for each wallet, numbered from 1, and appends one entry per
selected kind to that kind's file. This project models the parts of both
scripts that decide what gets written, and proves what ends up in each file.

- `ETH-Wallet-Generator.js` (module `EthWalletGenerator`) empties all seven
  files first and accepts codes 1-7. It maps the selection through
  `optionsMap` and drops what is undefined. Then, for each wallet, it runs
  seven `includes` tests in the fixed order of `FILES`. So every selected
  kind gets exactly one append per wallet, however the codes were typed.
- `wallet-gen.js` (module `WalletGen`, properties in `WalletGenProperties`)
  never empties a file and accepts codes 0-7. Any `0` in the answer exits.
  Otherwise it walks the raw selection list once per wallet, so a repeated
  code writes a repeated line. Every line is `<index>. ${wallet[key]}`,
  where `key` is the kind's `FILES` key in lower case. The record has a
  field with such a name only for MNEMONIC, so every other kind writes
  `<index>. undefined`. The model reproduces this (`LookupField`,
  `EntryFormat`). `createdFiles` gathers the paths of successful appends.

Shared pieces live in their own modules:
- `Outputs`: the kinds, `FILES`, `optionsMap` and `createNewWallet`.
- `Prompts`: the two prompt validators.
- `Numbers`: `parseInt`, `Number` and `${n}` on digit strings.
- `Strings`: `split`, `join` and `toLowerCase`.
- `Disk`: the files.

The runs are methods with loops, like the scripts' `main`.
- Each file is a sequence of appended chunks, held in a `map` from path to
  chunks.
- Each run also returns its trace: the `saveToFile` calls it made, in order.
- The files afterwards are the trace replayed on the files before the run
  (`Disk.Replay`). The lemmas then say what each file holds.

The model follows the code where the menu promises otherwise. `wallet-gen.js`
offers "1. Wallet Addresses Only" (wallet-gen.js:48), but every kind except
MNEMONIC writes `<index>. undefined`. That includes ADDRESSES, PRIVATE_KEYS,
DETAILS and the three serialized kinds.

Other behaviours of the code that the model keeps as they are:
- In `wallet-gen.js`, a repeated code writes a repeated line.
- A token such as `12`, or the empty token after a trailing comma, names no
  kind and is dropped.
- In `wallet-gen.js`, a `0` inside any token, such as `10`, exits.

Inputs that the scripts read from outside become parameters:
- The prompt answers are `countAnswer` and `selectionAnswer`.
- The key pair of the i-th `createRandom` call is `gen(i)`.
- Whether the append of wallet `i` in slot `s` succeeds is `ok(i, s)`. The
  slot is the kind's position in `FILES` in `ETH-Wallet-Generator.js` and
  the position in the selection list in `wallet-gen.js`.
- Whether the j-th truncation succeeds is `truncateOk(j)`.

## Model

| member | source | states |
|---|---|---|
| Numbers.NatToString | ETH-Wallet-Generator.js:131-133 | `${wallet.index}` renders a non-empty digit string with no leading zero whose decimal value is the index |
| Numbers.ToNumber | ETH-Wallet-Generator.js:67 | on digit strings, the only tokens an accepted answer holds, `Number` gives the decimal value, and `""` gives 0; other tokens are modelled as NaN |
| Numbers.ToNumberRoundTrip | wallet-gen.js:71 | `Number` reads every number's decimal rendering back as that number |
| Numbers.ParseIndexedRoundTrip | ETH-Wallet-Generator.js:131-133 | a `<index>. <rest>` entry reads back as that index and that rest |
| Strings.JoinSplit | ETH-Wallet-Generator.js:67 | `split(",")` loses nothing: joining the pieces with commas gives the answer back |
| Strings.SplitJoin | ETH-Wallet-Generator.js:129 | splitting newline-joined lines that hold no newline gives the lines back |
| Strings.ToLower | wallet-gen.js:121 | `toLowerCase` keeps the length and lowers each character on its own |
| Prompts.GetUserInput | ETH-Wallet-Generator.js:41-44 | the count is accepted exactly when it is one or more decimal digits, and then reads as its decimal value |
| Prompts.CountRoundTrip | wallet-gen.js:38-41 | every count's decimal rendering is accepted and reads back as that count |
| Prompts.SelectionPatternCharacterized | ETH-Wallet-Generator.js:63 | the selection regex accepts exactly the non-empty strings of code digits and commas that start with a digit and never hold two commas in a row (also for wallet-gen.js:61, where codes start at 0) |
| Outputs.AllKindsInOrder | ETH-Wallet-Generator.js:17-25 | the seven `FILES` keys are listed once each, and each kind's position indexes back to that kind |
| Outputs.FilePathInjective | ETH-Wallet-Generator.js:17-25 | two kinds share a file exactly when they are the same kind |
| Outputs.OptionsMap | ETH-Wallet-Generator.js:70-78 | a selection value names a kind exactly when it is 1..7, and then a kind whose menu code is that value |
| Outputs.OptionsMapCode | wallet-gen.js:99-107 | a value names kind k exactly when it equals k's code |
| Outputs.CreateNewWalletNumbering | ETH-Wallet-Generator.js:93-101 | `createNewWallet` (CreateNewWallet) numbers records from 1; two records share a number exactly when they come from the same loop counter; the key pair reads back from the record unchanged |
| Disk.TruncateEffect | ETH-Wallet-Generator.js:110 | `fs.writeFile(path, "")` (Truncate) empties that file and leaves every other file as it was |
| Disk.SaveToFileEffect | ETH-Wallet-Generator.js:84-90 | `saveToFile` (SaveToFile): a successful append adds `data + "\n"` at the end of its own file, a caught failure changes nothing, and no other file changes |
| Disk.ReplayContent | ETH-Wallet-Generator.js:84-90 | after any sequence of appends, each file is its old content followed by the chunks of the successful appends to it, in call order |
| Disk.Save | ETH-Wallet-Generator.js:86 | one more append: the trace grows by that call, the files remain the trace replayed, and the target file gains the chunk exactly when the append succeeds |
| Disk.SucceededSnoc | wallet-gen.js:74-81 | one more call adds its path to the succeeded set exactly when the append succeeds |
| EthWalletGenerator.KindsOfDigitTokens | ETH-Wallet-Generator.js:67-80 | on tokens of code digits, mapping through `Number` and `optionsMap` and then filtering keeps exactly the one-digit tokens, as the kind at that menu position, in order |
| EthWalletGenerator.KindsOfMembers | ETH-Wallet-Generator.js:80 | after mapping and filtering, a kind is kept exactly when some token names it |
| EthWalletGenerator.GetOutputPreferences | ETH-Wallet-Generator.js:67-80 | the kinds selected are exactly those some comma-separated token names through `Number` (as modelled here) and `optionsMap` |
| EthWalletGenerator.PreferencesAreSingleDigitTokens | ETH-Wallet-Generator.js:63-80 | for an accepted answer, the selected kinds are the one-digit tokens' kinds in input order; multi-digit and empty tokens are dropped |
| EthWalletGenerator.EntryFormats | ETH-Wallet-Generator.js:123-133 | the text each kind writes (Entry): plain kinds write the bare field; serialized kinds write exactly `${wallet.index}. ` followed by the field, which parses back to the wallet's index and field |
| EthWalletGenerator.NumberedEntryIndex | ETH-Wallet-Generator.js:126-133 | every numbered entry is exactly `${wallet.index}. ` followed by the field or the DETAILS block, and, with or without its newline, parses back to the wallet's index and that rest |
| EthWalletGenerator.DetailsFormat | ETH-Wallet-Generator.js:126-130 | a DETAILS entry's lines are `<i>. Wallet <i>`, the address line, the mnemonic line, the private key line and a final empty line |
| EthWalletGenerator.PickShape | ETH-Wallet-Generator.js:123 | an `includes` test makes one call when its kind is selected, none otherwise, for that wallet, in that kind's slot, to that kind's file |
| EthWalletGenerator.PickUpToElements | ETH-Wallet-Generator.js:123-133 | each call of the first j tests is for this wallet, in a slot below j, to the file of a selected kind |
| EthWalletGenerator.PickUpToIncreasing | ETH-Wallet-Generator.js:123-133 | the slots of the calls of the first j tests strictly increase |
| EthWalletGenerator.PickUpToCovers | ETH-Wallet-Generator.js:123-133 | every selected kind among the first j of `FILES` gets a call in its slot |
| EthWalletGenerator.WalletAppendsOrdered | ETH-Wallet-Generator.js:123-133 | one wallet writes each selected kind exactly once, to that kind's file, in `FILES` order, and writes nothing for unselected kinds |
| EthWalletGenerator.PickUpToSameSelection | ETH-Wallet-Generator.js:123-133 | the first j tests make the same calls for two selections that hold the same kinds |
| EthWalletGenerator.SelectionOrderIrrelevant | ETH-Wallet-Generator.js:120-133 | two selections naming the same kinds, in any order and with any repeats, make the same calls |
| EthWalletGenerator.SaveIfSelected | ETH-Wallet-Generator.js:123-133 | one `includes` test and its `saveToFile` extend the trace by that test's call, and the files remain the trace replayed |
| EthWalletGenerator.SaveWallet | ETH-Wallet-Generator.js:121-133 | the seven tests for one wallet extend the trace by that wallet's calls, and the files remain the trace replayed |
| EthWalletGenerator.GenerateWallets | ETH-Wallet-Generator.js:120-140 | the generation loop makes exactly the calls of wallets 0..n-1 in order, and the files are those calls replayed |
| EthWalletGenerator.ClearFiles | ETH-Wallet-Generator.js:109-111 | every file is truncated, in `FILES` order, or the loop stops at the first failed truncation with the earlier ones done |
| EthWalletGenerator.Run | ETH-Wallet-Generator.js:104-140 | a run completes exactly when every truncation succeeds. A crash names the file that failed, with the earlier files truncated and nothing appended. A completed run generates the parsed count of wallets, and its files are the cleared files plus the replayed calls |
| EthWalletGenerator.TruncatedFirstContent | ETH-Wallet-Generator.js:109-111 | after the first j truncations those j files are empty and every other file is unchanged |
| EthWalletGenerator.ClearedFiles | ETH-Wallet-Generator.js:108-111 | before any prompt all seven files are empty, and any other file is unchanged |
| EthWalletGenerator.CrashedBeforeGenerating | ETH-Wallet-Generator.js:109-111 | a failed truncation leaves every file not yet reached with its old content |
| EthWalletGenerator.WrittenPickUpTo | ETH-Wallet-Generator.js:123-133 | the first j tests add to kind k's file its entry when k is among the first j, selected and its append succeeds, and nothing otherwise |
| EthWalletGenerator.WrittenByWallet | ETH-Wallet-Generator.js:123-133 | one wallet adds its entry to each selected kind's file when that append succeeds, and nothing to other files |
| EthWalletGenerator.WrittenByPlan | ETH-Wallet-Generator.js:120-140 | over a run, a selected kind's file gains the entries of the wallets whose append succeeded, in wallet order, and an unselected kind's file gains nothing |
| EthWalletGenerator.FilesAfterRun | ETH-Wallet-Generator.js:108-140 | after a completed run, each selected kind's file holds exactly those entries, and each unselected kind's file is empty |
| EthWalletGenerator.OneEntryPerWallet | ETH-Wallet-Generator.js:120-133 | with every append succeeding, a selected kind's file holds n entries, the j-th for wallet j + 1 |
| EthWalletGenerator.IndicesAscending | ETH-Wallet-Generator.js:126-133 | with every append succeeding, a numbered kind's file carries the indices 1..n in ascending order, one per entry |
| WalletGen.GetOutputPreferences | wallet-gen.js:66-71 | any `0` in the answer exits; otherwise there is one `Number` value per comma-separated token, in order |
| WalletGen.SaveToFile | wallet-gen.js:74-81 | one append extends the trace, the files remain the trace replayed, and `createdFiles` remains the paths of the successful appends |
| WalletGen.SaveEntry | wallet-gen.js:119-122 | one pass of the inner loop extends the trace by that entry's call, if it names a kind, and keeps the files and `createdFiles` in step |
| WalletGen.SaveWallet | wallet-gen.js:118-123 | the inner loop extends the trace by the wallet's calls, one per entry that names a kind, in list order |
| WalletGen.GenerateWallets | wallet-gen.js:115-130 | the outer loop makes exactly the calls of wallets 0..n-1 in order; the files are those calls replayed and `createdFiles` is their successful paths |
| WalletGen.Run | wallet-gen.js:93-130 | a run exits, with nothing written, exactly when the answer holds a `0`. Otherwise it generates the parsed count of wallets, its files are the old files plus the replayed calls, and `createdFiles` holds their successful paths |
| WalletGenProperties.SelectionValues | wallet-gen.js:61-71 | after an accepted answer without `0`, a value names a kind exactly when its token is one digit, and then the kind at that menu position |
| WalletGenProperties.LookupFirst | wallet-gen.js:121 | `wallet[name]` (Lookup): a property lookup reads the first property with that name, or `undefined` when none has it |
| WalletGenProperties.LookupField | wallet-gen.js:121 | the lowercased key is a field of the record only for MNEMONIC; every other kind reads `undefined` |
| WalletGenProperties.EntryFormat | wallet-gen.js:121 | the text `saveToFile` is given (Entry): every line is `<index>. <value>`, with the mnemonic for MNEMONIC and `undefined` for every other kind, and it parses back to the index and value |
| WalletGenProperties.WrittenByEntry | wallet-gen.js:119-122 | a list entry adds its kind's line to that kind's file when the append succeeds, and nothing to other files |
| WalletGenProperties.WrittenPerWallet | wallet-gen.js:118-123 | with every append succeeding, one wallet adds to a kind's file one identical line per occurrence of that kind in the list |
| WalletGenProperties.BlockIndices | wallet-gen.js:121 | with every append succeeding, every line wallet i adds carries the index i + 1 |
| WalletGenProperties.WrittenByWallet | wallet-gen.js:118-123 | with every append succeeding, wallet i adds its block of lines to each kind's file |
| WalletGenProperties.WrittenByPlan | wallet-gen.js:115-130 | with every append succeeding, a run adds to each kind's file the blocks of wallets 0..n-1, in order |
| WalletGenProperties.KindFileLength | wallet-gen.js:115-123 | with every append succeeding, a kind's file gains n times as many lines as the kind occurs in the list |
| WalletGenProperties.LinesInWalletOrder | wallet-gen.js:115-123 | with every append succeeding, the lines a kind's file gains carry indices in 1..n that never decrease |
| WalletGenProperties.EntryCallShape | wallet-gen.js:119-122 | a list entry makes one call, for this wallet, in its own slot, to its kind's file, when it names a kind; otherwise none |
| WalletGenProperties.WalletMembers | wallet-gen.js:118-123 | each call of one wallet is for that wallet and for a list entry that names the kind of the file |
| WalletGenProperties.WalletContains | wallet-gen.js:118-123 | every list entry that names a kind makes its call for the wallet |
| WalletGenProperties.WalletSlotsIncreasing | wallet-gen.js:118-123 | one wallet's calls follow the selection list, their slots strictly increasing, so each entry that names a kind gets exactly one call, in list order |
| WalletGenProperties.PlanMembers | wallet-gen.js:115-123 | every call of a run is for a generated wallet and for a list entry that names the kind of the file |
| WalletGenProperties.PlanContains | wallet-gen.js:115-123 | every generated wallet makes a call for every list entry that names a kind |
| WalletGenProperties.CreatedFilesExact | wallet-gen.js:74-81 | `createdFiles` holds exactly the files of listed kinds with at least one successful append, and is empty when no wallet is made |
| WalletGenProperties.NeverTruncates | wallet-gen.js:93-130 | files are never emptied: a file's old content is a prefix of its new content, and the file gains only the run's successful lines |
| WalletGenProperties.FileAfterRun | wallet-gen.js:115-130 | with every append succeeding, a kind's file ends as its old content followed by n blocks, one per wallet in order |

## Left out

- Key generation (`ethers.Wallet.createRandom`) is not modelled. The key pair of each call is the parameter `gen`, so whether keys are random or distinct is not modelled.
- The prompt library's re-asking: `Run` requires answers that pass the validators, because the prompt asks again until they do. `GetUserInput` models a rejected count as `None`.
- Console output is left out: the banner, the menu, the log lines, the spinner, the summary table of `walletData` and the final list of `createdFiles`. None of it changes a file.
- Numbers.ToNumber: `Number` is exact only on digit strings. Every other token is NaN in the model, though JavaScript reads some as numbers (`" 1"` as 1, `"1.5"` as 1.5, `"0x1F"` as 31). No answer the selection prompt accepts holds such a token.
- `parseInt` and `Number` are modelled only on digit strings. Such strings are all that the validators let through. Whitespace, signs, hexadecimal, exponents and float precision for very large counts are not modelled.
- `toLowerCase` is modelled for ASCII text only. The `FILES` keys it is applied to are ASCII.
- Property lookup searches the record's own four fields. Inherited prototype members are not modelled: no kind's lowercased key names one.
- `async`/`await` is not modelled: every call is awaited in turn, so the model runs the calls in order.
- The file system is a map from path to appended chunks. Success and failure of each operation come from the `ok` and `truncateOk` parameters. Error messages and partial writes are not modelled.
- `process.exit(0)` in `wallet-gen.js` is the `Exited` outcome, returned before anything is written.
- An unhandled rejection from `fs.writeFile` in `ETH-Wallet-Generator.js` is the `Crashed` outcome, which names the file. The exit code is not modelled.
- WalletGenProperties.WrittenPerWallet: stated only for runs where every append succeeds. With failures, NeverTruncates gives the file as its old content plus the successful lines.
- WalletGenProperties.WrittenByWallet: stated only for runs where every append succeeds, for the same reason.
- WalletGenProperties.WrittenByPlan: stated only for runs where every append succeeds. With failures, NeverTruncates and CreatedFilesExact still hold.
- WalletGenProperties.FileAfterRun: stated only for runs where every append succeeds. With failures, NeverTruncates states the file's content.
- EthWalletGenerator.OneEntryPerWallet: stated only for runs where every append succeeds. With failures, FilesAfterRun states the exact content of each file.
- EthWalletGenerator.IndicesAscending: stated only for runs where every append succeeds, for the same reason.
- WalletGenProperties.BlockIndices: stated only for the lines of a wallet whose appends all succeed. With failures, WrittenByEntry gives what each list entry adds.
- EthWalletGenerator.DetailsFormat: requires that the address, mnemonic and private key hold no newline. That is an assumption about the key generator. Hex addresses and keys, and space-separated mnemonics, meet it.
