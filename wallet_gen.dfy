/**
 * wallet-gen.js: reads a wallet count and a selection of codes 0..7, stops
 * at once if the selection holds a 0, and otherwise appends, for each wallet
 * and for each entry of the raw selection list that `optionsMap` names, one
 * line to that kind's file. Files are never emptied first, repeated codes
 * write repeated lines, and `createdFiles` collects the files with at least
 * one successful append.
 *
 * As in the other script, the prompts are their accepted answers, `gen`
 * supplies the key pair of each `createRandom` call, and `ok(i, j)` says
 * whether the append for wallet i and selection entry j succeeds.
 */
module WalletGen {
  import opened Wrappers
  import opened Numbers
  import opened Strings
  import opened Prompts
  import opened Outputs
  import opened Disk

  /** The selection prompt's validator, `/^([0-7],?)+$/`. */
  predicate ValidSelection(answer: string)
  {
    SelectionPattern(answer, '0')
  }

  /** What `getOutputPreferences` yields: the process exits, or the list of selection values. */
  datatype Preferences = Exit | Options(values: seq<JsNumber>)

  /**
   * `getOutputPreferences` after its prompt: any '0' character in the answer
   * (also inside a token such as "10") exits; otherwise the answer is split
   * on commas and every token goes through `Number`, nothing dropped.
   */
  function GetOutputPreferences(answer: string): (p: Preferences)
    ensures p.Exit? <==> '0' in answer
    ensures p.Options? ==>
      && |p.values| == |Split(answer, ',')|
      && forall j :: 0 <= j < |p.values| ==> p.values[j] == ToNumber(Split(answer, ',')[j])
  {
    if '0' in answer then Exit
    else
      var tokens := Split(answer, ',');
      Options(seq(|tokens|, j requires 0 <= j < |tokens| => ToNumber(tokens[j])))
  }

  /** The record's own properties, in the order `createNewWallet` lists them. */
  function Properties(w: WalletRecord): seq<(string, string)>
  {
    [("index", NatToString(w.index)), ("address", w.address), ("mnemonic", w.mnemonic), ("privateKey", w.privateKey)]
  }

  /**
   * `${object[name]}`: the value of the first property with that name, or the
   * text `undefined` when the object has none.
   */
  function Lookup(props: seq<(string, string)>, name: string): string
  {
    if props == [] then "undefined"
    else if props[0].0 == name then props[0].1
    else Lookup(props[1..], name)
  }

  /** The text `saveToFile` is given: `${wallet.index}. ${wallet[fileKey.toLowerCase()]}`. */
  function Entry(k: Kind, w: WalletRecord): string
  {
    Concat([NatToString(w.index), ". ", Lookup(Properties(w), ToLower(Key(k)))])
  }

  /** The call selection entry `s` makes for one wallet: one when the entry names a kind, none otherwise. */
  function EntryCall(opts: seq<JsNumber>, s: nat, w: WalletRecord, i: nat): seq<Append>
    requires s < |opts|
  {
    match OptionsMap(opts[s])
    case Some(k) => [Append(i, s, FilePath(k), Entry(k, w))]
    case None => []
  }

  /** The calls for one wallet made by the first `j` entries of the selection list. */
  function OptionAppends(opts: seq<JsNumber>, j: nat, w: WalletRecord, i: nat): seq<Append>
    requires j <= |opts|
  {
    if j == 0 then [] else OptionAppends(opts, j - 1, w, i) + EntryCall(opts, j - 1, w, i)
  }

  /** The calls made for one wallet: one per entry of the list that names a kind, in list order. */
  function WalletAppends(opts: seq<JsNumber>, w: WalletRecord, i: nat): seq<Append>
  {
    OptionAppends(opts, |opts|, w, i)
  }

  /** The calls made for wallets 0..n-1, in generation order. */
  function Plan(n: nat, opts: seq<JsNumber>, gen: nat -> KeyPair): seq<Append>
  {
    if n == 0 then []
    else Plan(n - 1, opts, gen) + WalletAppends(opts, CreateNewWallet(n - 1, gen(n - 1)), n - 1)
  }

  /**
   * `saveToFile(path, data, createdFiles)`: the append, and on success the
   * path added to `createdFiles`.
   */
  method SaveToFile(fs: Files, trace: seq<Append>, createdFiles: set<string>, a: Append,
                    ok: (nat, nat) -> bool, ghost start: Files)
    returns (fs': Files, trace': seq<Append>, createdFiles': set<string>)
    requires fs == Replay(start, trace, ok)
    requires createdFiles == Succeeded(trace, ok)
    ensures trace' == trace + [a]
    ensures fs' == Replay(start, trace', ok)
    ensures createdFiles' == Succeeded(trace', ok)
  {
    fs', trace' := Save(fs, trace, a, ok, start);
    SucceededSnoc(trace, a, ok);
    if ok(a.wallet, a.slot) {
      createdFiles' := createdFiles + {a.path};
    } else {
      createdFiles' := createdFiles;
    }
  }

  /**
   * One pass of the inner loop's body: look selection entry `j` up in
   * `optionsMap` and, when it names a kind, save that kind's line.
   */
  method SaveEntry(fs: Files, trace: seq<Append>, createdFiles: set<string>, opts: seq<JsNumber>, j: nat,
                   w: WalletRecord, i: nat, ok: (nat, nat) -> bool, ghost start: Files, ghost before: seq<Append>)
    returns (fs': Files, trace': seq<Append>, createdFiles': set<string>)
    requires j < |opts|
    requires trace == before + OptionAppends(opts, j, w, i)
    requires fs == Replay(start, trace, ok)
    requires createdFiles == Succeeded(trace, ok)
    ensures trace' == before + OptionAppends(opts, j + 1, w, i)
    ensures fs' == Replay(start, trace', ok)
    ensures createdFiles' == Succeeded(trace', ok)
  {
    hide Entry;
    var fileKey := OptionsMap(opts[j]);
    if fileKey.Some? {
      var call := Append(i, j, FilePath(fileKey.value), Entry(fileKey.value, w));
      assert EntryCall(opts, j, w, i) == [call];
      fs', trace', createdFiles' := SaveToFile(fs, trace, createdFiles, call, ok, start);
    } else {
      fs', trace', createdFiles' := fs, trace, createdFiles;
    }
    assert (before + OptionAppends(opts, j, w, i)) + EntryCall(opts, j, w, i)
        == before + (OptionAppends(opts, j, w, i) + EntryCall(opts, j, w, i));
  }

  /** The inner loop of `main` for one wallet: every entry of the selection list, in list order. */
  method SaveWallet(fs: Files, trace: seq<Append>, createdFiles: set<string>, opts: seq<JsNumber>,
                    w: WalletRecord, i: nat, ok: (nat, nat) -> bool, ghost start: Files)
    returns (fs': Files, trace': seq<Append>, createdFiles': set<string>)
    requires fs == Replay(start, trace, ok)
    requires createdFiles == Succeeded(trace, ok)
    ensures trace' == trace + WalletAppends(opts, w, i)
    ensures fs' == Replay(start, trace', ok)
    ensures createdFiles' == Succeeded(trace', ok)
  {
    hide Entry;
    fs', trace', createdFiles' := fs, trace, createdFiles;
    assert trace' == trace + OptionAppends(opts, 0, w, i);
    var j := 0;
    while j < |opts|
      invariant j <= |opts|
      invariant trace' == trace + OptionAppends(opts, j, w, i)
      invariant fs' == Replay(start, trace', ok)
      invariant createdFiles' == Succeeded(trace', ok)
    {
      fs', trace', createdFiles' := SaveEntry(fs', trace', createdFiles', opts, j, w, i, ok, start, trace);
      j := j + 1;
    }
  }

  /** The outer loop of `main`: one record per wallet, numbered from 1, and its writes. */
  method GenerateWallets(fs: Files, count: nat, opts: seq<JsNumber>, gen: nat -> KeyPair, ok: (nat, nat) -> bool)
    returns (fs': Files, trace: seq<Append>, createdFiles: set<string>)
    ensures trace == Plan(count, opts, gen)
    ensures fs' == Replay(fs, trace, ok)
    ensures createdFiles == Succeeded(trace, ok)
  {
    hide Entry;
    fs', trace, createdFiles := fs, [], {};
    var i := 0;
    while i < count
      invariant i <= count
      invariant trace == Plan(i, opts, gen)
      invariant fs' == Replay(fs, trace, ok)
      invariant createdFiles == Succeeded(trace, ok)
    {
      var wallet := CreateNewWallet(i, gen(i));
      fs', trace, createdFiles := SaveWallet(fs', trace, createdFiles, opts, wallet, i, ok, fs);
      i := i + 1;
    }
  }

  /**
   * `main`: take the two answers; exit on the abort code; otherwise, for
   * each wallet and each entry of the selection list that names a kind,
   * save that entry, tracking the files written.
   */
  method Run(fs: Files, countAnswer: string, selectionAnswer: string, gen: nat -> KeyPair, ok: (nat, nat) -> bool)
    returns (outcome: Outcome, fs': Files, trace: seq<Append>, createdFiles: set<string>)
    requires CountPattern(countAnswer) && ValidSelection(selectionAnswer)
    ensures outcome.Exited? <==> '0' in selectionAnswer
    ensures outcome.Exited? ==> fs' == fs && trace == [] && createdFiles == {}
    ensures !outcome.Exited? ==>
      && outcome == Completed(DecimalValue(countAnswer))
      && trace == Plan(outcome.walletCount, GetOutputPreferences(selectionAnswer).values, gen)
      && fs' == Replay(fs, trace, ok)
      && createdFiles == Succeeded(trace, ok)
  {
    var walletCount := GetUserInput(countAnswer).value;
    var preferences := GetOutputPreferences(selectionAnswer);
    if preferences.Exit? {
      return Exited, fs, [], {};
    }
    fs', trace, createdFiles := GenerateWallets(fs, walletCount, preferences.values, gen, ok);
    outcome := Completed(walletCount);
  }
}
