/**
 * ETH-Wallet-Generator.js: empties the seven output files, reads a wallet
 * count and a selection of codes 1..7, then for each wallet appends one
 * entry to the file of each selected kind, in the fixed order of `FILES`.
 *
 * The prompts are their accepted answers, the key generator is `gen` (the
 * key pair of the i-th `createRandom` call), and the outcome of each file
 * operation comes from an oracle: `truncateOk(j)` for the j-th truncation,
 * `ok(i, s)` for the append of wallet i in slot s (the kind's position in
 * `FILES`).
 */
module EthWalletGenerator {
  import opened Wrappers
  import opened Numbers
  import opened Strings
  import opened Prompts
  import opened Outputs
  import opened Disk

  /** The selection prompt's validator, `/^([1-7],?)+$/`. */
  predicate ValidSelection(answer: string)
  {
    SelectionPattern(answer, '1')
  }

  /** `optionsMap[Number(token)]` for each token, in order, keeping only the defined ones. */
  function KindsOf(tokens: seq<string>): seq<Kind>
    decreases |tokens|
  {
    if tokens == [] then []
    else
      KindsOf(tokens[..|tokens| - 1])
        + match OptionsMap(ToNumber(tokens[|tokens| - 1]))
          case Some(k) => [k]
          case None => []
  }

  /** A kind survives the mapping and the filter exactly when some token names it. */
  lemma {:induction false} KindsOfMembers(tokens: seq<string>)
    ensures forall k :: k in KindsOf(tokens) <==> exists t :: t in tokens && OptionsMap(ToNumber(t)) == Some(k)
    decreases |tokens|
  {
    if tokens != [] {
      var init := tokens[..|tokens| - 1];
      var last := tokens[|tokens| - 1];
      KindsOfMembers(init);
      assert tokens == init + [last];
      forall k ensures k in KindsOf(tokens) <==> exists t :: t in tokens && OptionsMap(ToNumber(t)) == Some(k) {
        if exists t :: t in tokens && OptionsMap(ToNumber(t)) == Some(k) {
          var t :| t in tokens && OptionsMap(ToNumber(t)) == Some(k);
          if t != last {
            assert t in init;
          }
        }
      }
    }
  }

  /**
   * `getOutputPreferences` after its prompt: split on commas, map through
   * `optionsMap`, filter. The kinds it keeps are exactly those some token names.
   */
  function GetOutputPreferences(answer: string): (r: seq<Kind>)
    ensures forall k :: k in r <==> exists t :: t in Split(answer, ',') && OptionsMap(ToNumber(t)) == Some(k)
  {
    KindsOfMembers(Split(answer, ','));
    KindsOf(Split(answer, ','))
  }

  /**
   * Which tokens survive, described without `Number`: each token that is a
   * single code digit 1..7, in order, names the kind at that menu position.
   */
  function SingleDigitKinds(tokens: seq<string>): seq<Kind>
    decreases |tokens|
  {
    if tokens == [] then []
    else
      var t := tokens[|tokens| - 1];
      SingleDigitKinds(tokens[..|tokens| - 1])
        + if |t| == 1 && '1' <= t[0] <= '7' then [AllKinds[t[0] as int - '1' as int]] else []
  }

  lemma {:induction false} KindsOfDigitTokens(tokens: seq<string>)
    requires forall t, c :: t in tokens && c in t ==> '1' <= c <= '7'
    ensures KindsOf(tokens) == SingleDigitKinds(tokens)
    decreases |tokens|
  {
    if tokens != [] {
      var init := tokens[..|tokens| - 1];
      var t := tokens[|tokens| - 1];
      assert forall u :: u in init ==> u in tokens;
      KindsOfDigitTokens(init);
      assert t in tokens;
      assert AllDigits(t) by {
        forall i | 0 <= i < |t| ensures IsDigit(t[i]) { assert t[i] in t; }
      }
      if |t| == 0 {
        assert ToNumber(t) == Finite(0);
      } else {
        assert t[0] in t;
        OneDigitIffBelowTen(t);
        if |t| == 1 {
          var k := OptionsMap(ToNumber(t)).value;
          AllKindsInOrder();
          assert AllKinds[Ordinal(k)] == k;
        }
      }
    }
  }

  /**
   * The parsed selection of an accepted answer keeps, in input order, the
   * kinds of exactly those comma-separated tokens that are one digit; a
   * multi-digit token such as "12" and the empty token after a trailing
   * comma are dropped.
   */
  lemma PreferencesAreSingleDigitTokens(answer: string)
    requires ValidSelection(answer)
    ensures GetOutputPreferences(answer) == SingleDigitKinds(Split(answer, ','))
  {
    PatternIsWellFormed(answer, '1');
    SplitPieces(answer, ',');
    var tokens := Split(answer, ',');
    forall t, c | t in tokens && c in t ensures '1' <= c <= '7' {
      assert c in answer && c != ',';
    }
    KindsOfDigitTokens(tokens);
  }

  /** The text `saveToFile` is given for one kind of one wallet. */
  function Entry(k: Kind, w: WalletRecord): string
  {
    var n := NatToString(w.index);
    match k
    case Addresses => w.address
    case PrivateKeys => w.privateKey
    case Mnemonic => w.mnemonic
    case Details => Concat([n, ". ", DetailsRest(w)])
    case SerializedAddresses => Concat([n, ". ", w.address])
    case SerializedPrivateKeys => Concat([n, ". ", w.privateKey])
    case SerializedMnemonic => Concat([n, ". ", w.mnemonic])
  }

  /** The wallet field a kind other than DETAILS shows. */
  function Shown(k: Kind, w: WalletRecord): string
    requires k != Details
  {
    match k
    case Addresses => w.address
    case SerializedAddresses => w.address
    case PrivateKeys => w.privateKey
    case SerializedPrivateKeys => w.privateKey
    case Mnemonic => w.mnemonic
    case SerializedMnemonic => w.mnemonic
  }

  predicate Numbered(k: Kind)
  {
    k == Details || k == SerializedAddresses || k == SerializedPrivateKeys || k == SerializedMnemonic
  }

  /**
   * Entry formats: the three plain kinds write their field bare; the three
   * serialized kinds write `<index>. <field>`, from which index and field
   * read back.
   */
  lemma EntryFormats(k: Kind, w: WalletRecord)
    requires k != Details
    ensures !Numbered(k) ==> Entry(k, w) == Shown(k, w)
    ensures Numbered(k) ==> Entry(k, w) == NatToString(w.index) + ". " + Shown(k, w)
    ensures Numbered(k) ==> ParseIndexed(Entry(k, w)) == Some((w.index, Shown(k, w)))
  {
    ConcatThree(NatToString(w.index), ". ", Shown(k, w));
    ParseIndexedRoundTrip(w.index, Shown(k, w));
  }

  /**
   * The text of a DETAILS entry after its leading `<index>. `: the wallet's
   * title line and its three labelled fields, each line ending in a newline.
   */
  function DetailsRest(w: WalletRecord): string
  {
    Join(["Wallet " + NatToString(w.index), "Wallet Address: " + w.address, "Mnemonic Phrase: " + w.mnemonic,
          "Private Key: " + w.privateKey, ""], '\n')
  }

  /** Every numbered entry starts with `<index>. `, followed by the field (or the rest of the DETAILS block). */
  lemma NumberedEntryIndex(k: Kind, w: WalletRecord)
    requires Numbered(k)
    ensures Entry(k, w) == NatToString(w.index) + ". " + (if k == Details then DetailsRest(w) else Shown(k, w))
    ensures ParseIndexed(Entry(k, w)) == Some((w.index, if k == Details then DetailsRest(w) else Shown(k, w)))
    ensures ParseIndexed(Entry(k, w) + "\n") == Some((w.index, (if k == Details then DetailsRest(w) else Shown(k, w)) + "\n"))
  {
    var n := NatToString(w.index);
    var rest := if k == Details then DetailsRest(w) else Shown(k, w);
    ConcatThree(n, ". ", rest);
    assert Entry(k, w) == n + ". " + rest;
    assert Entry(k, w) + "\n" == n + ". " + (rest + "\n");
    ParseIndexedRoundTrip(w.index, rest);
    ParseIndexedRoundTrip(w.index, rest + "\n");
  }

  /**
   * A DETAILS entry is the block `<i>. Wallet <i>`, `Wallet Address: ..`,
   * `Mnemonic Phrase: ..`, `Private Key: ..`, each line ending in a newline,
   * so its lines read back as those four and an empty one.
   */
  lemma DetailsFormat(w: WalletRecord)
    requires '\n' !in w.address && '\n' !in w.mnemonic && '\n' !in w.privateKey
    ensures
      var n := NatToString(w.index);
      Split(Entry(Details, w), '\n')
        == [n + ". " + "Wallet " + n, "Wallet Address: " + w.address, "Mnemonic Phrase: " + w.mnemonic,
            "Private Key: " + w.privateKey, ""]
  {
    var n := NatToString(w.index);
    var rest := ["Wallet " + n, "Wallet Address: " + w.address, "Mnemonic Phrase: " + w.mnemonic,
                 "Private Key: " + w.privateKey, ""];
    var lines := [n + ". " + rest[0]] + rest[1..];
    ConcatThree(n, ". ", DetailsRest(w));
    JoinPrefix(n + ". ", rest, '\n');
    assert Join(lines, '\n') == Entry(Details, w);
    assert '\n' !in n by {
      forall c | c in n ensures c != '\n' { var i :| 0 <= i < |n| && n[i] == c; assert IsDigit(n[i]); }
    }
    assert n + ". " + ("Wallet " + n) == n + ". " + "Wallet " + n;
    assert lines == [n + ". " + "Wallet " + n, "Wallet Address: " + w.address, "Mnemonic Phrase: " + w.mnemonic,
                     "Private Key: " + w.privateKey, ""];
    forall t | t in lines ensures '\n' !in t {
    }
    SplitJoin(lines, '\n');
  }

  /** The one `saveToFile` call for kind `k` of wallet `i`, when `k` is selected (`includes`). */
  function Pick(opts: seq<Kind>, k: Kind, w: WalletRecord, i: nat): seq<Append>
  {
    if k in opts then [Append(i, Ordinal(k), FilePath(k), Entry(k, w))] else []
  }

  /** The calls for the first `j` kinds of `FILES`, in that order. */
  function PickUpTo(j: nat, opts: seq<Kind>, w: WalletRecord, i: nat): seq<Append>
    requires j <= 7
  {
    if j == 0 then [] else PickUpTo(j - 1, opts, w, i) + Pick(opts, AllKinds[j - 1], w, i)
  }

  /** The calls made for one wallet: one per selected kind, in `FILES` order. */
  function WalletAppends(opts: seq<Kind>, w: WalletRecord, i: nat): seq<Append>
  {
    PickUpTo(7, opts, w, i)
  }

  /** The calls made for wallets 0..n-1, in generation order. */
  function Plan(n: nat, opts: seq<Kind>, gen: nat -> KeyPair): seq<Append>
  {
    if n == 0 then []
    else Plan(n - 1, opts, gen) + WalletAppends(opts, CreateNewWallet(n - 1, gen(n - 1)), n - 1)
  }

  /** The call `Pick` makes, if any: for the selected kind `k`, to its file, in its `FILES` slot. */
  lemma PickShape(opts: seq<Kind>, k: Kind, w: WalletRecord, i: nat)
    ensures |Pick(opts, k, w, i)| == if k in opts then 1 else 0
    ensures k in opts ==>
      var c := Pick(opts, k, w, i)[0];
      c.wallet == i && c.slot == Ordinal(k) && c.path == FilePath(k)
  {
    hide Entry;
  }

  /** Every call is for wallet `i`, in a slot below `j`, to the file of the selected kind of that slot. */
  predicate CallsOfWallet(t: seq<Append>, opts: seq<Kind>, i: nat, j: nat)
    requires j <= 7
  {
    forall a :: 0 <= a < |t| ==>
      && t[a].slot < j && t[a].wallet == i
      && AllKinds[t[a].slot] in opts
      && t[a].path == FilePath(AllKinds[t[a].slot])
  }

  /** The slots strictly increase along the calls, so no slot (and no file) is written twice. */
  predicate SlotsIncreasing(t: seq<Append>)
  {
    forall a, b :: 0 <= a < b < |t| ==> t[a].slot < t[b].slot
  }

  /** Every selected kind among the first `j` of `FILES` has a call in its slot. */
  predicate CoversSelected(t: seq<Append>, opts: seq<Kind>, j: nat)
  {
    forall k :: k in opts && Ordinal(k) < j ==> exists a :: 0 <= a < |t| && t[a].slot == Ordinal(k)
  }

  lemma {:induction false} PickUpToElements(j: nat, opts: seq<Kind>, w: WalletRecord, i: nat)
    requires j <= 7
    ensures CallsOfWallet(PickUpTo(j, opts, w, i), opts, i, j)
  {
    hide Entry;
    if j > 0 {
      AllKindsInOrder();
      PickUpToElements(j - 1, opts, w, i);
      var init := PickUpTo(j - 1, opts, w, i);
      var t := PickUpTo(j, opts, w, i);
      var p := Pick(opts, AllKinds[j - 1], w, i);
      PickShape(opts, AllKinds[j - 1], w, i);
      assert t == init + p;
      forall a | 0 <= a < |t|
        ensures && t[a].slot < j && t[a].wallet == i
                && AllKinds[t[a].slot] in opts
                && t[a].path == FilePath(AllKinds[t[a].slot])
      {
        if a < |init| {
          assert t[a] == init[a];
        } else {
          assert t[a] == p[0];
        }
      }
    }
  }

  lemma {:induction false} PickUpToIncreasing(j: nat, opts: seq<Kind>, w: WalletRecord, i: nat)
    requires j <= 7
    ensures SlotsIncreasing(PickUpTo(j, opts, w, i))
  {
    hide Entry;
    if j > 0 {
      AllKindsInOrder();
      PickUpToIncreasing(j - 1, opts, w, i);
      PickUpToElements(j - 1, opts, w, i);
      var init := PickUpTo(j - 1, opts, w, i);
      var t := PickUpTo(j, opts, w, i);
      var p := Pick(opts, AllKinds[j - 1], w, i);
      PickShape(opts, AllKinds[j - 1], w, i);
      assert t == init + p;
      forall a, b | 0 <= a < b < |t| ensures t[a].slot < t[b].slot {
        assert t[a] == init[a];
        if b < |init| {
          assert t[b] == init[b];
        } else {
          assert t[b] == p[0];
        }
      }
    }
  }

  lemma {:induction false} PickUpToCovers(j: nat, opts: seq<Kind>, w: WalletRecord, i: nat)
    requires j <= 7
    ensures CoversSelected(PickUpTo(j, opts, w, i), opts, j)
  {
    hide Entry;
    if j > 0 {
      AllKindsInOrder();
      PickUpToCovers(j - 1, opts, w, i);
      var init := PickUpTo(j - 1, opts, w, i);
      var t := PickUpTo(j, opts, w, i);
      var k := AllKinds[j - 1];
      PickShape(opts, k, w, i);
      assert t == init + Pick(opts, k, w, i);
      forall k' | k' in opts && Ordinal(k') < j
        ensures exists a :: 0 <= a < |t| && t[a].slot == Ordinal(k')
      {
        if Ordinal(k') == j - 1 {
          assert k' == k;
          assert t[|init|].slot == Ordinal(k');
        } else {
          var a :| 0 <= a < |init| && init[a].slot == Ordinal(k');
          assert t[a] == init[a];
        }
      }
    }
  }

  /**
   * Within one wallet the writes go to the selected kinds exactly once each,
   * in the fixed order ADDRESSES, PRIVATE_KEYS, MNEMONIC, DETAILS,
   * SERIALIZED_ADDRESSES, SERIALIZED_PRIVATE_KEYS, SERIALIZED_MNEMONIC,
   * whatever order (and however many times) the codes were typed.
   */
  lemma WalletAppendsOrdered(opts: seq<Kind>, w: WalletRecord, i: nat)
    ensures CallsOfWallet(WalletAppends(opts, w, i), opts, i, 7)
    ensures SlotsIncreasing(WalletAppends(opts, w, i))
    ensures CoversSelected(WalletAppends(opts, w, i), opts, 7)
  {
    hide Entry;
    PickUpToElements(7, opts, w, i);
    PickUpToIncreasing(7, opts, w, i);
    PickUpToCovers(7, opts, w, i);
  }

  lemma {:induction false} PickUpToSameSelection(j: nat, o1: seq<Kind>, o2: seq<Kind>, w: WalletRecord, i: nat)
    requires j <= 7
    requires forall k :: k in o1 <==> k in o2
    ensures PickUpTo(j, o1, w, i) == PickUpTo(j, o2, w, i)
  {
    hide Entry;
    if j > 0 {
      PickUpToSameSelection(j - 1, o1, o2, w, i);
    }
  }

  /** Selections that name the same kinds, in any order and with any repeats, write the same. */
  lemma {:induction false} SelectionOrderIrrelevant(o1: seq<Kind>, o2: seq<Kind>, n: nat, gen: nat -> KeyPair)
    requires forall k :: k in o1 <==> k in o2
    ensures Plan(n, o1, gen) == Plan(n, o2, gen)
  {
    hide Entry;
    if n > 0 {
      SelectionOrderIrrelevant(o1, o2, n - 1, gen);
      PickUpToSameSelection(7, o1, o2, CreateNewWallet(n - 1, gen(n - 1)), n - 1);
    }
  }

  /**
   * `if (outputOptions.includes(KIND)) await saveToFile(FILES.KIND, ...)` for
   * the kind at position `j` of `FILES`.
   */
  method SaveIfSelected(fs: Files, trace: seq<Append>, opts: seq<Kind>, j: nat, w: WalletRecord, i: nat,
                        ok: (nat, nat) -> bool, ghost start: Files, ghost before: seq<Append>)
    returns (fs': Files, trace': seq<Append>)
    requires j < 7
    requires fs == Replay(start, trace, ok)
    requires trace == before + PickUpTo(j, opts, w, i)
    ensures trace' == before + PickUpTo(j + 1, opts, w, i)
    ensures fs' == Replay(start, trace', ok)
  {
    hide Entry;
    var k := AllKinds[j];
    AllKindsInOrder();
    fs', trace' := fs, trace;
    if k in opts {
      fs', trace' := Save(fs, trace, Append(i, Ordinal(k), FilePath(k), Entry(k, w)), ok, start);
    }
  }

  /**
   * One pass of the generation loop's body: the seven `includes` tests, in
   * `FILES` order, each followed by `saveToFile` for that kind.
   */
  method SaveWallet(fs: Files, trace: seq<Append>, opts: seq<Kind>, w: WalletRecord, i: nat,
                    ok: (nat, nat) -> bool, ghost start: Files)
    returns (fs': Files, trace': seq<Append>)
    requires fs == Replay(start, trace, ok)
    ensures trace' == trace + WalletAppends(opts, w, i)
    ensures fs' == Replay(start, trace', ok)
  {
    hide Entry;
    assert trace == trace + PickUpTo(0, opts, w, i);
    fs', trace' := SaveIfSelected(fs, trace, opts, 0, w, i, ok, start, trace);    // ADDRESSES
    fs', trace' := SaveIfSelected(fs', trace', opts, 1, w, i, ok, start, trace);  // PRIVATE_KEYS
    fs', trace' := SaveIfSelected(fs', trace', opts, 2, w, i, ok, start, trace);  // MNEMONIC
    fs', trace' := SaveIfSelected(fs', trace', opts, 3, w, i, ok, start, trace);  // DETAILS
    fs', trace' := SaveIfSelected(fs', trace', opts, 4, w, i, ok, start, trace);  // SERIALIZED_ADDRESSES
    fs', trace' := SaveIfSelected(fs', trace', opts, 5, w, i, ok, start, trace);  // SERIALIZED_PRIVATE_KEYS
    fs', trace' := SaveIfSelected(fs', trace', opts, 6, w, i, ok, start, trace);  // SERIALIZED_MNEMONIC
  }

  /** The `for i` loop of `main`: one record per wallet, numbered from 1, and its writes. */
  method GenerateWallets(fs: Files, count: nat, opts: seq<Kind>, gen: nat -> KeyPair, ok: (nat, nat) -> bool)
    returns (fs': Files, trace: seq<Append>)
    ensures trace == Plan(count, opts, gen)
    ensures fs' == Replay(fs, trace, ok)
  {
    hide Entry;
    fs', trace := fs, [];
    var i := 0;
    while i < count
      invariant i <= count
      invariant trace == Plan(i, opts, gen)
      invariant fs' == Replay(fs, trace, ok)
    {
      var w := CreateNewWallet(i, gen(i));
      fs', trace := SaveWallet(fs', trace, opts, w, i, ok, fs);
      i := i + 1;
    }
  }

  /** The files after the first `j` truncations of the clearing loop. */
  function TruncatedFirst(fs: Files, j: nat): Files
    requires j <= 7
  {
    if j == 0 then fs else Truncate(TruncatedFirst(fs, j - 1), FilePath(AllKinds[j - 1]))
  }

  /**
   * The clearing loop, `for (let key in FILES) await fs.writeFile(FILES[key], "")`.
   * A failed write is not caught: it ends the loop and reports which one failed.
   */
  method ClearFiles(fs: Files, truncateOk: nat -> bool) returns (fs': Files, failed: Option<nat>)
    ensures failed.None? ==> (forall j :: 0 <= j < 7 ==> truncateOk(j)) && fs' == TruncatedFirst(fs, 7)
    ensures failed.Some? ==>
      && failed.value < 7 && !truncateOk(failed.value)
      && (forall j :: 0 <= j < failed.value ==> truncateOk(j))
      && fs' == TruncatedFirst(fs, failed.value)
  {
    hide FilePath;
    fs' := fs;
    var j := 0;
    while j < |AllKinds|
      invariant j <= 7
      invariant fs' == TruncatedFirst(fs, j)
      invariant forall m :: 0 <= m < j ==> truncateOk(m)
    {
      if !truncateOk(j) {
        return fs', Some(j);
      }
      fs' := Truncate(fs', FilePath(AllKinds[j]));
      j := j + 1;
    }
    failed := None;
  }

  /**
   * `main`: clear the files, take the two answers, generate. A failed
   * truncation rejects `main`'s promise before any prompt, so nothing is
   * generated; otherwise every wallet is generated, whatever the appends do.
   */
  method Run(fs: Files, countAnswer: string, selectionAnswer: string, gen: nat -> KeyPair,
             truncateOk: nat -> bool, ok: (nat, nat) -> bool)
    returns (outcome: Outcome, fs': Files, trace: seq<Append>)
    requires CountPattern(countAnswer) && ValidSelection(selectionAnswer)
    ensures outcome.Completed? || outcome.Crashed?
    ensures outcome.Completed? <==> forall j :: 0 <= j < 7 ==> truncateOk(j)
    ensures outcome.Crashed? ==>
      && trace == []
      && exists j :: 0 <= j < 7 && !truncateOk(j) && (forall m :: 0 <= m < j ==> truncateOk(m))
                     && outcome.path == FilePath(AllKinds[j]) && fs' == TruncatedFirst(fs, j)
    ensures outcome.Completed? ==>
      && outcome.walletCount == DecimalValue(countAnswer)
      && trace == Plan(outcome.walletCount, GetOutputPreferences(selectionAnswer), gen)
      && fs' == Replay(TruncatedFirst(fs, 7), trace, ok)
  {
    hide Entry;
    var cleared, failed := ClearFiles(fs, truncateOk);
    if failed.Some? {
      return Crashed(FilePath(AllKinds[failed.value])), cleared, [];
    }
    var walletCount := GetUserInput(countAnswer).value;
    var outputOptions := GetOutputPreferences(selectionAnswer);
    fs', trace := GenerateWallets(cleared, walletCount, outputOptions, gen, ok);
    outcome := Completed(walletCount);
  }

  lemma {:induction false} TruncatedFirstContent(fs: Files, j: nat)
    requires j <= 7
    ensures forall m :: 0 <= m < j ==> Content(TruncatedFirst(fs, j), FilePath(AllKinds[m])) == []
    ensures forall p :: (forall m :: 0 <= m < j ==> p != FilePath(AllKinds[m])) ==>
      Content(TruncatedFirst(fs, j), p) == Content(fs, p)
  {
    if j > 0 {
      TruncatedFirstContent(fs, j - 1);
    }
  }

  /**
   * Before any prompt, every one of the seven files is empty; any other
   * file is left as it was.
   */
  lemma ClearedFiles(fs: Files)
    ensures forall k :: Content(TruncatedFirst(fs, 7), FilePath(k)) == []
    ensures forall p :: (forall k :: p != FilePath(k)) ==> Content(TruncatedFirst(fs, 7), p) == Content(fs, p)
  {
    TruncatedFirstContent(fs, 7);
    AllKindsInOrder();
    forall k ensures Content(TruncatedFirst(fs, 7), FilePath(k)) == [] {
      assert FilePath(k) == FilePath(AllKinds[Ordinal(k)]);
    }
  }

  /** The entry wallet i adds to file `k`, if its append succeeds. */
  function Block(k: Kind, i: nat, gen: nat -> KeyPair, ok: (nat, nat) -> bool): seq<string>
  {
    if ok(i, Ordinal(k)) then [Entry(k, CreateNewWallet(i, gen(i))) + "\n"] else []
  }

  /** The entries file `k` receives from wallets 0..n-1: one per wallet whose append succeeded. */
  function KindFile(k: Kind, n: nat, gen: nat -> KeyPair, ok: (nat, nat) -> bool): seq<string>
  {
    if n == 0 then [] else KindFile(k, n - 1, gen, ok) + Block(k, n - 1, gen, ok)
  }

  lemma {:induction false} WrittenPickUpTo(j: nat, opts: seq<Kind>, w: WalletRecord, i: nat, k: Kind, ok: (nat, nat) -> bool)
    requires j <= 7
    ensures Written(PickUpTo(j, opts, w, i), FilePath(k), ok)
         == if Ordinal(k) < j && k in opts && ok(i, Ordinal(k)) then [Entry(k, w) + "\n"] else []
  {
    hide Entry;
    AllKindsInOrder();
    if j > 0 {
      WrittenPickUpTo(j - 1, opts, w, i, k, ok);
      var kj := AllKinds[j - 1];
      WrittenConcat(PickUpTo(j - 1, opts, w, i), Pick(opts, kj, w, i), FilePath(k), ok);
      FilePathInjective(kj, k);
      if kj in opts {
        WrittenOne(Append(i, Ordinal(kj), FilePath(kj), Entry(kj, w)), FilePath(k), ok);
      }
      assert kj == k <==> Ordinal(k) == j - 1;
    }
  }

  /** One wallet adds its entry to each selected kind's file, when that append succeeds, and nothing to the others. */
  lemma WrittenByWallet(opts: seq<Kind>, gen: nat -> KeyPair, ok: (nat, nat) -> bool, k: Kind, i: nat)
    ensures Written(WalletAppends(opts, CreateNewWallet(i, gen(i)), i), FilePath(k), ok)
         == if k in opts then Block(k, i, gen, ok) else []
  {
    hide Entry;
    WrittenPickUpTo(7, opts, CreateNewWallet(i, gen(i)), i, k, ok);
  }

  lemma {:induction false} WrittenByPlan(n: nat, opts: seq<Kind>, gen: nat -> KeyPair, ok: (nat, nat) -> bool, k: Kind)
    ensures Written(Plan(n, opts, gen), FilePath(k), ok) == if k in opts then KindFile(k, n, gen, ok) else []
  {
    hide Entry;
    if n > 0 {
      var before := if k in opts then KindFile(k, n - 1, gen, ok) else [];
      var added := if k in opts then Block(k, n - 1, gen, ok) else [];
      WrittenByPlan(n - 1, opts, gen, ok, k);
      WrittenByWallet(opts, gen, ok, k, n - 1);
      WrittenSnoc(Plan(n - 1, opts, gen), WalletAppends(opts, CreateNewWallet(n - 1, gen(n - 1)), n - 1),
                  FilePath(k), ok, before, added);
      assert before + added == if k in opts then KindFile(k, n, gen, ok) else [];
    }
  }

  /**
   * After a completed run, each selected kind's file holds exactly the
   * entries of the wallets whose append succeeded, in generation order, and
   * each unselected kind's file is empty. A failed append only leaves its
   * own entry out.
   */
  lemma FilesAfterRun(fs: Files, n: nat, opts: seq<Kind>, gen: nat -> KeyPair, ok: (nat, nat) -> bool, k: Kind)
    ensures Content(Replay(TruncatedFirst(fs, 7), Plan(n, opts, gen), ok), FilePath(k))
         == if k in opts then KindFile(k, n, gen, ok) else []
  {
    hide Entry;
    ClearedFiles(fs);
    ReplayContent(TruncatedFirst(fs, 7), Plan(n, opts, gen), FilePath(k), ok);
    WrittenByPlan(n, opts, gen, ok, k);
  }

  /**
   * With every append succeeding, a kind's file gets one entry per wallet:
   * n entries, the j-th for wallet j + 1. Repeated codes add nothing.
   */
  lemma {:induction false} OneEntryPerWallet(k: Kind, n: nat, gen: nat -> KeyPair, ok: (nat, nat) -> bool)
    requires forall i, s :: ok(i, s)
    ensures |KindFile(k, n, gen, ok)| == n
    ensures forall j :: 0 <= j < n ==> KindFile(k, n, gen, ok)[j] == Entry(k, CreateNewWallet(j, gen(j))) + "\n"
  {
    hide Entry;
    if n > 0 {
      OneEntryPerWallet(k, n - 1, gen, ok);
      assert ok(n - 1, Ordinal(k));
      assert Block(k, n - 1, gen, ok) == [Entry(k, CreateNewWallet(n - 1, gen(n - 1))) + "\n"];
    }
  }

  /**
   * With every append succeeding, the numbered kinds' files hold the indices
   * 1..n in ascending order, one entry each.
   */
  lemma IndicesAscending(k: Kind, n: nat, gen: nat -> KeyPair, ok: (nat, nat) -> bool)
    requires Numbered(k)
    requires forall i, s :: ok(i, s)
    ensures |KindFile(k, n, gen, ok)| == n
    ensures forall j :: 0 <= j < n ==> IndexOf(KindFile(k, n, gen, ok)[j]) == j + 1
  {
    hide Entry;
    OneEntryPerWallet(k, n, gen, ok);
    forall j | 0 <= j < n ensures IndexOf(KindFile(k, n, gen, ok)[j]) == j + 1 {
      NumberedEntryIndex(k, CreateNewWallet(j, gen(j)));
    }
  }

  /** A run that stopped on a failed truncation appended nothing, and the files not yet reached kept their content. */
  lemma CrashedBeforeGenerating(fs: Files, j: nat)
    requires j < 7
    ensures forall m :: j <= m < 7 ==> Content(TruncatedFirst(fs, j), FilePath(AllKinds[m])) == Content(fs, FilePath(AllKinds[m]))
  {
    TruncatedFirstContent(fs, j);
    AllKindsInOrder();
    forall m, m' | j <= m < 7 && 0 <= m' < j ensures FilePath(AllKinds[m]) != FilePath(AllKinds[m']) {
      FilePathInjective(AllKinds[m], AllKinds[m']);
    }
  }
}
