/**
 * What wallet-gen.js promises, proved about the model in `WalletGen`: how
 * selection values map to kinds, what each line holds, which files gain
 * which lines and in what order, and what `createdFiles` ends up holding.
 */
module WalletGenProperties {
  import opened Wrappers
  import opened Numbers
  import opened Strings
  import opened Prompts
  import opened Outputs
  import opened Disk
  import opened WalletGen

  /**
   * After a valid answer without 0, a selection value names a kind exactly
   * when its token is a single digit, and then names the kind at that menu
   * position; the empty token after a trailing comma (0) and multi-digit
   * tokens (11 and up) name none.
   */
  lemma SelectionValues(answer: string, j: nat)
    requires ValidSelection(answer) && '0' !in answer
    requires j < |Split(answer, ',')|
    ensures OptionsMap(GetOutputPreferences(answer).values[j]).Some? <==> |Split(answer, ',')[j]| == 1
    ensures |Split(answer, ',')[j]| == 1 ==>
      OptionsMap(GetOutputPreferences(answer).values[j]) == Some(AllKinds[Split(answer, ',')[j][0] as int - '1' as int])
  {
    PatternIsWellFormed(answer, '0');
    SplitPieces(answer, ',');
    AllKindsInOrder();
    var t := Split(answer, ',')[j];
    var v := GetOutputPreferences(answer).values[j];
    assert t in Split(answer, ',');
    assert forall c :: c in t ==> '1' <= c <= '7' by {
      forall c | c in t ensures '1' <= c <= '7' { assert c in answer && c != ',' && c != '0'; }
    }
    assert AllDigits(t) by {
      forall i | 0 <= i < |t| ensures IsDigit(t[i]) { assert t[i] in t; }
    }
    if |t| > 0 {
      assert t[0] in t;
      OneDigitIffBelowTen(t);
      if |t| == 1 {
        var k := OptionsMap(v).value;
        assert AllKinds[Ordinal(k)] == k;
      }
    }
  }

  /**
   * The lookup finds the first property with the name, and reads
   * `undefined` when no property has it.
   */
  lemma {:induction false} LookupFirst(props: seq<(string, string)>, name: string, j: int)
    requires j == -1 ==> forall p :: 0 <= p < |props| ==> props[p].0 != name
    requires j != -1 ==> 0 <= j < |props| && props[j].0 == name && forall p :: 0 <= p < j ==> props[p].0 != name
    ensures Lookup(props, name) == if j == -1 then "undefined" else props[j].1
  {
    if props != [] && j != 0 {
      LookupFirst(props[1..], name, if j == -1 then -1 else j - 1);
    }
  }

  /**
   * The field lookup finds a field only for MNEMONIC (key "mnemonic"); every
   * other kind's lowercased key ("addresses", "private_keys", "details",
   * "serialized_...") is not a field of the record.
   */
  lemma LookupField(k: Kind, w: WalletRecord)
    ensures Lookup(Properties(w), ToLower(Key(k))) == if k == Mnemonic then w.mnemonic else "undefined"
  {
    var name := ToLower(Key(k));
    var props := Properties(w);
    if k == Mnemonic {
      assert name == "mnemonic";
      assert props[0].0 != name && props[1].0 != name && props[2].0 == name;
      LookupFirst(props, name, 2);
    } else {
      // Each lower-cased key differs from every property name in length,
      // except "details", which differs from "address" in its first letter.
      assert |name| != 5 && |name| != 8 && |name| != 10;
      assert |name| == 7 ==> name[0] == 'd';
      assert props[0].0 != name && props[1].0 != name && props[2].0 != name && props[3].0 != name;
      LookupFirst(props, name, -1);
    }
  }

  /**
   * Every entry is `<index>. <value>` with the wallet's index, where the
   * value is the mnemonic for MNEMONIC and the text `undefined` for every
   * other kind.
   */
  lemma EntryFormat(k: Kind, w: WalletRecord)
    ensures var v := if k == Mnemonic then w.mnemonic else "undefined";
      && Entry(k, w) == NatToString(w.index) + ". " + v
      && ParseIndexed(Entry(k, w)) == Some((w.index, v))
      && ParseIndexed(Entry(k, w) + "\n") == Some((w.index, v + "\n"))
  {
    LookupField(k, w);
    var v := if k == Mnemonic then w.mnemonic else "undefined";
    var n := NatToString(w.index);
    ConcatThree(n, ". ", v);
    assert Entry(k, w) + "\n" == n + ". " + (v + "\n");
    ParseIndexedRoundTrip(w.index, v);
    ParseIndexedRoundTrip(w.index, v + "\n");
  }

  /** How many entries of the first `j` of the selection list name kind `k`. */
  function Occurrences(opts: seq<JsNumber>, j: nat, k: Kind): nat
    requires j <= |opts|
  {
    if j == 0 then 0 else Occurrences(opts, j - 1, k) + if OptionsMap(opts[j - 1]) == Some(k) then 1 else 0
  }

  function Repeat(x: string, m: nat): (r: seq<string>)
    ensures |r| == m
  {
    if m == 0 then [] else Repeat(x, m - 1) + [x]
  }

  lemma {:induction false} RepeatElements(x: string, m: nat)
    ensures forall a :: 0 <= a < m ==> Repeat(x, m)[a] == x
  {
    if m > 0 {
      RepeatElements(x, m - 1);
    }
  }

  /** A selection entry adds its kind's entry to that kind's file, when the append succeeds, and nothing to other files. */
  lemma WrittenByEntry(opts: seq<JsNumber>, s: nat, w: WalletRecord, i: nat, k: Kind, ok: (nat, nat) -> bool)
    requires s < |opts|
    ensures Written(EntryCall(opts, s, w, i), FilePath(k), ok)
         == if OptionsMap(opts[s]) == Some(k) && ok(i, s) then [Entry(k, w) + "\n"] else []
  {
    hide Entry;
    match OptionsMap(opts[s])
    case Some(k') =>
      FilePathInjective(k', k);
      WrittenOne(Append(i, s, FilePath(k'), Entry(k', w)), FilePath(k), ok);
    case None =>
  }

  /**
   * With every append succeeding, one wallet adds to a kind's file one
   * entry per occurrence of that kind in the selection list: a code typed
   * m times gives m identical lines.
   */
  lemma {:induction false} WrittenPerWallet(opts: seq<JsNumber>, j: nat, w: WalletRecord, i: nat, k: Kind,
                                            ok: (nat, nat) -> bool)
    requires j <= |opts|
    requires forall i', s :: ok(i', s)
    ensures Written(OptionAppends(opts, j, w, i), FilePath(k), ok) == Repeat(Entry(k, w) + "\n", Occurrences(opts, j, k))
  {
    hide Entry;
    if j > 0 {
      WrittenPerWallet(opts, j - 1, w, i, k, ok);
      WrittenPerWalletStep(opts, j, w, i, k, ok);
    } else {
      assert Written([], FilePath(k), ok) == [];
    }
  }

  /** The inductive step of `WrittenPerWallet`: entry j - 1 adds one more line exactly when it names `k`. */
  lemma WrittenPerWalletStep(opts: seq<JsNumber>, j: nat, w: WalletRecord, i: nat, k: Kind, ok: (nat, nat) -> bool)
    requires 0 < j <= |opts|
    requires ok(i, j - 1)
    requires Written(OptionAppends(opts, j - 1, w, i), FilePath(k), ok)
          == Repeat(Entry(k, w) + "\n", Occurrences(opts, j - 1, k))
    ensures Written(OptionAppends(opts, j, w, i), FilePath(k), ok) == Repeat(Entry(k, w) + "\n", Occurrences(opts, j, k))
  {
    hide Entry;
    WrittenByEntry(opts, j - 1, w, i, k, ok);
    RepeatStep(OptionAppends(opts, j - 1, w, i), EntryCall(opts, j - 1, w, i), FilePath(k), ok,
               Entry(k, w) + "\n", Occurrences(opts, j - 1, k), OptionsMap(opts[j - 1]) == Some(k) && ok(i, j - 1),
               Occurrences(opts, j, k));
  }

  /** Calls that write `x` m times, followed by calls that write it once more or not at all. */
  lemma RepeatStep(before: seq<Append>, call: seq<Append>, path: string, ok: (nat, nat) -> bool,
                   x: string, m: nat, hit: bool, m': nat)
    requires Written(before, path, ok) == Repeat(x, m)
    requires Written(call, path, ok) == if hit then [x] else []
    requires m' == m + if hit then 1 else 0
    ensures Written(before + call, path, ok) == Repeat(x, m')
  {
    WrittenConcat(before, call, path, ok);
    if hit {
      assert Repeat(x, m + 1) == Repeat(x, m) + [x];
    }
  }

  /** The lines one wallet adds to a kind's file when every append succeeds. */
  function Block(k: Kind, i: nat, opts: seq<JsNumber>, gen: nat -> KeyPair): seq<string>
  {
    Repeat(Entry(k, CreateNewWallet(i, gen(i))) + "\n", Occurrences(opts, |opts|, k))
  }

  /** The lines a kind's file gains from wallets 0..n-1 when every append succeeds. */
  function KindFile(k: Kind, n: nat, opts: seq<JsNumber>, gen: nat -> KeyPair): seq<string>
  {
    if n == 0 then [] else KindFile(k, n - 1, opts, gen) + Block(k, n - 1, opts, gen)
  }

  /** With every append succeeding, every line wallet i adds carries the index i + 1. */
  lemma BlockIndices(k: Kind, i: nat, opts: seq<JsNumber>, gen: nat -> KeyPair)
    ensures forall a :: 0 <= a < |Block(k, i, opts, gen)| ==> IndexOf(Block(k, i, opts, gen)[a]) == i + 1
  {
    hide Entry;
    var x := Entry(k, CreateNewWallet(i, gen(i))) + "\n";
    EntryFormat(k, CreateNewWallet(i, gen(i)));
    RepeatElements(x, Occurrences(opts, |opts|, k));
  }

  /** With every append succeeding, wallet i adds its block to each kind's file. */
  lemma WrittenByWallet(opts: seq<JsNumber>, gen: nat -> KeyPair, ok: (nat, nat) -> bool, k: Kind, i: nat)
    requires forall i', s :: ok(i', s)
    ensures Written(WalletAppends(opts, CreateNewWallet(i, gen(i)), i), FilePath(k), ok) == Block(k, i, opts, gen)
  {
    hide Entry;
    WrittenPerWallet(opts, |opts|, CreateNewWallet(i, gen(i)), i, k, ok);
  }

  lemma {:induction false} WrittenByPlan(n: nat, opts: seq<JsNumber>, gen: nat -> KeyPair, ok: (nat, nat) -> bool, k: Kind)
    requires forall i, s :: ok(i, s)
    ensures Written(Plan(n, opts, gen), FilePath(k), ok) == KindFile(k, n, opts, gen)
  {
    hide Entry;
    if n > 0 {
      WrittenByPlan(n - 1, opts, gen, ok, k);
      WrittenByWallet(opts, gen, ok, k, n - 1);
      WrittenSnoc(Plan(n - 1, opts, gen), WalletAppends(opts, CreateNewWallet(n - 1, gen(n - 1)), n - 1), FilePath(k), ok,
                  KindFile(k, n - 1, opts, gen), Block(k, n - 1, opts, gen));
    } else {
      assert Written([], FilePath(k), ok) == [];
    }
  }

  /** Appending lines that all carry index n to lines indexed 1..n-1 in nondecreasing order keeps that order. */
  lemma AppendIndexedBlock(init: seq<string>, block: seq<string>, n: nat)
    requires n > 0
    requires forall a :: 0 <= a < |init| ==> 1 <= IndexOf(init[a]) <= n - 1
    requires forall a, b :: 0 <= a <= b < |init| ==> IndexOf(init[a]) <= IndexOf(init[b])
    requires forall a :: 0 <= a < |block| ==> IndexOf(block[a]) == n
    ensures forall a :: 0 <= a < |init + block| ==> 1 <= IndexOf((init + block)[a]) <= n
    ensures forall a, b :: 0 <= a <= b < |init + block| ==> IndexOf((init + block)[a]) <= IndexOf((init + block)[b])
  {
    var f := init + block;
    forall a | 0 <= a < |f|
      ensures 1 <= IndexOf(f[a]) <= n
    {
      if a < |init| { assert f[a] == init[a]; } else { assert f[a] == block[a - |init|]; }
    }
    forall a, b | 0 <= a <= b < |f|
      ensures IndexOf(f[a]) <= IndexOf(f[b])
    {
      if b < |init| {
        assert f[a] == init[a] && f[b] == init[b];
      } else if a < |init| {
        assert f[a] == init[a] && f[b] == block[b - |init|];
      } else {
        assert f[a] == block[a - |init|] && f[b] == block[b - |init|];
      }
    }
  }

  /** With every append succeeding, a kind's file gains n times as many lines as the kind occurs in the selection list. */
  lemma {:induction false} KindFileLength(k: Kind, n: nat, opts: seq<JsNumber>, gen: nat -> KeyPair)
    ensures |KindFile(k, n, opts, gen)| == n * Occurrences(opts, |opts|, k)
  {
    hide Entry;
    if n > 0 {
      KindFileLength(k, n - 1, opts, gen);
      assert n * Occurrences(opts, |opts|, k) == (n - 1) * Occurrences(opts, |opts|, k) + Occurrences(opts, |opts|, k);
    }
  }

  /**
   * The lines of a kind's file carry indices 1..n that never decrease: all
   * lines of wallet i come before any line of wallet i + 1.
   */
  lemma {:induction false} LinesInWalletOrder(k: Kind, n: nat, opts: seq<JsNumber>, gen: nat -> KeyPair)
    ensures forall a :: 0 <= a < |KindFile(k, n, opts, gen)| ==> 1 <= IndexOf(KindFile(k, n, opts, gen)[a]) <= n
    ensures forall a, b :: 0 <= a <= b < |KindFile(k, n, opts, gen)| ==>
      IndexOf(KindFile(k, n, opts, gen)[a]) <= IndexOf(KindFile(k, n, opts, gen)[b])
  {
    hide Entry;
    if n > 0 {
      LinesInWalletOrder(k, n - 1, opts, gen);
      BlockIndices(k, n - 1, opts, gen);
      AppendIndexedBlock(KindFile(k, n - 1, opts, gen), Block(k, n - 1, opts, gen), n);
    }
  }

  /** Every call in the plan is for a wallet below n and a list entry that names the kind of its file. */
  lemma {:induction false} PlanMembers(n: nat, opts: seq<JsNumber>, gen: nat -> KeyPair)
    ensures forall a :: a in Plan(n, opts, gen) ==>
      && a.wallet < n && a.slot < |opts|
      && OptionsMap(opts[a.slot]).Some?
      && a.path == FilePath(OptionsMap(opts[a.slot]).value)
  {
    hide Entry;
    hide FilePath;
    if n > 0 {
      PlanMembers(n - 1, opts, gen);
      var init := Plan(n - 1, opts, gen);
      var wa := WalletAppends(opts, CreateNewWallet(n - 1, gen(n - 1)), n - 1);
      WalletMembers(opts, |opts|, CreateNewWallet(n - 1, gen(n - 1)), n - 1);
      assert Plan(n, opts, gen) == init + wa;
      forall a: Append | a in init + wa
        ensures && a.wallet < n && a.slot < |opts|
                && OptionsMap(opts[a.slot]).Some?
                && a.path == FilePath(OptionsMap(opts[a.slot]).value)
      {
        if a !in init {
          assert a in wa;
        }
      }
    }
  }

  /** A selection entry makes one call, for this wallet, in its own slot, to its kind's file, when it names a kind; none otherwise. */
  lemma EntryCallShape(opts: seq<JsNumber>, s: nat, w: WalletRecord, i: nat)
    requires s < |opts|
    ensures |EntryCall(opts, s, w, i)| == if OptionsMap(opts[s]).Some? then 1 else 0
    ensures OptionsMap(opts[s]).Some? ==>
      && EntryCall(opts, s, w, i)[0].wallet == i
      && EntryCall(opts, s, w, i)[0].slot == s
      && EntryCall(opts, s, w, i)[0].path == FilePath(OptionsMap(opts[s]).value)
  {
    hide Entry;
  }

  lemma {:induction false} WalletMembers(opts: seq<JsNumber>, j: nat, w: WalletRecord, i: nat)
    requires j <= |opts|
    ensures forall a :: a in OptionAppends(opts, j, w, i) ==>
      && a.wallet == i && a.slot < j
      && OptionsMap(opts[a.slot]).Some?
      && a.path == FilePath(OptionsMap(opts[a.slot]).value)
  {
    hide Entry;
    if j > 0 {
      WalletMembers(opts, j - 1, w, i);
      EntryCallShape(opts, j - 1, w, i);
      var init := OptionAppends(opts, j - 1, w, i);
      var c := EntryCall(opts, j - 1, w, i);
      assert OptionAppends(opts, j, w, i) == init + c;
      forall a: Append | a in init + c
        ensures && a.wallet == i && a.slot < j
                && OptionsMap(opts[a.slot]).Some?
                && a.path == FilePath(OptionsMap(opts[a.slot]).value)
      {
        if a !in init {
          assert a == c[0];
        }
      }
    }
  }

  /** Every list entry that names a kind makes its call for the wallet. */
  lemma {:induction false} WalletContains(opts: seq<JsNumber>, j: nat, w: WalletRecord, i: nat, s: nat)
    requires s < j <= |opts| && OptionsMap(opts[s]).Some?
    ensures exists a :: a in OptionAppends(opts, j, w, i) && a.wallet == i && a.slot == s
  {
    hide Entry;
    var init := OptionAppends(opts, j - 1, w, i);
    var c := EntryCall(opts, j - 1, w, i);
    assert OptionAppends(opts, j, w, i) == init + c;
    if s < j - 1 {
      WalletContains(opts, j - 1, w, i, s);
      var a :| a in init && a.wallet == i && a.slot == s;
      assert a in init + c;
    } else {
      EntryCallShape(opts, s, w, i);
      assert c[0] in init + c;
    }
  }

  /**
   * The calls of one wallet follow the selection list: their slots strictly
   * increase, so each list entry that names a kind gets exactly one call
   * (with `WalletContains`), in list order.
   */
  lemma {:induction false} WalletSlotsIncreasing(opts: seq<JsNumber>, j: nat, w: WalletRecord, i: nat)
    requires j <= |opts|
    ensures forall a, b :: 0 <= a < b < |OptionAppends(opts, j, w, i)| ==>
      OptionAppends(opts, j, w, i)[a].slot < OptionAppends(opts, j, w, i)[b].slot
  {
    hide Entry;
    if j > 0 {
      var init := OptionAppends(opts, j - 1, w, i);
      var c := EntryCall(opts, j - 1, w, i);
      WalletSlotsIncreasing(opts, j - 1, w, i);
      WalletMembers(opts, j - 1, w, i);
      EntryCallShape(opts, j - 1, w, i);
      var t := init + c;
      assert OptionAppends(opts, j, w, i) == t;
      forall a, b | 0 <= a < b < |t| ensures t[a].slot < t[b].slot {
        if b < |init| {
          assert t[a] == init[a] && t[b] == init[b];
        } else {
          assert t[b] == c[0];
          assert t[a] == init[a] && init[a] in init;
        }
      }
    }
  }

  lemma {:induction false} PlanContains(n: nat, opts: seq<JsNumber>, gen: nat -> KeyPair, i: nat, s: nat)
    requires i < n && s < |opts| && OptionsMap(opts[s]).Some?
    ensures exists a :: a in Plan(n, opts, gen) && a.wallet == i && a.slot == s
  {
    hide Entry;
    var init := Plan(n - 1, opts, gen);
    var wa := WalletAppends(opts, CreateNewWallet(n - 1, gen(n - 1)), n - 1);
    assert Plan(n, opts, gen) == init + wa;
    if i == n - 1 {
      WalletContains(opts, |opts|, CreateNewWallet(n - 1, gen(n - 1)), n - 1, s);
      var a :| a in wa && a.wallet == i && a.slot == s;
      assert a in init + wa;
    } else {
      PlanContains(n - 1, opts, gen, i, s);
      var a :| a in init && a.wallet == i && a.slot == s;
      assert a in init + wa;
    }
  }

  /**
   * `createdFiles` ends up holding exactly the files of the kinds named in
   * the selection list that had at least one successful append: never the
   * file of an unselected kind, and nothing at all when no wallet is made.
   */
  lemma CreatedFilesExact(n: nat, opts: seq<JsNumber>, gen: nat -> KeyPair, ok: (nat, nat) -> bool, p: string)
    ensures p in Succeeded(Plan(n, opts, gen), ok) <==>
      exists i, s :: 0 <= i < n && 0 <= s < |opts| && ok(i, s)
                     && OptionsMap(opts[s]).Some? && p == FilePath(OptionsMap(opts[s]).value)
    ensures n == 0 ==> Succeeded(Plan(n, opts, gen), ok) == {}
  {
    hide Entry;
    PlanMembers(n, opts, gen);
    if p in Succeeded(Plan(n, opts, gen), ok) {
      var a :| a in Plan(n, opts, gen) && ok(a.wallet, a.slot) && a.path == p;
      assert 0 <= a.wallet < n && 0 <= a.slot < |opts| && ok(a.wallet, a.slot);
    }
    if exists i, s :: 0 <= i < n && 0 <= s < |opts| && ok(i, s)
                      && OptionsMap(opts[s]).Some? && p == FilePath(OptionsMap(opts[s]).value) {
      var i, s :| 0 <= i < n && 0 <= s < |opts| && ok(i, s)
                  && OptionsMap(opts[s]).Some? && p == FilePath(OptionsMap(opts[s]).value);
      PlanContains(n, opts, gen, i, s);
      var a :| a in Plan(n, opts, gen) && a.wallet == i && a.slot == s;
      assert a.path == p;
    }
  }

  /**
   * Files are never emptied: what a file held before the run is a prefix of
   * what it holds after, and it gains only the run's successful lines.
   */
  lemma NeverTruncates(fs: Files, n: nat, opts: seq<JsNumber>, gen: nat -> KeyPair, ok: (nat, nat) -> bool, p: string)
    ensures Content(fs, p) <= Content(Replay(fs, Plan(n, opts, gen), ok), p)
    ensures Content(Replay(fs, Plan(n, opts, gen), ok), p) == Content(fs, p) + Written(Plan(n, opts, gen), p, ok)
  {
    hide Entry;
    ReplayContent(fs, Plan(n, opts, gen), p, ok);
  }

  /**
   * With every append succeeding, a kind's file after the run is its old
   * content followed by `KindFile`: n blocks, one per wallet in order, of
   * as many identical lines as the kind occurs in the list.
   */
  lemma FileAfterRun(fs: Files, n: nat, opts: seq<JsNumber>, gen: nat -> KeyPair, ok: (nat, nat) -> bool, k: Kind)
    requires forall i, s :: ok(i, s)
    ensures Content(Replay(fs, Plan(n, opts, gen), ok), FilePath(k)) == Content(fs, FilePath(k)) + KindFile(k, n, opts, gen)
  {
    hide Entry;
    ReplayContent(fs, Plan(n, opts, gen), FilePath(k), ok);
    WrittenByPlan(n, opts, gen, ok, k);
  }
}
