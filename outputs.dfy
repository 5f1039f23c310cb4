/**
 * The seven output kinds, the `FILES` table that names each kind's file, the
 * `optionsMap` from selection codes to kinds, and the wallet record that
 * `createNewWallet` builds. Both scripts declare these identically.
 */
module Outputs {
  import opened Wrappers
  import opened Numbers

  datatype Kind =
    | Addresses
    | PrivateKeys
    | Mnemonic
    | Details
    | SerializedAddresses
    | SerializedPrivateKeys
    | SerializedMnemonic

  /** The keys of `FILES`, in declaration order. */
  const AllKinds: seq<Kind> := [Addresses, PrivateKeys, Mnemonic, Details,
                                SerializedAddresses, SerializedPrivateKeys, SerializedMnemonic]

  /** A kind's position in `FILES`. */
  function Ordinal(k: Kind): nat
  {
    match k
    case Addresses => 0
    case PrivateKeys => 1
    case Mnemonic => 2
    case Details => 3
    case SerializedAddresses => 4
    case SerializedPrivateKeys => 5
    case SerializedMnemonic => 6
  }

  lemma AllKindsInOrder()
    ensures |AllKinds| == 7
    ensures forall j :: 0 <= j < 7 ==> Ordinal(AllKinds[j]) == j
    ensures forall k :: AllKinds[Ordinal(k)] == k
  {
  }

  /** The key of `FILES` (and the value of `optionsMap`) that names a kind. */
  function Key(k: Kind): string
  {
    match k
    case Addresses => "ADDRESSES"
    case PrivateKeys => "PRIVATE_KEYS"
    case Mnemonic => "MNEMONIC"
    case Details => "DETAILS"
    case SerializedAddresses => "SERIALIZED_ADDRESSES"
    case SerializedPrivateKeys => "SERIALIZED_PRIVATE_KEYS"
    case SerializedMnemonic => "SERIALIZED_MNEMONIC"
  }

  /** `FILES[key]`: the file a kind is written to. */
  function FilePath(k: Kind): string
  {
    match k
    case Addresses => "wallet_addresses.txt"
    case PrivateKeys => "wallet_private_keys.txt"
    case Mnemonic => "wallet_mnemonic.txt"
    case Details => "wallet_details.txt"
    case SerializedAddresses => "wallet_serial_addresses.txt"
    case SerializedPrivateKeys => "wallet_serial_private_keys.txt"
    case SerializedMnemonic => "wallet_serial_mnemonic.txt"
  }

  /** Distinct kinds write distinct files, so a write to one kind never touches another's file. */
  lemma FilePathInjective(k1: Kind, k2: Kind)
    ensures FilePath(k1) == FilePath(k2) <==> k1 == k2
  {
  }

  /** The selection code printed in front of each kind in the menu. */
  function Code(k: Kind): nat
  {
    Ordinal(k) + 1
  }

  /** `optionsMap[v]`: the kind a selection value names, or None (`undefined`) for any value but 1..7. */
  function OptionsMap(v: JsNumber): (r: Option<Kind>)
    ensures r.Some? <==> v.Finite? && 1 <= v.value <= 7
    ensures r.Some? ==> Code(r.value) == v.value
  {
    if v.Finite? && 1 <= v.value <= 7 then Some(AllKinds[v.value - 1]) else None
  }

  /** Each kind's code maps back to that kind, so the code of a mapped value identifies its kind. */
  lemma OptionsMapCode(k: Kind, v: JsNumber)
    ensures OptionsMap(Finite(Code(k))) == Some(k)
    ensures OptionsMap(v) == Some(k) <==> v == Finite(Code(k))
  {
  }

  /** What `ethers.Wallet.createRandom()` hands back that the scripts read. */
  datatype KeyPair = KeyPair(address: string, mnemonic: string, privateKey: string)

  /** The record `createNewWallet` returns. */
  datatype WalletRecord = WalletRecord(index: nat, address: string, mnemonic: string, privateKey: string)

  /**
   * `createNewWallet(i)` with the random key pair supplied: the record is
   * numbered from 1 and copies the key pair's fields.
   */
  function CreateNewWallet(i: nat, key: KeyPair): WalletRecord
  {
    WalletRecord(i + 1, key.address, key.mnemonic, key.privateKey)
  }

  /**
   * Records are numbered from 1, two records share a number exactly when
   * they come from the same loop counter, and the key pair reads back from
   * the record unchanged.
   */
  lemma CreateNewWalletNumbering(i: nat, j: nat, key: KeyPair, key': KeyPair)
    ensures CreateNewWallet(i, key).index >= 1
    ensures CreateNewWallet(i, key).index == CreateNewWallet(j, key').index <==> i == j
    ensures var w := CreateNewWallet(i, key); KeyPair(w.address, w.mnemonic, w.privateKey) == key
  {
  }

  /** How a run ends. */
  datatype Outcome =
    | Completed(walletCount: nat)  // every wallet was generated
    | Exited                      // `process.exit(0)` after the abort code
    | Crashed(path: string)       // an unhandled rejection from writing this file
}
