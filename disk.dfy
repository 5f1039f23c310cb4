/**
 * The files the scripts write, as seen through `fs/promises`. Each file is
 * the sequence of chunks appended to it, in order; a path that is not in the
 * map is a file that does not exist, which reads as empty.
 */
module Disk {

  type Files = map<string, seq<string>>

  function Content(fs: Files, path: string): seq<string>
  {
    if path in fs then fs[path] else []
  }

  /** `fs.writeFile(path, "")`: the file now holds nothing; no other file changes. */
  function Truncate(fs: Files, path: string): Files
  {
    fs[path := []]
  }

  /** Truncating a file empties it and leaves every other file as it was. */
  lemma TruncateEffect(fs: Files, path: string, q: string)
    ensures Content(Truncate(fs, path), q) == if q == path then [] else Content(fs, q)
  {
  }

  /**
   * `saveToFile(path, data)`: appends `data + "\n"` when the append succeeds
   * (`ok`); a failed append is caught and logged and changes nothing.
   */
  function SaveToFile(fs: Files, path: string, data: string, ok: bool): Files
  {
    if ok then fs[path := Content(fs, path) + [data + "\n"]] else fs
  }

  /**
   * A successful append adds `data + "\n"` at the end of its own file; a
   * failed one changes nothing; no other file ever changes.
   */
  lemma SaveToFileEffect(fs: Files, path: string, data: string, ok: bool, q: string)
    ensures !ok ==> SaveToFile(fs, path, data, ok) == fs
    ensures Content(SaveToFile(fs, path, data, ok), q)
         == Content(fs, q) + (if q == path && ok then [data + "\n"] else [])
  {
  }

  /**
   * One call of `saveToFile` made by a run: for which wallet (0-based loop
   * counter), in which slot of that wallet's writes, to which file, with what
   * data. Whether it succeeds is decided by an oracle on (wallet, slot).
   */
  datatype Append = Append(wallet: nat, slot: nat, path: string, data: string)

  /** The files after the given `saveToFile` calls, made in order. */
  function Replay(fs: Files, trace: seq<Append>, ok: (nat, nat) -> bool): Files
    decreases |trace|
  {
    if trace == [] then fs
    else
      var a := trace[|trace| - 1];
      SaveToFile(Replay(fs, trace[..|trace| - 1], ok), a.path, a.data, ok(a.wallet, a.slot))
  }

  /** The chunks the given calls add to one file: their data, newline-terminated, where they succeed. */
  function Written(trace: seq<Append>, path: string, ok: (nat, nat) -> bool): seq<string>
    decreases |trace|
  {
    if trace == [] then []
    else
      var a := trace[|trace| - 1];
      Written(trace[..|trace| - 1], path, ok)
        + (if a.path == path && ok(a.wallet, a.slot) then [a.data + "\n"] else [])
  }

  /** The paths the given calls wrote to successfully. */
  function Succeeded(trace: seq<Append>, ok: (nat, nat) -> bool): set<string>
  {
    set a | a in trace && ok(a.wallet, a.slot) :: a.path
  }

  lemma {:induction false} WrittenConcat(t1: seq<Append>, t2: seq<Append>, path: string, ok: (nat, nat) -> bool)
    ensures Written(t1 + t2, path, ok) == Written(t1, path, ok) + Written(t2, path, ok)
    decreases |t2|
  {
    if t2 != [] {
      assert (t1 + t2)[..|t1 + t2| - 1] == t1 + t2[..|t2| - 1];
      WrittenConcat(t1, t2[..|t2| - 1], path, ok);
    } else {
      assert t1 + t2 == t1;
    }
  }

  /** One batch of calls after another writes the first batch's chunks, then the second's. */
  lemma WrittenSnoc(t1: seq<Append>, t2: seq<Append>, path: string, ok: (nat, nat) -> bool,
                    before: seq<string>, added: seq<string>)
    requires Written(t1, path, ok) == before && Written(t2, path, ok) == added
    ensures Written(t1 + t2, path, ok) == before + added
  {
    WrittenConcat(t1, t2, path, ok);
  }

  /** A single call writes its chunk to its own file when it succeeds, and nothing otherwise. */
  lemma WrittenOne(a: Append, path: string, ok: (nat, nat) -> bool)
    ensures Written([a], path, ok) == if a.path == path && ok(a.wallet, a.slot) then [a.data + "\n"] else []
  {
    assert [a][..0] == [];
  }

  /**
   * Appends only ever add to the end: each file ends as what it held before
   * followed by the chunks written to it, in call order, and only the
   * successful ones.
   */
  lemma {:induction false} ReplayContent(fs: Files, trace: seq<Append>, path: string, ok: (nat, nat) -> bool)
    ensures Content(Replay(fs, trace, ok), path) == Content(fs, path) + Written(trace, path, ok)
    decreases |trace|
  {
    if trace != [] {
      var a := trace[|trace| - 1];
      ReplayContent(fs, trace[..|trace| - 1], path, ok);
      SaveToFileEffect(Replay(fs, trace[..|trace| - 1], ok), a.path, a.data, ok(a.wallet, a.slot), path);
    }
  }

  lemma {:induction false} SucceededSnoc(trace: seq<Append>, a: Append, ok: (nat, nat) -> bool)
    ensures Succeeded(trace + [a], ok) == Succeeded(trace, ok) + (if ok(a.wallet, a.slot) then {a.path} else {})
  {
    var t := trace + [a];
    forall p | p in Succeeded(t, ok)
      ensures p in Succeeded(trace, ok) + (if ok(a.wallet, a.slot) then {a.path} else {})
    {
      var b :| b in t && ok(b.wallet, b.slot) && b.path == p;
      if b != a {
        assert b in trace;
      }
    }
    forall p | p in Succeeded(trace, ok)
      ensures p in Succeeded(t, ok)
    {
      var b :| b in trace && ok(b.wallet, b.slot) && b.path == p;
      assert b in t;
    }
    if ok(a.wallet, a.slot) {
      assert a in t;
    }
  }

  /**
   * Records one more `saveToFile` call: the trace grows by that call and the
   * files are still the replay of the whole trace.
   */
  method Save(fs: Files, trace: seq<Append>, a: Append, ok: (nat, nat) -> bool, ghost start: Files)
    returns (fs': Files, trace': seq<Append>)
    requires fs == Replay(start, trace, ok)
    ensures trace' == trace + [a]
    ensures fs' == Replay(start, trace', ok)
    ensures Content(fs', a.path) == Content(fs, a.path) + (if ok(a.wallet, a.slot) then [a.data + "\n"] else [])
  {
    fs' := SaveToFile(fs, a.path, a.data, ok(a.wallet, a.slot));
    SaveToFileEffect(fs, a.path, a.data, ok(a.wallet, a.slot), a.path);
    trace' := trace + [a];
    assert trace'[..|trace'| - 1] == trace;
  }
}
