/** The sphere alias sidecar of `config.rs`: what is written, what reads back,
    and what pruning keeps. Case folding and stripping stand in as functions. */
module SphereAliases {

  import opened Wrappers

  datatype Alias = Alias(key: string, value: string)

  /** `fold` is `casefold_token` and `strip` is `python_strip`. */
  datatype Text = Text(fold: string -> string, strip: string -> string)

  /** Folding and stripping what is already folded or stripped changes nothing. */
  ghost predicate Settled(t: Text) {
    (forall s: string :: t.fold(t.fold(s)) == t.fold(s)) && forall s: string :: t.strip(t.strip(s)) == t.strip(s)
  }

  /** The position of a key in a list of aliases, or its length. */
  function Find(cleaned: seq<Alias>, key: string): (i: nat)
    ensures i <= |cleaned|
    ensures i < |cleaned| ==> cleaned[i].key == key
    ensures forall j :: 0 <= j < i ==> cleaned[j].key != key
  {
    if cleaned == [] then 0
    else if cleaned[0].key == key then 0
    else Find(cleaned[1..], key) + 1
  }

  /** One alias added: a key that folds onto an earlier one replaces its value in
      place, a new one goes to the end, an empty key or value is dropped. */
  function Add(t: Text, cleaned: seq<Alias>, a: Alias): seq<Alias> {
    var key, value := t.fold(a.key), t.strip(a.value);
    if key == "" || value == "" then cleaned
    else Set(cleaned, key, value)
  }

  function Clean(t: Text, aliases: seq<Alias>): seq<Alias> {
    if aliases == [] then [] else Add(t, Clean(t, aliases[..|aliases| - 1]), aliases[|aliases| - 1])
  }

  /** What the reader collects: of the entries that fold alike the last one wins. */
  function Read(t: Text, entries: seq<Alias>): map<string, string> {
    if entries == [] then map[] else
      var before, a := Read(t, entries[..|entries| - 1]), entries[|entries| - 1];
      if t.fold(a.key) == "" || t.strip(a.value) == "" then before else before[t.fold(a.key) := t.strip(a.value)]
  }

  predicate DistinctKeys(cleaned: seq<Alias>) { forall i, j :: 0 <= i < j < |cleaned| ==> cleaned[i].key != cleaned[j].key }

  /** Every entry is folded, stripped and non-empty. */
  predicate Neat(t: Text, cleaned: seq<Alias>) {
    forall i :: 0 <= i < |cleaned| ==> NeatAlias(t, cleaned[i])
  }

  predicate NeatAlias(t: Text, a: Alias) { t.fold(a.key) == a.key && t.strip(a.value) == a.value && a.key != "" && a.value != "" }

  lemma {:induction false} CleanIsNeat(t: Text, aliases: seq<Alias>)
    requires Settled(t)
    ensures DistinctKeys(Clean(t, aliases)) && Neat(t, Clean(t, aliases))
  {
    if aliases != [] { CleanIsNeat(t, aliases[..|aliases| - 1]); }
  }

  /** A list with distinct keys, as the map it spells. */
  predicate Spells(cleaned: seq<Alias>, m: map<string, string>) {
    && (forall i :: 0 <= i < |cleaned| ==> cleaned[i].key in m && m[cleaned[i].key] == cleaned[i].value)
    && (forall k | k in m :: Find(cleaned, k) < |cleaned|)
  }

  lemma {:induction false} CleanSpellsRead(t: Text, aliases: seq<Alias>)
    requires Settled(t)
    ensures Spells(Clean(t, aliases), Read(t, aliases))
  {
    if aliases != [] {
      var n := |aliases| - 1;
      CleanSpellsRead(t, aliases[..n]);
      CleanIsNeat(t, aliases[..n]);
      var key, value := t.fold(aliases[n].key), t.strip(aliases[n].value);
      if key != "" && value != "" { AddSpells(Clean(t, aliases[..n]), Read(t, aliases[..n]), key, value); }
    }
  }

  /** The list with the key's value set, in place or at the end. */
  function Set(cleaned: seq<Alias>, key: string, value: string): seq<Alias> {
    var at := Find(cleaned, key);
    if at < |cleaned| then cleaned[at := Alias(key, value)] else cleaned + [Alias(key, value)]
  }

  lemma AddSpells(cleaned: seq<Alias>, m: map<string, string>, key: string, value: string)
    requires Spells(cleaned, m) && DistinctKeys(cleaned)
    ensures Spells(Set(cleaned, key, value), m[key := value])
  {
    var at, out, next := Find(cleaned, key), Set(cleaned, key, value), m[key := value];
    forall i | 0 <= i < |out| ensures out[i].key in next && next[out[i].key] == out[i].value {
      if i != at && i < |cleaned| { assert cleaned[i].key != key; }
    }
    forall k | k in next ensures Find(out, k) < |out| {
      FindSet(cleaned, key, value, k);
    }
  }

  /** Setting one key finds it, and moves no other. */
  lemma FindSet(cleaned: seq<Alias>, key: string, value: string, k: string)
    ensures k == key ==> Find(Set(cleaned, key, value), k) == Find(cleaned, key) < |Set(cleaned, key, value)|
    ensures k != key && Find(cleaned, k) < |cleaned| ==> Find(Set(cleaned, key, value), k) == Find(cleaned, k)
    ensures k != key && Find(cleaned, k) == |cleaned| ==> Find(Set(cleaned, key, value), k) == |Set(cleaned, key, value)|
  {
    if Find(cleaned, key) < |cleaned| {
      SameKeys(Set(cleaned, key, value), cleaned, k);
    } else {
      FindAppend(cleaned, Alias(key, value), k);
    }
  }

  lemma {:induction false} SameKeys(a: seq<Alias>, b: seq<Alias>, k: string)
    requires |a| == |b| && forall i :: 0 <= i < |a| ==> a[i].key == b[i].key
    ensures Find(a, k) == Find(b, k)
  {
    if a != [] { SameKeys(a[1..], b[1..], k); }
  }

  lemma {:induction false} FindAppend(a: seq<Alias>, x: Alias, k: string)
    ensures Find(a, k) < |a| ==> Find(a + [x], k) == Find(a, k)
    ensures Find(a, k) == |a| ==> Find(a + [x], k) == if x.key == k then |a| else |a| + 1
  {
    if a == [] {
      assert a + [x] == [x] && [x][1..] == [];
    } else {
      FindAppend(a[1..], x, k);
      assert (a + [x])[1..] == a[1..] + [x];
    }
  }

  lemma {:induction false} ReadSpells(t: Text, cleaned: seq<Alias>)
    requires DistinctKeys(cleaned) && Neat(t, cleaned)
    ensures Spells(cleaned, Read(t, cleaned))
  {
    if cleaned != [] {
      var n := |cleaned| - 1;
      ReadSpells(t, cleaned[..n]);
      var before, m := Read(t, cleaned[..n]), Read(t, cleaned);
      assert NeatAlias(t, cleaned[n]);
      forall i | 0 <= i < |cleaned| ensures cleaned[i].key in m && m[cleaned[i].key] == cleaned[i].value {
        if i < n { assert cleaned[..n][i] == cleaned[i]; }
      }
      forall k | k in m ensures Find(cleaned, k) < |cleaned| {
        var i := if k == cleaned[n].key then n else Find(cleaned[..n], k);
        assert cleaned[i].key == k;
      }
    }
  }

  lemma SpellsOne(cleaned: seq<Alias>, m: map<string, string>, m': map<string, string>)
    requires Spells(cleaned, m) && Spells(cleaned, m')
    ensures m == m'
  {
    forall k | k in m ensures k in m' && m'[k] == m[k] { assert cleaned[Find(cleaned, k)].key == k; }
    forall k | k in m' ensures k in m { assert cleaned[Find(cleaned, k)].key == k; }
  }

  /** What is written reads back as the aliases themselves read: every folded key
      with its last value, whatever collided on the way. */
  lemma WrittenAliasesReadBack(t: Text, aliases: seq<Alias>)
    requires Settled(t)
    ensures Read(t, Clean(t, aliases)) == Read(t, aliases)
  {
    hide Clean, Read, Spells, Settled, DistinctKeys, Neat;
    CleanIsNeat(t, aliases);
    CleanSpellsRead(t, aliases);
    ReadSpells(t, Clean(t, aliases));
    SpellsOne(Clean(t, aliases), Read(t, Clean(t, aliases)), Read(t, aliases));
  }

  /** `write_sphere_aliases`: the list that is serialized, built with the
      positions of the keys seen so far. */
  method WriteSphereAliases(t: Text, aliases: seq<Alias>) returns (cleaned: seq<Alias>)
    ensures cleaned == Clean(t, aliases)
  {
    hide Find;
    var positions: map<string, nat> := map[];
    cleaned := [];
    for i := 0 to |aliases|
      invariant cleaned == Clean(t, aliases[..i])
      invariant forall k :: k in positions <==> Find(cleaned, k) < |cleaned|
      invariant forall k | k in positions :: positions[k] == Find(cleaned, k)
    {
      CleanStep(t, aliases, i);
      var key, value := t.fold(aliases[i].key), t.strip(aliases[i].value);
      if key == "" || value == "" { continue; }
      forall k { FindSet(cleaned, key, value, k); }
      if key in positions {
        cleaned := cleaned[positions[key] := Alias(key, value)];
      } else {
        positions := positions[key := |cleaned|];
        cleaned := cleaned + [Alias(key, value)];
      }
    }
    assert aliases[..|aliases|] == aliases;
  }

  lemma CleanStep(t: Text, aliases: seq<Alias>, i: nat)
    requires i < |aliases|
    ensures Clean(t, aliases[..i + 1]) == Add(t, Clean(t, aliases[..i]), aliases[i])
  {
    assert aliases[..i + 1][..i] == aliases[..i];
  }

  /** `prune_stale_sphere_aliases`: keep the aliases of live tokens, and write only
      when something goes. */
  method PruneStaleSphereAliases(t: Text, entries: seq<Alias>, live: set<string>, listed: seq<Alias>)
    returns (kept: map<string, string>, written: Option<seq<Alias>>)
    requires Settled(t) && Listed(listed, Read(t, entries), live)
    ensures kept == Kept(Read(t, entries), live)
    ensures forall k :: k in kept <==> k in Read(t, entries) && k in live
    ensures forall k | k in kept :: kept[k] == Read(t, entries)[k]
    ensures written.None? <==> kept == Read(t, entries)
    ensures Read(t, if written.Some? then written.value else entries) == kept
  {
    var aliases := Read(t, entries);
    kept := Kept(aliases, live);
    if kept == aliases { return kept, None; }
    var cleaned := WriteSphereAliases(t, listed);
    WrittenAliasesReadBack(t, listed);
    ListedReads(t, entries, listed, live);
    written := Some(cleaned);
  }

  function Kept(aliases: map<string, string>, live: set<string>): map<string, string> { map k | k in aliases && k in live :: aliases[k] }

  /** The entries of the kept map, in some order. */
  predicate Listed(listed: seq<Alias>, aliases: map<string, string>, live: set<string>) {
    DistinctKeys(listed) && Spells(listed, Kept(aliases, live))
  }

  lemma {:induction false} ReadIsNeat(t: Text, entries: seq<Alias>)
    requires Settled(t)
    ensures forall k | k in Read(t, entries) :: NeatAlias(t, Alias(k, Read(t, entries)[k]))
  {
    if entries != [] { ReadIsNeat(t, entries[..|entries| - 1]); }
  }

  lemma ListedReads(t: Text, entries: seq<Alias>, listed: seq<Alias>, live: set<string>)
    requires Settled(t) && Listed(listed, Read(t, entries), live)
    ensures Read(t, listed) == Kept(Read(t, entries), live)
  {
    hide Read, Settled;
    ReadIsNeat(t, entries);
    forall i | 0 <= i < |listed| ensures NeatAlias(t, listed[i]) {
      assert listed[i] == Alias(listed[i].key, Read(t, entries)[listed[i].key]);
    }
    ReadSpells(t, listed);
    SpellsOne(listed, Read(t, listed), Kept(Read(t, entries), live));
  }

  // ----------------------------------------------------- what the maps hold

  /** The entry names the key and says something. */
  predicate Names(t: Text, a: Alias, key: string) { t.fold(a.key) == key && key != "" && t.strip(a.value) != "" }

  /** The last entry that names the key. */
  function LastNaming(t: Text, entries: seq<Alias>, key: string): (last: Option<nat>)
    ensures last.Some? ==> last.value < |entries| && Names(t, entries[last.value], key)
    ensures forall j :: (if last.Some? then last.value + 1 else 0) <= j < |entries| ==> !Names(t, entries[j], key)
  {
    if entries == [] then None
    else if Names(t, entries[|entries| - 1], key) then Some(|entries| - 1)
    else
      assert forall j :: 0 <= j < |entries| - 1 ==> entries[..|entries| - 1][j] == entries[j];
      LastNaming(t, entries[..|entries| - 1], key)
  }

  /** A key is read exactly when some entry names it, and then with the value of the last
      entry that does. */
  lemma {:induction false} ReadTakesLast(t: Text, entries: seq<Alias>, key: string)
    ensures key in Read(t, entries) <==> LastNaming(t, entries, key).Some?
    ensures key in Read(t, entries) ==>
      Read(t, entries)[key] == t.strip(entries[LastNaming(t, entries, key).value].value)
  {
    if entries != [] { ReadTakesLast(t, entries[..|entries| - 1], key); }
  }
}
