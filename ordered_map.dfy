/**
 * The two JavaScript structures `processFiles` builds its prompts from: a `Map` from
 * file path to text, which remembers the order keys were first set in, and the
 * `filter` that selects the entries whose path a backend reply mentions.
 */
module OrderedMap {
  import opened Text

  /** `Array.from(map.entries())`: (key, value) pairs in insertion order. */
  type Entries = seq<(string, string)>

  function Keys(m: Entries): (ks: seq<string>)
    ensures |ks| == |m| && forall i :: 0 <= i < |m| ==> ks[i] == m[i].0
  {
    if m == [] then [] else [m[0].0] + Keys(m[1..])
  }

  predicate Distinct(s: seq<string>) {
    forall i, j :: 0 <= i < j < |s| ==> s[i] != s[j]
  }

  /** `map.set(key, value)`: a key already present keeps its place and takes the new value; a new key goes last. */
  function MapSet(m: Entries, key: string, value: string): Entries {
    if m == [] then [(key, value)]
    else if m[0].0 == key then [(key, value)] + m[1..]
    else [m[0]] + MapSet(m[1..], key, value)
  }

  /** `key` appended to `ks` unless already there. */
  function AddKey(ks: seq<string>, key: string): seq<string> {
    if key in ks then ks else ks + [key]
  }

  /** The keys after setting each of `ps` in turn, starting from `ks`: first occurrences, in order. */
  function Dedupe(ks: seq<string>, ps: seq<string>): seq<string>
    decreases ps
  {
    if ps == [] then ks else Dedupe(AddKey(ks, ps[0]), ps[1..])
  }

  /** Setting a key never reorders the map: it keeps or appends that key. */
  lemma {:induction false} MapSetKeys(m: Entries, key: string, value: string)
    ensures Keys(MapSet(m, key, value)) == AddKey(Keys(m), key)
  {
    if m != [] {
      var rest := MapSet(m[1..], key, value);
      if m[0].0 == key {
        assert key in Keys(m);
        assert MapSet(m, key, value)[1..] == m[1..];
      } else {
        MapSetKeys(m[1..], key, value);
        assert MapSet(m, key, value)[1..] == rest;
        assert key in Keys(m) <==> key in Keys(m[1..]);
      }
    }
  }

  /** With distinct keys, after `set(key, value)` the map holds `(key, value)` and otherwise what it held under other keys. */
  lemma MapSetEntries(m: Entries, key: string, value: string)
    requires Distinct(Keys(m))
    ensures Distinct(Keys(MapSet(m, key, value)))
    ensures forall e :: e in MapSet(m, key, value) <==> e == (key, value) || (e in m && e.0 != key)
  {
    MapSetKeys(m, key, value);
    AddKeyDistinct(Keys(m), key);
    MapSetMembers(m, key, value);
  }

  lemma {:induction false} MapSetMembers(m: Entries, key: string, value: string)
    requires Distinct(Keys(m))
    ensures forall e :: e in MapSet(m, key, value) <==> e == (key, value) || (e in m && e.0 != key)
  {
    if m != [] {
      var ks := Keys(m);
      if m[0].0 == key {
        forall e | e in m[1..]
          ensures e.0 != key
        {
          var i :| 0 <= i < |m[1..]| && m[1..][i] == e;
          assert ks[i + 1] == e.0 && ks[0] == key;
        }
      } else {
        assert Keys(m[1..]) == ks[1..];
        MapSetMembers(m[1..], key, value);
      }
    }
  }

  lemma AddKeyDistinct(ks: seq<string>, key: string)
    requires Distinct(ks)
    ensures Distinct(AddKey(ks, key))
  {
    var ks' := AddKey(ks, key);
    forall i, j | 0 <= i < j < |ks'|
      ensures ks'[i] != ks'[j]
    {
      if j == |ks| {
        assert ks'[i] == ks[i];
      }
    }
  }

  /** Setting the keys `ps` in turn leaves each of them, and those already there, exactly once. */
  lemma {:induction false} DedupeFacts(ks: seq<string>, ps: seq<string>)
    requires Distinct(ks)
    ensures Distinct(Dedupe(ks, ps))
    ensures forall k :: k in Dedupe(ks, ps) <==> k in ks || k in ps
    decreases ps
  {
    if ps != [] {
      AddKeyDistinct(ks, ps[0]);
      DedupeFacts(AddKey(ks, ps[0]), ps[1..]);
      assert forall k :: k in ps <==> k == ps[0] || k in ps[1..];
    }
  }

  /** Keys that are already distinct are set in the order given. */
  lemma {:induction false} DedupeOfDistinct(ks: seq<string>, ps: seq<string>)
    requires Distinct(ks + ps)
    ensures Dedupe(ks, ps) == ks + ps
    decreases ps
  {
    if ps != [] {
      forall i | 0 <= i < |ks|
        ensures ks[i] != ps[0]
      {
        assert (ks + ps)[i] == ks[i] && (ks + ps)[|ks|] == ps[0];
      }
      assert AddKey(ks, ps[0]) == ks + [ps[0]];
      assert ks + [ps[0]] + ps[1..] == ks + ps;
      DedupeOfDistinct(ks + [ps[0]], ps[1..]);
    }
  }

  /**
   * `entries.filter(({filePath}) => reply.includes(filePath))`: the entries whose key
   * occurs in `reply`, in their original order.
   */
  function Keep(entries: Entries, reply: string): (kept: Entries)
    ensures |kept| <= |entries|
    ensures forall e :: e in kept <==> e in entries && Contains(reply, e.0)
  {
    if entries == [] then []
    else
      var rest := Keep(entries[1..], reply);
      assert forall e :: e in entries <==> e == entries[0] || e in entries[1..];
      if Contains(reply, entries[0].0) then [entries[0]] + rest else rest
  }

  /** Filtering keeps relative order: it distributes over concatenation. */
  lemma {:induction false} KeepAppend(a: Entries, b: Entries, reply: string)
    ensures Keep(a + b, reply) == Keep(a, reply) + Keep(b, reply)
  {
    if a == [] {
      assert a + b == b;
    } else {
      var ab := a + b;
      assert ab != [] && ab[0] == a[0] && ab[1..] == a[1..] + b;
      KeepAppend(a[1..], b, reply);
    }
  }

  /** A reply that mentions every key keeps every entry; one that mentions none keeps nothing. */
  lemma {:induction false} KeepAllOrNothing(entries: Entries, reply: string)
    ensures (forall e :: e in entries ==> Contains(reply, e.0)) ==> Keep(entries, reply) == entries
    ensures (forall e :: e in entries ==> !Contains(reply, e.0)) ==> Keep(entries, reply) == []
  {
    if entries != [] {
      KeepAllOrNothing(entries[1..], reply);
      assert entries[0] in entries;
      assert forall e :: e in entries[1..] ==> e in entries;
      assert [entries[0]] + entries[1..] == entries;
    }
  }
}
