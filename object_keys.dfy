/** The order in which JavaScript lists the keys of a plain object
    (`Object.keys`, `Object.entries`): keys that are array indices come first
    in ascending numeric order, then the other string keys in the order they
    were first assigned. */
module ObjectKeys {
  import opened Seqs
  import opened Text

  /** The largest array index, 2^32 - 2. */
  const MaxArrayIndex: nat := 4294967294

  /** A canonical decimal numeral (no sign, no leading zero) of at most 2^32 - 2. */
  predicate IsArrayIndex(k: string)
  {
    k != [] && AllDigits(k) && (k[0] != '0' || k == "0") && DigitsValue(k) <= MaxArrayIndex
  }

  function IsIndexKey(): string -> bool
  {
    k => IsArrayIndex(k)
  }

  function IsNamedKey(): string -> bool
  {
    k => !IsArrayIndex(k)
  }

  /** The numeric value of a key, 0 for keys that are no numerals. */
  function KeyValue(k: string): nat
  {
    if AllDigits(k) then DigitsValue(k) else 0
  }

  function IndexOrder(): (string, string) -> bool
  {
    (a, b) => KeyValue(a) <= KeyValue(b)
  }

  lemma IndexOrderIsTotalPreorder()
    ensures TotalPreorder(IndexOrder())
  {
  }

  /** The enumeration order of an object whose keys were first assigned in
      the order `keys`. */
  function EntriesOrder(keys: seq<string>): seq<string>
  {
    SortBy(Filter(keys, IsIndexKey()), IndexOrder()) + Filter(keys, IsNamedKey())
  }

  /** Enumeration lists every key exactly as often as it was inserted. */
  lemma EntriesOrderPermutes(keys: seq<string>)
    ensures multiset(EntriesOrder(keys)) == multiset(keys)
  {
    var a, b := Filter(keys, IsIndexKey()), Filter(keys, IsNamedKey());
    forall x
      ensures multiset(a + b)[x] == multiset(keys)[x]
    {
      FilterMultiset(keys, IsIndexKey(), x);
      FilterMultiset(keys, IsNamedKey(), x);
    }
    assert multiset(a + b) == multiset(keys);
  }

  /** The index keys come first, in ascending numeric order, and the named
      keys follow in insertion order. */
  lemma EntriesOrderShape(keys: seq<string>)
    ensures EntriesOrder(keys)[|Filter(keys, IsIndexKey())|..] == Filter(keys, IsNamedKey())
    ensures Sorted(EntriesOrder(keys)[..|Filter(keys, IsIndexKey())|], IndexOrder())
  {
    var a := SortBy(Filter(keys, IsIndexKey()), IndexOrder());
    IndexOrderIsTotalPreorder();
    SortBySorted(Filter(keys, IsIndexKey()), IndexOrder());
    assert EntriesOrder(keys)[..|a|] == a;
  }

  /** Without index keys, enumeration is insertion order. */
  lemma EntriesOrderOfNames(keys: seq<string>)
    requires forall i :: 0 <= i < |keys| ==> !IsArrayIndex(keys[i])
    ensures EntriesOrder(keys) == keys
  {
    FilterNone(keys, IsIndexKey());
    FilterAll(keys, IsNamedKey());
  }
}
