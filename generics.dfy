/**
 * The generic `SetDefault` helper, which gives a .NET dictionary Python's
 * `dict.setdefault` behaviour: look the key up, and when it is missing store
 * the default under it; either way return what is now stored under the key.
 */
module Generics {
  import opened Wrappers

  /**
   * The effect of SetDefault on a dictionary's contents m: the contents
   * afterwards and the value returned. A present key keeps its entry and is
   * answered from it; a missing key gains exactly the default entry.
   */
  function SetDefaultOnMap<K, V>(m: map<K, V>, key: K, defaultItem: V): (r: (map<K, V>, V))
    ensures r.0.Keys == m.Keys + {key}
    ensures forall k :: k in m ==> r.0[k] == m[k]
    ensures r.0[key] == r.1
    ensures key !in m ==> r.1 == defaultItem
  {
    if key in m then (m, m[key]) else (m[key := defaultItem], defaultItem)
  }

  /** A present key: the answer is the stored value and the contents do not change. */
  lemma SetDefaultPresent<K, V>(m: map<K, V>, key: K, defaultItem: V)
    requires key in m
    ensures SetDefaultOnMap(m, key, defaultItem) == (m, m[key])
  {
    var r := SetDefaultOnMap(m, key, defaultItem);
    assert r.0.Keys == m.Keys;
  }

  /** A missing key: the contents gain key ↦ defaultItem and nothing else, and the default is returned. */
  lemma SetDefaultAbsent<K, V>(m: map<K, V>, key: K, defaultItem: V)
    requires key !in m
    ensures SetDefaultOnMap(m, key, defaultItem) == (m[key := defaultItem], defaultItem)
  {
    var r := SetDefaultOnMap(m, key, defaultItem);
    assert r.0.Keys == (m[key := defaultItem]).Keys;
  }

  /** Calling SetDefault again on the same key, with whatever default, changes nothing and gives the same answer. */
  lemma SetDefaultIdempotent<K, V>(m: map<K, V>, key: K, d1: V, d2: V)
    ensures var (m1, v1) := SetDefaultOnMap(m, key, d1);
            SetDefaultOnMap(m1, key, d2) == (m1, v1)
  {
    var (m1, v1) := SetDefaultOnMap(m, key, d1);
    SetDefaultPresent(m1, key, d2);
  }

  /** A .NET IDictionary, reduced to its contents and the two members SetDefault uses. */
  class Dictionary<K(==), V> {
    var entries: map<K, V>

    constructor (initial: map<K, V>)
      ensures entries == initial
    {
      entries := initial;
    }

    /** TryGetValue: the stored value when the key is present. */
    function TryGetValue(key: K): (r: Option<V>)
      reads this
      ensures r.Some? <==> key in entries
      ensures r.Some? ==> r.value == entries[key]
    {
      if key in entries then Some(entries[key]) else None
    }

    /** The indexer's setter: adds the entry, or replaces the value of an existing one. */
    method SetItem(key: K, value: V)
      modifies this
      ensures entries == old(entries)[key := value]
    {
      entries := entries[key := value];
    }
  }

  /** SetDefault, updating the dictionary in place. */
  method SetDefault<K(==), V>(dictionary: Dictionary<K, V>, key: K, defaultItem: V) returns (result: V)
    modifies dictionary
    ensures (dictionary.entries, result) == SetDefaultOnMap(old(dictionary.entries), key, defaultItem)
  {
    var found := dictionary.TryGetValue(key);
    if found.None? {
      dictionary.SetItem(key, defaultItem);
      return defaultItem;
    }
    result := found.value;
  }

  /** The phone book demonstration: a new name gets "No Phone", a known name keeps its number. */
  method PhonebookDemo() returns (shaun: string, sarah: string)
    ensures shaun == "No Phone"
    ensures sarah == "212 555 5555"
  {
    var phonebook := new Dictionary<string, string>(map["Sarah" := "212 555 5555"]);
    shaun := SetDefault(phonebook, "Shaun", "No Phone");
    sarah := SetDefault(phonebook, "Sarah", "No Phone");
  }
}
