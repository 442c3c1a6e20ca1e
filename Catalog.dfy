/** The fixed price list of the photo service (`SERVICES` in bot.py).
    Python dictionaries keep insertion order, so the catalog is an ordered
    sequence of entries whose keys are pairwise distinct. */
module Catalog {
  import opened Wrappers

  /** One offering: its dictionary key, display name and starting price in roubles. */
  datatype Service = Service(key: string, name: string, priceFrom: nat)

  const Services: seq<Service> := [
    Service("restoration", "Реставрация фото", 500),
    Service("animation", "Оживление фото", 400),
    Service("souvenirs", "Сувениры", 300),
    Service("editing", "Обработка фотографий", 250)
  ]

  /** `key in entries` for a dictionary given as its ordered entries. */
  predicate Listed(entries: seq<Service>, key: string)
  {
    exists e :: e in entries && e.key == key
  }

  predicate KeysDistinct(entries: seq<Service>)
  {
    forall i, j :: 0 <= i < j < |entries| ==> entries[i].key != entries[j].key
  }

  /** Dictionary lookup over ordered entries: the entry with the given key, if any. */
  function Find(entries: seq<Service>, key: string): (r: Option<Service>)
    ensures r.Some? <==> Listed(entries, key)
    ensures r.Some? ==> r.value in entries && r.value.key == key
  {
    if entries == [] then None
    else if entries[0].key == key then Some(entries[0])
    else Find(entries[1..], key)
  }

  /** `SERVICES.get(key)`. */
  function Lookup(key: string): (r: Option<Service>)
    ensures r.Some? <==> Listed(Services, key)
    ensures r.Some? ==> r.value in Services && r.value.key == key
  {
    Find(Services, key)
  }

  lemma CatalogKeysDistinct()
    ensures KeysDistinct(Services)
  {
  }

  /** With distinct keys, the lookup returns exactly the entry that carries the key. */
  lemma {:induction false} FindUnique(entries: seq<Service>, e: Service)
    requires KeysDistinct(entries)
    requires e in entries
    ensures Find(entries, e.key) == Some(e)
  {
    if entries[0] != e {
      assert e in entries[1..];
      var k :| 0 <= k < |entries| && entries[k] == e;
      assert entries[0].key != e.key;
      FindUnique(entries[1..], e);
    }
  }

  /** `SERVICES[key]` after `key in SERVICES`: every catalog entry is found by its own key. */
  lemma LookupEntry(i: nat)
    requires i < |Services|
    ensures Lookup(Services[i].key) == Some(Services[i])
  {
    CatalogKeysDistinct();
    FindUnique(Services, Services[i]);
  }
}
