/** The preference dictionaries of flameAppFramework. A master dictionary (`prefs`,
    `prefs_user` or `prefs_global`) maps section names to sections; a `prefs_dict` view is
    bound to one master and one section name and forwards the operations it overrides to
    `master[name]`, so several views on one master share its state. */
module Prefs {
  import opened Values

  /** The outcome of `view[k]`: the stored value, or a KeyError. */
  datatype Lookup<+V> = Found(value: V) | KeyError

  /** What `pop` hands back: a stored or given value, or the shared default object of its
      `v=object()` parameter. */
  datatype Popped<+V> = Popped(value: V) | Sentinel

  /** A master preferences dictionary, a plain dict in the source. */
  class PrefsStore<K(==, !new), V> {
    var sections: map<string, map<K, V>>

    constructor ()
      ensures sections == map[]
    {
      sections := map[];
    }
  }

  class PrefsDict<K(==, !new), V> {
    const master: PrefsStore<K, V>
    const name: string

    /** The view's section exists in its master: the constructor creates it and no
        operation of any view removes a section. */
    ghost predicate Valid()
      reads this, master
    {
      name in master.sections
    }

    /** `master[name]`, the section the view stands for. */
    ghost function Section(): map<K, V>
      reads this, master
      requires Valid()
    {
      master.sections[name]
    }

    /** Binds the view and creates the section when it is missing or empty; a non-empty
        section keeps its contents. */
    constructor (master: PrefsStore<K, V>, name: string)
      modifies master
      ensures this.master == master && this.name == name && Valid()
      ensures name in old(master.sections) ==> master.sections == old(master.sections)
      ensures name !in old(master.sections) ==> master.sections == old(master.sections)[name := map[]]
    {
      this.master := master;
      this.name := name;
      new;
      if name !in master.sections || master.sections[name] == map[] {
        master.sections := master.sections[name := map[]];
      }
    }

    /** `view[k]`. */
    function GetItem(k: K): (r: Lookup<V>)
      reads this, master
      requires Valid()
      ensures r.Found? <==> k in Section()
      ensures r.Found? ==> r.value == Section()[k]
    {
      if k in master.sections[name] then Found(master.sections[name][k]) else KeyError
    }

    /** `view[k] = v`: only this view's section changes, and it now maps k to v. */
    method SetItem(k: K, v: V)
      requires Valid()
      modifies master
      ensures Valid() && master.sections.Keys == old(master.sections).Keys
      ensures master.sections == old(master.sections)[name := old(Section())[k := v]]
      ensures GetItem(k) == Found(v)
    {
      master.sections := master.sections[name := master.sections[name][k := v]];
    }

    /** `del view[k]`: a KeyError, changing nothing, when k is absent. */
    method DelItem(k: K) returns (deleted: bool)
      requires Valid()
      modifies master
      ensures deleted <==> k in old(Section())
      ensures Valid() && master.sections.Keys == old(master.sections).Keys
      ensures master.sections == old(master.sections)[name := old(Section()) - {k}]
      ensures GetItem(k) == KeyError
    {
      deleted := k in master.sections[name];
      if deleted {
        master.sections := master.sections[name := master.sections[name] - {k}];
      } else {
        assert master.sections[name] - {k} == master.sections[name];
      }
    }

    /** `view.get(k, default)`. */
    function Get(k: K, default: V): (r: V)
      reads this, master
      requires Valid()
      ensures GetItem(k).Found? ==> r == GetItem(k).value
      ensures GetItem(k).KeyError? ==> r == default
    {
      if k in master.sections[name] then master.sections[name][k] else default
    }

    /** `view.setdefault(k, default)`: returns the stored value, storing `default` first
        when k is absent. */
    method SetDefault(k: K, default: V) returns (r: V)
      requires Valid()
      modifies master
      ensures Valid() && master.sections.Keys == old(master.sections).Keys
      ensures k in old(Section()) ==> r == old(Section())[k] && master.sections == old(master.sections)
      ensures k !in old(Section()) ==> r == default && master.sections == old(master.sections)[name := old(Section())[k := default]]
      ensures GetItem(k) == Found(r)
    {
      if k in master.sections[name] {
        r := master.sections[name][k];
      } else {
        r := default;
        master.sections := master.sections[name := master.sections[name][k := default]];
      }
    }

    /** `view.pop(k)` or `view.pop(k, default)` as written: the test `v is object()`
        compares with a freshly made object and never holds, so the call always becomes
        `pop(k, v)`; without a default, a missing key yields the default object itself. */
    method Pop(k: K, default: Option<V>) returns (r: Popped<V>)
      requires Valid()
      modifies master
      ensures Valid() && master.sections.Keys == old(master.sections).Keys
      ensures k in old(Section()) ==> r == Popped(old(Section())[k]) && master.sections == old(master.sections)[name := old(Section()) - {k}]
      ensures k !in old(Section()) ==> master.sections == old(master.sections)
      ensures k !in old(Section()) && default.Some? ==> r == Popped(default.value)
      ensures k !in old(Section()) && default.None? ==> r == Sentinel
    {
      if k in master.sections[name] {
        r := Popped(master.sections[name][k]);
        master.sections := master.sections[name := master.sections[name] - {k}];
      } else if default.Some? {
        r := Popped(default.value);
      } else {
        r := Sentinel;
      }
    }

    /** `pop` as its default parameter was meant to make it behave: like `dict.pop`, a
        missing key without a default raises KeyError. */
    method PopStrict(k: K, default: Option<V>) returns (r: Lookup<V>)
      requires Valid()
      modifies master
      ensures Valid() && master.sections.Keys == old(master.sections).Keys
      ensures k in old(Section()) ==> r == Found(old(Section())[k]) && master.sections == old(master.sections)[name := old(Section()) - {k}]
      ensures k !in old(Section()) ==> master.sections == old(master.sections)
      ensures k !in old(Section()) ==> r == if default.Some? then Found(default.value) else KeyError
    {
      if k in master.sections[name] {
        r := Found(master.sections[name][k]);
        master.sections := master.sections[name := master.sections[name] - {k}];
      } else if default.Some? {
        r := Found(default.value);
      } else {
        r := KeyError;
      }
    }

    /** `view.update(mapping)`: entries of `mapping` override those of the section. */
    method Update(mapping: map<K, V>)
      requires Valid()
      modifies master
      ensures Valid() && master.sections.Keys == old(master.sections).Keys
      ensures master.sections == old(master.sections)[name := old(Section()) + mapping]
      ensures forall k :: k in mapping ==> GetItem(k) == Found(mapping[k])
      ensures forall k :: k !in mapping ==> GetItem(k) == old(GetItem(k))
    {
      master.sections := master.sections[name := master.sections[name] + mapping];
    }

    /** `k in view`. */
    function Contains(k: K): (r: bool)
      reads this, master
      requires Valid()
      ensures r <==> GetItem(k).Found?
    {
      k in master.sections[name]
    }

    /** `view.keys()`, as a set (the dictionary's order is not modelled). */
    function Keys(): (r: set<K>)
      reads this, master
      requires Valid()
      ensures forall k :: k in r <==> Contains(k)
    {
      master.sections[name].Keys
    }

    /** `view.master_keys()`: the names of every section of the master. */
    function MasterKeys(): (r: set<string>)
      reads this, master
      requires Valid()
      ensures name in r
      ensures forall n :: n in r <==> n in master.sections
    {
      master.sections.Keys
    }
  }

  /** `pop` of a key that is not there, without a default, does not raise: it hands back
      the default object and changes nothing. */
  method PopMissingKeyReturnsSentinel() returns (r: Popped<int>)
    ensures r == Sentinel
  {
    var store := new PrefsStore<string, int>();
    var view := new PrefsDict(store, "flameMenuProjectconnect");
    r := view.Pop("missing", None);
  }

  /** Two views on one master with different names are isolated: writing through one
      leaves the other's section as it was. */
  method ViewsAreIsolated(k: string, v: int) returns (other: Lookup<int>)
    ensures other == KeyError
  {
    var store := new PrefsStore<string, int>();
    var a := new PrefsDict(store, "flameKitsuConnector");
    var b := new PrefsDict(store, "flameMenuProjectconnect");
    a.SetItem(k, v);
    other := b.GetItem(k);
  }
}
