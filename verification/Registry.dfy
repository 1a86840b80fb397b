/** The registry of task names, an insertion-ordered dictionary of option records. */
module Registry {
  import opened Sequences

  type Options = map<string, int>

  class RegistryItem {
    var options: Options

    constructor (options: Options)
      ensures this.options == options
    {
      this.options := options;
    }

    /** In place, the other item's options win. */
    method Update(other: RegistryItem)
      modifies this
      ensures options == old(options) + old(other.options)
    {
      options := options + other.options;
    }
  }

  /** The other names stay in order. */
  function Without(s: seq<string>, i: nat): seq<string>
    requires i < |s|
  {
    s[..i] + s[i + 1..]
  }

  class Manager {
    const unite: bool
    var order: seq<string>
    var items: map<string, RegistryItem>

    ghost predicate Valid()
      reads this
    {
      && Distinct(order)
      && (forall n :: n in order <==> n in items)
      && (forall a, b :: a in items && b in items && items[a] == items[b] ==> a == b)
    }

    constructor (unite: bool)
      ensures Valid() && this.unite == unite && order == []
    {
      this.unite := unite;
      order, items := [], map[];
    }

    /** `ok` is false for `RegisteringTwice`; a uniting manager merges the options instead. */
    method Register(name: string, options: Options) returns (ok: bool)
      requires Valid()
      modifies this, items.Values
      ensures Valid()
      ensures ok <==> unite || name !in old(items)
      ensures name in old(items) ==> order == old(order) && items == old(items)
      ensures name !in old(items) ==>
                order == old(order) + [name] && name in items && fresh(items[name])
                && items == old(items)[name := items[name]]
      ensures ok ==> name in items
      ensures ok && name in old(items) ==> items[name].options == old(items[name].options) + options
      ensures ok && name !in old(items) ==> items[name].options == options
      ensures forall n :: n in old(items) && (n != name || !ok) ==> items[n].options == old(items[n].options)
    {
      var item := new RegistryItem(options);
      if name in items {
        if unite {
          items[name].Update(item);
          return true;
        }
        return false;
      }
      order, items := order + [name], items[name := item];
      return true;
    }

    method Names() returns (names: seq<string>)
      requires Valid()
      ensures names == order && Distinct(names)
    {
      names := order;
    }

    /** `ok` is false for a `KeyError`. */
    method Unregister(name: string) returns (ok: bool)
      requires Valid()
      modifies this
      ensures Valid() && (ok <==> name in old(items)) && items == old(items) - {name}
      ensures !ok ==> order == old(order)
      ensures ok ==> exists i :: 0 <= i < |old(order)| && old(order)[i] == name && order == Without(old(order), i)
    {
      if name !in items {
        return false;
      }
      var i := 0;
      while order[i] != name
        invariant 0 <= i < |order| && name in order[i..]
        decreases |order| - i
      {
        i := i + 1;
      }
      RemovalKeepsOrder(order, i);
      order, items := Without(order, i), items - {name};
      return true;
    }

    /** A uniting manager creates the missing item. */
    method Get(name: string) returns (item: RegistryItem?)
      requires Valid()
      modifies this
      ensures Valid()
      ensures name in old(items) ==> item == old(items)[name] && items == old(items) && order == old(order)
      ensures name !in old(items) && !unite ==> item == null && items == old(items) && order == old(order)
      ensures name !in old(items) && unite ==>
                item != null && fresh(item) && item.options == map[] && items == old(items)[name := item]
                && order == old(order) + [name]
    {
      if name in items {
        return items[name];
      }
      if unite {
        var made := new RegistryItem(map[]);
        order, items := order + [name], items[name := made];
        return made;
      }
      return null;
    }
  }

  lemma RemovalKeepsOrder(s: seq<string>, i: nat)
    requires Distinct(s) && i < |s|
    ensures Distinct(Without(s, i))
    ensures forall n :: n in Without(s, i) <==> n in s && n != s[i]
  {
    assert s == s[..i] + [s[i]] + s[i + 1..];
  }
}
