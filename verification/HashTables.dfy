/** The chained table from thread ids to values. */
module HashTables {
  import opened LinkedLists
  import opened Options
  import opened ReadyQueue

  datatype Entry<V> = Entry(key: Tid, value: V)

  /** A bucket holds exactly the entries of the map whose hash leads there, each once. */
  ghost predicate Bucket<V>(es: seq<Entry<V>>, m: map<Tid, V>, hash: Tid -> nat, capacity: nat, index: nat)
    requires capacity > 0
  {
    && (forall i :: 0 <= i < |es| ==>
          es[i].key in m && m[es[i].key] == es[i].value && hash(es[i].key) % capacity == index)
    && (forall i, j :: 0 <= i < j < |es| ==> es[i].key != es[j].key)
    && (forall key :: key in m && hash(key) % capacity == index ==> exists i :: 0 <= i < |es| && es[i].key == key)
  }

  lemma BucketGrows<V>(es: seq<Entry<V>>, m: map<Tid, V>, hash: Tid -> nat, capacity: nat, index: nat, e: Entry<V>)
    requires capacity > 0 && Bucket(es, m, hash, capacity, index) && e.key !in m
    ensures var m' := m[e.key := e.value];
            Bucket(if hash(e.key) % capacity == index then [e] + es else es, m', hash, capacity, index)
  {
    var m', es' := m[e.key := e.value], if hash(e.key) % capacity == index then [e] + es else es;
    forall key | key in m' && hash(key) % capacity == index ensures exists i :: 0 <= i < |es'| && es'[i].key == key {
      if key in m {
        var i :| 0 <= i < |es| && es[i].key == key;
        assert es'[if hash(e.key) % capacity == index then i + 1 else i].key == key;
      } else {
        assert es'[0].key == key;
      }
    }
  }

  class HashTable<V> {
    const capacity: nat
    const hash: Tid -> nat
    const lists: array<LinkedList<Entry<V>>>
    var size: nat
    ghost var entries: map<Tid, V>
    ghost var parts: set<object>  // everything but this

    /** The buckets are separate lists. */
    ghost predicate Shape()
      reads `parts, parts
    {
      && this !in parts && lists in parts && capacity > 0 && lists.Length == capacity
      && (forall i :: 0 <= i < capacity ==>
            lists[i] in parts && lists[i].Repr <= parts && lists[i].Valid())
      && (forall i, j :: 0 <= i < j < capacity ==> lists[i] != lists[j])
    }

    /** Every key is in its own bucket. */
    ghost predicate Valid()
      reads this, parts
    {
      Shape() && forall i :: 0 <= i < capacity ==> Bucket(lists[i].contents, entries, hash, capacity, i)
    }

    /** The loop of initialize_hashtable. */
    static method NewLists(capacity: nat) returns (table: array<LinkedList<Entry<V>>>, ghost lists: set<object>)
      ensures fresh(table) && table.Length == capacity && fresh(lists) && table !in lists
      ensures forall i :: 0 <= i < capacity ==>
                table[i] in lists && table[i].Repr <= lists && table[i].Valid() && table[i].contents == []
      ensures forall i, j :: 0 <= i < j < capacity ==> table[i] != table[j]
    {
      var first := new LinkedList<Entry<V>>();
      table := new LinkedList<Entry<V>>[capacity](i => first);
      lists := {};
      var i := 0;
      while i < capacity
        invariant i <= capacity && fresh(lists) && table !in lists
        invariant forall j :: 0 <= j < i ==>
                    table[j] in lists && table[j].Repr <= lists && table[j].Valid() && table[j].contents == []
        invariant forall j, k :: 0 <= j < k < i ==> table[j] != table[k]
      {
        table[i] := new LinkedList<Entry<V>>();
        lists := lists + {table[i]};
        i := i + 1;
      }
    }

    constructor (capacity: nat, hash: Tid -> nat)
      requires capacity > 0
      ensures Valid() && fresh(parts) && this !in parts && entries == map[]
    {
      this.capacity, this.hash := capacity, hash;
      var table, buckets := NewLists(capacity);
      lists, size, entries, parts := table, 0, map[], {table} + buckets;
    }

    method GetValue(key: Tid) returns (value: Option<V>)
      requires Valid()
      ensures value == if key in entries then Some(entries[key]) else None
    {
      var index := hash(key) % capacity;
      var list := lists[index];
      var curr := list.head;
      ghost var k := 0;
      while curr != null
        invariant k <= |list.spine| && curr == if k < |list.spine| then list.spine[k] else null
        invariant forall i :: 0 <= i < k ==> list.contents[i].key != key
        decreases |list.spine| - k
      {
        if curr.data.key == key {
          return Some(curr.data.value);
        }
        curr := curr.next;
        k := k + 1;
      }
      return None;
    }

    method HasValue(key: Tid) returns (found: bool)
      requires Valid()
      ensures found <==> key in entries
    {
      var value := GetValue(key);
      found := value.Some?;
    }

    method Chain(index: nat, entry: Entry<V>)
      requires Shape() && index < capacity
      modifies lists[index], `parts
      ensures Shape() && fresh(parts - old(parts))
      ensures forall i :: 0 <= i < capacity ==>
                lists[i].contents == if i == index then [entry] + old(lists[i].contents) else old(lists[i].contents)
    {
      lists[index].AddFirst(entry);
      parts := parts + lists[index].Repr;
    }

    /** Defined for a key that is not there yet: putting an existing one overwrites part of the stored value. */
    method Put(key: Tid, value: V)
      requires Valid() && key !in entries
      modifies this, parts
      ensures Valid() && fresh(parts - old(parts))
      ensures entries == old(entries)[key := value]
    {
      hide Bucket;
      var index := hash(key) % capacity;
      var entry := Entry(key, value);
      var empty := lists[index].IsEmpty();
      if empty {
        size := size + 1;
      }
      Chain(index, entry);
      forall i | 0 <= i < capacity ensures Bucket(lists[i].contents, old(entries)[key := value], hash, capacity, i) {
        BucketGrows(old(lists[i].contents), old(entries), hash, capacity, i, entry);
      }
      entries := entries[key := value];
    }
  }
}
