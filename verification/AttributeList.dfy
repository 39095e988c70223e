/** The loop of parseAttrs over any reader of single attributes: what it accepts, and
    that it reads back what was laid out for it. */
module AttributeList {
  datatype Option<+T> = None | Some(value: T)

  /** One attribute as read: its key and value, and the position after it. */
  datatype Item<K, V> = Malformed | Item(key: K, value: V, next: nat)

  /** What one item does to the loop: it ends it, or goes on behind the comma. */
  datatype Turn<K, V> = Ends(result: Option<map<K, V>>) | Goes(attrs: map<K, V>)

  function TurnOf<K(==), V>(item: Item<K, V>, comma: nat -> bool, n: nat, attrs: map<K, V>): Turn<K, V> {
    if item.Malformed? || item.key in attrs then Ends(None)
    else if item.next == n then Ends(Some(attrs[item.key := item.value]))
    else if !comma(item.next) || item.next + 1 == n then Ends(None)
    else Goes(attrs[item.key := item.value])
  }

  /** Items end behind their start and within the text. */
  ghost predicate Forward<K(!new), V(!new)>(read: nat -> Item<K, V>, n: nat) {
    forall k: nat | k < n && read(k).Item? :: k < read(k).next <= n
  }

  /** The attributes from position i on, added to those already read. */
  function ReadFrom<K(==, !new), V(!new)>(read: nat -> Item<K, V>, comma: nat -> bool, n: nat, i: nat, attrs: map<K, V>): Option<map<K, V>>
    requires i <= n && Forward(read, n)
    decreases n - i
  {
    if i == n then Some(attrs)
    else
      var turn := TurnOf(read(i), comma, n, attrs);
      if turn.Ends? then turn.result else ReadFrom(read, comma, n, read(i).next + 1, turn.attrs)
  }

  lemma OneTurn<K(!new), V(!new)>(read: nat -> Item<K, V>, comma: nat -> bool, n: nat, i: nat, attrs: map<K, V>, item: Item<K, V>)
    requires i < n && Forward(read, n) && item == read(i)
    ensures item.Item? ==> i < item.next <= n
    ensures var turn := TurnOf(item, comma, n, attrs);
      if turn.Ends? then ReadFrom(read, comma, n, i, attrs) == turn.result
      else item.Item? && item.next + 1 <= n && ReadFrom(read, comma, n, i, attrs) == ReadFrom(read, comma, n, item.next + 1, turn.attrs)
  {
  }

  datatype Entry<K, V> = Entry(key: K, value: V)

  /** The reader finds these entries from position i on, separated by commas, to the end. */
  predicate Laid<K(==), V(==)>(read: nat -> Item<K, V>, comma: nat -> bool, n: nat, i: nat, entries: seq<Entry<K, V>>)
    decreases |entries|
  {
    && entries != [] && i < n && read(i).Item? && Entry(read(i).key, read(i).value) == entries[0]
    && var end := read(i).next;
       if |entries| == 1 then end == n else end + 1 < n && comma(end) && Laid(read, comma, n, end + 1, entries[1..])
  }

  /** Distinct keys, none of them taken. */
  predicate Untaken<K(==), V>(entries: seq<Entry<K, V>>, taken: set<K>)
    decreases |entries|
  {
    entries == [] || (entries[0].key !in taken && Untaken(entries[1..], taken + {entries[0].key}))
  }

  function AddAll<K(==), V>(m: map<K, V>, entries: seq<Entry<K, V>>): map<K, V>
    decreases |entries|
  {
    if entries == [] then m else AddAll(m[entries[0].key := entries[0].value], entries[1..])
  }

  predicate Listed<K(==), V>(entries: seq<Entry<K, V>>, k: K) { exists j | 0 <= j < |entries| :: entries[j].key == k }

  lemma ListedFirst<K, V>(entries: seq<Entry<K, V>>, k: K)
    requires entries != []
    ensures Listed(entries, k) <==> entries[0].key == k || Listed(entries[1..], k)
  {
    assert forall j | 0 < j < |entries| :: entries[j] == entries[1..][j - 1];
    if Listed(entries[1..], k) {
      var j :| 0 <= j < |entries| - 1 && entries[1..][j].key == k;
      assert entries[j + 1].key == k;
    }
  }

  /** The map that entries with distinct new keys make: their keys and those before, each with its value. */
  lemma {:induction false} AddAllMeans<K(!new), V>(m: map<K, V>, entries: seq<Entry<K, V>>)
    requires Untaken(entries, m.Keys)
    ensures forall k :: k in AddAll(m, entries) <==> k in m || Listed(entries, k)
    ensures forall k | k in m :: AddAll(m, entries)[k] == m[k]
    ensures forall j | 0 <= j < |entries| :: entries[j].key in AddAll(m, entries) && AddAll(m, entries)[entries[j].key] == entries[j].value
    decreases |entries|
  {
    if entries != [] {
      var more := m[entries[0].key := entries[0].value];
      assert more.Keys == m.Keys + {entries[0].key};
      AddAllMeans(more, entries[1..]);
      UntakenKeys(entries, m.Keys);
      forall k ensures Listed(entries, k) <==> entries[0].key == k || Listed(entries[1..], k) { ListedFirst(entries, k); }
      assert forall j | 0 < j < |entries| :: entries[j] == entries[1..][j - 1];
    }
  }

  lemma {:induction false} UntakenKeys<K, V>(entries: seq<Entry<K, V>>, taken: set<K>)
    requires Untaken(entries, taken)
    ensures forall j | 0 <= j < |entries| :: entries[j].key !in taken
    decreases |entries|
  {
    if entries != [] {
      UntakenKeys(entries[1..], taken + {entries[0].key});
      assert forall j | 0 < j < |entries| :: entries[j] == entries[1..][j - 1];
    }
  }

  lemma {:induction false} ReadsBack<K(!new), V(!new)>(read: nat -> Item<K, V>, comma: nat -> bool, n: nat, i: nat, entries: seq<Entry<K, V>>, m: map<K, V>)
    requires Forward(read, n) && Laid(read, comma, n, i, entries) && Untaken(entries, m.Keys)
    ensures ReadFrom(read, comma, n, i, m) == Some(AddAll(m, entries))
    decreases |entries|
  {
    OneTurn(read, comma, n, i, m, read(i));
    var more := m[entries[0].key := entries[0].value];
    assert more.Keys == m.Keys + {entries[0].key};
    if |entries| > 1 {
      ReadsBack(read, comma, n, read(i).next + 1, entries[1..], more);
    }
  }
}
