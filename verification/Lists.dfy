/** The intrusive circular doubly linked lists under the proxy
    (Python/socks5/socks5_c-master/list.h:20-181, 197-207). */
module Lists {

  /** `struct list_head`, with the address of the structure it is embedded in. */
  class Node {
    const container: nat
    var next: Node?
    var prev: Node?

    constructor (container: nat)
      ensures this.container == container && next == null && prev == null
    {
      this.container, next, prev := container, null, null;
    }
  }

  /** A list head after `INIT_LIST_HEAD`. */
  method NewHead() returns (head: Node)
    ensures fresh(head) && head.next == head && head.prev == head
  {
    head := new Node(0);
    head.next, head.prev := head, head;
  }

  /** Position `i` of the ring: the head at 0 and again behind the last entry. */
  ghost function At(head: Node, s: seq<Node>, i: int): Node {
    if 0 < i <= |s| then s[i - 1] else head
  }

  ghost predicate Distinct(head: Node, s: seq<Node>) {
    head !in s && forall i, j :: 0 <= i < j < |s| ==> s[i] != s[j]
  }

  /** `head` is the head of a circular list whose entries are `s`, linked both ways. */
  ghost predicate IsList(head: Node, s: seq<Node>)
    reads head, s
  {
    && Distinct(head, s)
    && (forall i :: 0 <= i <= |s| ==> At(head, s, i).next == At(head, s, i + 1))
    && (forall i :: 0 <= i <= |s| ==> At(head, s, i + 1).prev == At(head, s, i))
  }

  ghost function Insert(s: seq<Node>, k: nat, n: Node): seq<Node>
    requires k <= |s|
  {
    s[..k] + [n] + s[k..]
  }

  ghost function Remove(s: seq<Node>, k: nat): seq<Node>
    requires k < |s|
  {
    s[..k] + s[k + 1..]
  }

  lemma AtInsert(head: Node, s: seq<Node>, k: nat, n: Node, i: int)
    requires k <= |s| && 0 <= i <= |s| + 2
    ensures At(head, Insert(s, k, n), i)
            == if i <= k then At(head, s, i) else if i == k + 1 then n else At(head, s, i - 1)
  {
  }

  lemma AtRemove(head: Node, s: seq<Node>, k: nat, i: int)
    requires k < |s| && 0 <= i <= |s|
    ensures At(head, Remove(s, k), i) == if i <= k then At(head, s, i) else At(head, s, i + 1)
  {
  }

  /** `__list_add`, between the entries at ring positions `k` and `k + 1`. */
  method Link(n: Node, prev: Node, next: Node, ghost head: Node, ghost s: seq<Node>, ghost k: nat)
    requires IsList(head, s) && n != head && n !in s
    requires k <= |s| && prev == At(head, s, k) && next == At(head, s, k + 1)
    modifies n, prev, next
    ensures IsList(head, Insert(s, k, n))
  {
    next.prev := n;
    n.next := next;
    n.prev := prev;
    prev.next := n;
    ghost var s' := Insert(s, k, n);
    forall i | 0 <= i <= |s'|
      ensures At(head, s', i).next == At(head, s', i + 1) && At(head, s', i + 1).prev == At(head, s', i)
    {
      AtInsert(head, s, k, n, i);
      AtInsert(head, s, k, n, i + 1);
    }
  }

  /** `__list_del`, of the entry at index `k`. */
  method Unlink(prev: Node, next: Node, ghost head: Node, ghost s: seq<Node>, ghost k: nat)
    requires IsList(head, s) && k < |s|
    requires prev == At(head, s, k) && next == At(head, s, k + 2)
    modifies prev, next
    ensures IsList(head, Remove(s, k))
    ensures s[k].next == old(s[k].next) && s[k].prev == old(s[k].prev)
    ensures prev.next == next && next.prev == prev
    ensures prev != next ==> prev.prev == old(prev.prev) && next.next == old(next.next)
  {
    next.prev := prev;
    prev.next := next;
    ghost var s' := Remove(s, k);
    forall i | 0 <= i <= |s'|
      ensures At(head, s', i).next == At(head, s', i + 1) && At(head, s', i + 1).prev == At(head, s', i)
    {
      AtRemove(head, s, k, i);
      AtRemove(head, s, k, i + 1);
    }
  }

  // ----- a family of disjoint lists

  type Family = map<Node, seq<Node>>

  /** `x` is the head or an entry of the list at `h`. */
  ghost predicate On(lists: Family, older h: Node, older x: Node) {
    h in lists && x in [h] + lists[h]
  }

  ghost predicate Free(lists: Family, n: Node) {
    forall h :: h in lists ==> !On(lists, h, n)
  }

  ghost function Entries(lists: Family): (r: set<Node>)
    ensures forall h, x :: h in lists && x in lists[h] ==> x in r
  {
    set h, x | h in lists && x in lists[h] :: x
  }

  /** Every head of the family heads its own list, and no node is in two of them. */
  ghost predicate AllLists(lists: Family)
    reads lists.Keys, Entries(lists)
  {
    && (forall h, h', x :: On(lists, h, x) && On(lists, h', x) ==> h == h')
    && forall h :: h in lists ==> IsList(h, lists[h])
  }

  lemma AtOn(lists: Family, head: Node, i: int)
    requires head in lists
    ensures On(lists, head, At(head, lists[head], i))
  {
    assert ([head] + lists[head])[0] == head;
    assert 0 < i <= |lists[head]| ==> ([head] + lists[head])[i] == lists[head][i - 1];
  }

  /** The lists at other heads have no node in common with the list at `head` or with free nodes. */
  lemma Apart(lists: Family, head: Node, h: Node, x: Node)
    requires AllLists(lists) && head in lists && h in lists && h != head
    requires On(lists, head, x) || Free(lists, x)
    ensures x != h && x !in lists[h]
  {
    assert !On(lists, h, x);
    assert ([h] + lists[h])[0] == h;
  }

  /** `list_add` */
  method Add(n: Node, head: Node, ghost lists: Family)
    requires AllLists(lists) && head in lists && Free(lists, n)
    modifies n, head, head.next
    ensures AllLists(lists[head := [n] + lists[head]])
  {
    ghost var s := lists[head];
    assert !On(lists, head, n);
    assert At(head, s, 0) == head && head.next == At(head, s, 0 + 1);
    AtOn(lists, head, 0);
    AtOn(lists, head, 1);
    ghost var first := At(head, s, 1);
    forall h | h in lists && h != head
      ensures n != h && n !in lists[h] && head !in lists[h] && first != h && first !in lists[h]
    {
      Apart(lists, head, h, n);
      Apart(lists, head, h, head);
      Apart(lists, head, h, first);
    }
    assert n != head && n !in s;
    Link(n, head, head.next, head, s, 0);
    assert Insert(s, 0, n) == [n] + s;
    FamilyAfter(lists, head, [n] + s);
  }

  /** When the lists at the other heads are intact and the new one is made of own and free nodes, the
      family is whole again. */
  lemma FamilyAfter(lists: Family, head: Node, s: seq<Node>)
    requires head in lists && IsList(head, s)
    requires forall h, h', x :: On(lists, h, x) && On(lists, h', x) ==> h == h'
    requires forall h :: h in lists && h != head ==> IsList(h, lists[h])
    requires forall x :: x in s ==> On(lists, head, x) || Free(lists, x)
    ensures AllLists(lists[head := s])
  {
    var lists' := lists[head := s];
    forall h, x | On(lists', h, x)
      ensures On(lists, h, x) || (h == head && Free(lists, x))
    {
      if h == head {
        assert x == head ==> On(lists, head, x) by {
          AtOn(lists, head, 0);
        }
      }
    }
  }

  /** `list_add_tail` */
  method AddTail(n: Node, head: Node, ghost lists: Family)
    requires AllLists(lists) && head in lists && Free(lists, n)
    modifies n, head, head.prev
    ensures AllLists(lists[head := lists[head] + [n]])
  {
    ghost var s := lists[head];
    assert !On(lists, head, n);
    assert At(head, s, |s| + 1) == head && head.prev == At(head, s, |s|);
    AtOn(lists, head, 0);
    AtOn(lists, head, |s|);
    ghost var last := At(head, s, |s|);
    forall h | h in lists && h != head
      ensures n != h && n !in lists[h] && head !in lists[h] && last != h && last !in lists[h]
    {
      Apart(lists, head, h, n);
      Apart(lists, head, h, head);
      Apart(lists, head, h, last);
    }
    assert n != head && n !in s;
    Link(n, head.prev, head, head, s, |s|);
    assert Insert(s, |s|, n) == s + [n];
    FamilyAfter(lists, head, s + [n]);
  }

  /** The unlinking part of `list_del` and `list_move`. */
  method TakeOut(entry: Node, ghost head: Node, ghost k: nat, ghost lists: Family, ghost other: Node)
    requires AllLists(lists) && head in lists && k < |lists[head]| && lists[head][k] == entry
    requires entry.prev != null && entry.next != null
    modifies entry.prev, entry.next
    ensures AllLists(lists[head := Remove(lists[head], k)])
    ensures entry.next == old(entry.next) && entry.prev == old(entry.prev)
    ensures Free(lists[head := Remove(lists[head], k)], entry)
    ensures other.next == if other == entry.prev then entry.next else old(other.next)
    ensures other.prev == if other == entry.next then entry.prev else old(other.prev)
  {
    ghost var s := lists[head];
    assert At(head, s, k + 1) == entry;
    assert entry.next == At(head, s, k + 1 + 1) && entry.prev == At(head, s, k);
    AtOn(lists, head, k);
    AtOn(lists, head, k + 1);
    AtOn(lists, head, k + 2);
    ghost var before, after := At(head, s, k), At(head, s, k + 2);
    forall h | h in lists && h != head
      ensures before != h && before !in lists[h] && after != h && after !in lists[h]
      ensures entry != h && entry !in lists[h]
    {
      Apart(lists, head, h, before);
      Apart(lists, head, h, after);
      Apart(lists, head, h, entry);
    }
    Unlink(entry.prev, entry.next, head, s, k);
    forall x | x in Remove(s, k)
      ensures On(lists, head, x)
    {
      assert x in s;
    }
    FamilyAfter(lists, head, Remove(s, k));
  }

  /** An entry of a list has both links. */
  lemma Linked(entry: Node, head: Node, k: nat, lists: Family)
    requires AllLists(lists) && head in lists && k < |lists[head]| && lists[head][k] == entry
    ensures entry.prev != null && entry.next != null
  {
    assert At(head, lists[head], k + 1) == entry;
    assert entry.next == At(head, lists[head], k + 1 + 1) && entry.prev == At(head, lists[head], k);
  }

  /** `list_del` */
  method Del(entry: Node, ghost head: Node, ghost k: nat, ghost lists: Family)
    requires AllLists(lists) && head in lists && k < |lists[head]| && lists[head][k] == entry
    modifies entry, entry.prev, entry.next
    ensures AllLists(lists[head := Remove(lists[head], k)])
    ensures IsList(head, lists[head][..k] + lists[head][k + 1..])
    ensures entry.next == null && entry.prev == null
  {
    Linked(entry, head, k, lists);
    TakeOut(entry, head, k, lists, entry);
    ghost var lists' := lists[head := Remove(lists[head], k)];
    assert forall h :: h in lists' ==> entry != h && entry !in lists'[h] by {
      FreeMeans(lists', entry);
    }
    entry.next := null;
    entry.prev := null;
    assert IsList(head, lists'[head]);
  }

  lemma FreeMeans(lists: Family, n: Node)
    requires Free(lists, n)
    ensures forall h :: h in lists ==> n != h && n !in lists[h]
  {
    forall h | h in lists
      ensures n != h && n !in lists[h]
    {
      assert !On(lists, h, n);
      assert ([h] + lists[h])[0] == h;
    }
  }

  /** `list_move`, from the list at `from` to the front of the list at `head`, which may be the same. */
  method Move(entry: Node, head: Node, ghost from: Node, ghost k: nat, ghost lists: Family)
    requires AllLists(lists) && head in lists && from in lists
    requires k < |lists[from]| && lists[from][k] == entry
    modifies entry, entry.prev, entry.next, head, head.next
    ensures var rest := lists[from := Remove(lists[from], k)];
            AllLists(rest[head := [entry] + rest[head]])
  {
    Linked(entry, from, k, lists);
    TakeOut(entry, from, k, lists, head);
    Add(entry, head, lists[from := Remove(lists[from], k)]);
  }

  /** `list_move_tail` */
  method MoveTail(entry: Node, head: Node, ghost from: Node, ghost k: nat, ghost lists: Family)
    requires AllLists(lists) && head in lists && from in lists
    requires k < |lists[from]| && lists[from][k] == entry
    modifies entry, entry.prev, entry.next, head, head.prev
    ensures var rest := lists[from := Remove(lists[from], k)];
            AllLists(rest[head := rest[head] + [entry]])
  {
    Linked(entry, from, k, lists);
    TakeOut(entry, from, k, lists, head);
    AddTail(entry, head, lists[from := Remove(lists[from], k)]);
  }

  // ----- splicing

  lemma AtConcat(head: Node, s: seq<Node>, r: seq<Node>, i: int)
    requires 0 <= i <= |s| + |r| + 1
    ensures At(head, s + r, i) == if i == 0 then head else if i <= |s| then s[i - 1] else At(head, r, i - |s|)
  {
  }

  lemma DistinctConcat(head: Node, s: seq<Node>, r: seq<Node>)
    requires Distinct(head, r) && head !in s && forall x :: x in s ==> x !in r
    requires forall i, j :: 0 <= i < j < |s| ==> s[i] != s[j]
    ensures Distinct(head, s + r)
  {
    assert forall i :: 0 <= i < |s| ==> s[i] in s;
  }

  /** `__list_splice` of a list that is not empty. */
  method Splice(list: Node, head: Node, ghost s: seq<Node>, ghost r: seq<Node>)
    requires IsList(list, s) && IsList(head, r) && s != []
    requires list != head && list !in r && head !in s && forall x :: x in s ==> x !in r
    modifies head, head.next, list.next, list.prev
    ensures IsList(head, s + r)
    ensures head.next == s[0] && list.next == s[0]
  {
    var first, last, at := list.next, list.prev, head.next;
    assert At(list, s, 0).next == At(list, s, 0 + 1) && At(list, s, |s| + 1).prev == At(list, s, |s|);
    assert At(head, r, 0).next == At(head, r, 0 + 1);
    assert first == s[0] && last == s[|s| - 1] && at == At(head, r, 1);
    first.prev := head;
    head.next := first;
    last.next := at;
    at.prev := last;
    ghost var u := s + r;
    DistinctConcat(head, s, r);
    forall i | 0 <= i <= |u|
      ensures At(head, u, i).next == At(head, u, i + 1) && At(head, u, i + 1).prev == At(head, u, i)
    {
      AtConcat(head, s, r, i);
      AtConcat(head, s, r, i + 1);
      if 0 < i < |s| {
        assert old(At(list, s, i).next == At(list, s, i + 1) && At(list, s, i + 1).prev == At(list, s, i));
      } else if i > |s| {
        assert old(At(head, r, i - |s|).next == At(head, r, i - |s| + 1));
        assert old(At(head, r, i - |s| + 1).prev == At(head, r, i - |s|));
      }
    }
  }

  /** The family after the list at `list` has moved into the one at `head`. */
  ghost function Spliced(lists: Family, list: Node, head: Node): Family
    requires list in lists && head in lists
  {
    (lists - {list})[head := lists[list] + lists[head]]
  }

  lemma SplicedOn(lists: Family, list: Node, head: Node, h: Node, x: Node)
    requires list in lists && head in lists && list != head && On(Spliced(lists, list, head), h, x)
    ensures On(lists, h, x) || (h == head && On(lists, list, x))
  {
    if h == head && x != head {
      assert x in lists[list] || x in lists[head];
    }
  }

  lemma SplicedAll(lists: Family, list: Node, head: Node)
    requires list in lists && head in lists && list != head
    requires forall h, h', x :: On(lists, h, x) && On(lists, h', x) ==> h == h'
    requires IsList(head, lists[list] + lists[head])
    requires forall h :: h in lists && h != head && h != list ==> IsList(h, lists[h])
    ensures AllLists(Spliced(lists, list, head))
  {
    var lists' := Spliced(lists, list, head);
    forall h, h', x | On(lists', h, x) && On(lists', h', x)
      ensures h == h'
    {
      SplicedOn(lists, list, head, h, x);
      SplicedOn(lists, list, head, h', x);
    }
  }

  lemma TwoLists(lists: Family, list: Node, head: Node)
    requires AllLists(lists) && list in lists && head in lists && list != head
    ensures list !in lists[head] && head !in lists[list] && forall x :: x in lists[list] ==> x !in lists[head]
  {
    AtOn(lists, list, 0);
    AtOn(lists, head, 0);
    forall x | x in lists[list]
      ensures x !in lists[head]
    {
      assert On(lists, list, x);
      Apart(lists, list, head, x);
    }
    Apart(lists, list, head, list);
    Apart(lists, head, list, head);
  }

  /** `list_splice`: the entries of `list` go in front of those of `head`; `list` itself is left stale. */
  method SpliceInto(list: Node, head: Node, ghost lists: Family) returns (moved: bool)
    requires AllLists(lists) && list in lists && head in lists && list != head
    modifies head, head.next, list.next, list.prev
    ensures AllLists(Spliced(lists, list, head)) && IsList(head, lists[list] + lists[head])
    ensures moved == (lists[list] != [])
    ensures !moved ==> IsList(list, [])
  {
    ghost var s, r := lists[list], lists[head];
    TwoLists(lists, list, head);
    assert At(list, s, 0).next == At(list, s, 0 + 1) && At(list, s, |s| + 1).prev == At(list, s, |s|);
    assert At(head, r, 0).next == At(head, r, 0 + 1);
    moved := list.next != list;
    AtOn(lists, list, 1);
    AtOn(lists, list, |s|);
    AtOn(lists, head, 0);
    AtOn(lists, head, 1);
    forall h | h in lists && h != head && h != list
      ensures head !in lists[h] && At(head, r, 1) != h && At(head, r, 1) !in lists[h]
      ensures At(list, s, 1) != h && At(list, s, 1) !in lists[h]
      ensures At(list, s, |s|) != h && At(list, s, |s|) !in lists[h]
    {
      Apart(lists, head, h, head);
      Apart(lists, head, h, At(head, r, 1));
      Apart(lists, list, h, At(list, s, 1));
      Apart(lists, list, h, At(list, s, |s|));
    }
    if moved {
      Splice(list, head, s, r);
    } else {
      assert s + r == r;
    }
    SplicedAll(lists, list, head);
  }

  lemma SplicedFree(lists: Family, list: Node, head: Node)
    requires AllLists(lists) && list in lists && head in lists && list != head
    ensures Free(Spliced(lists, list, head), list)
  {
    var lists' := Spliced(lists, list, head);
    TwoLists(lists, list, head);
    AtOn(lists, list, 0);
    assert IsList(list, lists[list]);
    forall h | h in lists'
      ensures !On(lists', h, list)
    {
      Apart(lists, list, h, list);
    }
  }

  /** `list_splice_init`: as `list_splice`, and `list` becomes an empty list again. */
  method SpliceInit(list: Node, head: Node, ghost lists: Family)
    requires AllLists(lists) && list in lists && head in lists && list != head
    modifies head, head.next, list, list.next, list.prev
    ensures AllLists(Spliced(lists, list, head)[list := []])
    ensures IsList(head, lists[list] + lists[head]) && IsList(list, [])
  {
    TwoLists(lists, list, head);
    ghost var lists' := Spliced(lists, list, head);
    SplicedFree(lists, list, head);
    var moved := SpliceInto(list, head, lists);
    FreeMeans(lists', list);
    if moved {
      list.next := list;
      list.prev := list;
    }
    ghost var all := lists'[list := []];
    forall h, h', x | On(all, h, x) && On(all, h', x)
      ensures h == h'
    {
      if h != list && h' != list {
        assert On(lists', h, x) && On(lists', h', x);
      }
    }
  }

  /** The links determine the entries: a head has one list. */
  lemma {:induction false} SameRing(head: Node, s: seq<Node>, r: seq<Node>, i: nat)
    requires IsList(head, s) && IsList(head, r) && i <= |s| + 1 && i <= |r| + 1
    ensures At(head, s, i) == At(head, r, i)
    decreases i
  {
    if i > 0 {
      SameRing(head, s, r, i - 1);
      assert At(head, s, i - 1).next == At(head, s, i - 1 + 1);
      assert At(head, r, i - 1).next == At(head, r, i - 1 + 1);
    }
  }

  lemma ListUnique(head: Node, s: seq<Node>, r: seq<Node>)
    requires IsList(head, s) && IsList(head, r)
    ensures s == r
  {
    var n := if |s| < |r| then |s| else |r|;
    SameRing(head, s, r, n + 1);
    assert |s| == |r|;
    forall i | 0 <= i < |s|
      ensures s[i] == r[i]
    {
      SameRing(head, s, r, i + 1);
    }
  }

  // ----- walking

  /** Walking the `next` links from the head gives the entries in order. */
  method Walk(head: Node, ghost s: seq<Node>) returns (r: seq<Node>)
    requires IsList(head, s)
    ensures r == s
  {
    r := [];
    var pos := head.next;
    assert At(head, s, 0).next == At(head, s, 0 + 1);
    while pos != head
      invariant |r| <= |s| && r == s[..|r|]
      invariant pos == At(head, s, |r| + 1)
      decreases |s| - |r|
    {
      assert |r| < |s|;
      assert At(head, s, |r| + 1).next == At(head, s, |r| + 1 + 1);
      r := r + [pos];
      pos := pos.next;
    }
    assert |r| == |s|;
  }

  ghost function Reversed(s: seq<Node>): seq<Node> {
    if s == [] then [] else Reversed(s[1..]) + [s[0]]
  }

  lemma ReversedSnoc(s: seq<Node>, n: Node)
    ensures Reversed(s + [n]) == [n] + Reversed(s)
  {
    if s == [] {
      assert s + [n] == [n];
    } else {
      assert (s + [n])[1..] == s[1..] + [n];
      ReversedSnoc(s[1..], n);
    }
  }

  lemma {:induction false} ReversedAt(s: seq<Node>)
    ensures |Reversed(s)| == |s| && forall i :: 0 <= i < |s| ==> Reversed(s)[i] == s[|s| - 1 - i]
  {
    if s != [] {
      ReversedAt(s[1..]);
    }
  }

  /** Walking the `prev` links from the head gives the entries in reverse. */
  method WalkBack(head: Node, ghost s: seq<Node>) returns (r: seq<Node>)
    requires IsList(head, s)
    ensures r == Reversed(s) && |r| == |s| && forall i :: 0 <= i < |s| ==> r[i] == s[|s| - 1 - i]
  {
    r := [];
    var pos := head.prev;
    ghost var k := |s|;
    assert At(head, s, |s| + 1).prev == At(head, s, |s|);
    assert s[..k] == s;
    while pos != head
      invariant 0 <= k <= |s| && pos == At(head, s, k)
      invariant r + Reversed(s[..k]) == Reversed(s)
      decreases k
    {
      assert k > 0;
      assert At(head, s, k - 1 + 1).prev == At(head, s, k - 1);
      assert s[..k] == s[..k - 1] + [s[k - 1]];
      ReversedSnoc(s[..k - 1], s[k - 1]);
      r := r + [pos];
      pos := pos.prev;
      k := k - 1;
    }
    assert k == 0;
    ReversedAt(s);
  }
}
