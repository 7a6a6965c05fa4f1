/**
The contact-sync actor: `pushChanges` and `getAllContacts` in
examples/sync/src/backend/registry.ts, a last-write-wins store.
*/
module ContactSync {
  import opened Basics

  datatype Contact = Contact(id: string, name: string, email: string, phone: string, updatedAt: real)

  type Store = map<string, Contact>

  /**
  `contacts` is a plain object, so an id that names a property of Object.prototype
  (`inherited`: "constructor", "toString", "__proto__" and the like) finds that
  property when no contact is stored under it. The property has no `updatedAt`, the
  comparison with it is false, and such a contact is never stored.
  */
  predicate Wins(inherited: set<string>, store: Store, c: Contact) {
    if c.id in store then store[c.id].updatedAt < c.updatedAt else c.id !in inherited
  }

  function Put(inherited: set<string>, store: Store, c: Contact): Store {
    if Wins(inherited, store, c) then store[c.id := c] else store
  }

  /** The store after a batch. */
  function PutAll(inherited: set<string>, store: Store, batch: seq<Contact>): Store
    decreases |batch|
  {
    if batch == [] then store else PutAll(inherited, Put(inherited, store, batch[0]), batch[1..])
  }

  /** The `k`-th contact of the batch is stored when its turn comes. */
  predicate WinsAt(inherited: set<string>, store: Store, batch: seq<Contact>, k: nat)
    requires k < |batch|
  {
    Wins(inherited, PutAll(inherited, store, batch[..k]), batch[k])
  }

  class Contacts {
    const inherited: set<string>
    var contacts: Store
    var lastSyncTime: int

    constructor (inherited: set<string>, now: int)
      ensures this.inherited == inherited && contacts == map[] && lastSyncTime == now
    {
      this.inherited := inherited;
      contacts, lastSyncTime := map[], now;
    }

    /** Returns whether the change is broadcast. */
    method PushChanges(contactList: seq<Contact>, now: int) returns (changed: bool, timestamp: int)
      modifies this
      ensures contacts == PutAll(inherited, old(contacts), contactList)
      ensures changed <==> exists k :: 0 <= k < |contactList| && WinsAt(inherited, old(contacts), contactList, k)
      ensures lastSyncTime == timestamp == now
    {
      changed := false;
      for i := 0 to |contactList|
        invariant contacts == PutAll(inherited, old(contacts), contactList[..i])
        invariant changed <==> exists k :: 0 <= k < i && WinsAt(inherited, old(contacts), contactList, k)
      {
        var contact := contactList[i];
        PutAllOfExtension(inherited, old(contacts), contactList[..i], contact);
        assert contactList[..i + 1] == contactList[..i] + [contact];
        assert WinsAt(inherited, old(contacts), contactList, i) <==> Wins(inherited, contacts, contact);
        if (contact.id in contacts && contacts[contact.id].updatedAt < contact.updatedAt)
           || (contact.id !in contacts && contact.id !in inherited)
        {
          contacts := contacts[contact.id := contact];
          changed := true;
        }
      }
      assert contactList[..|contactList|] == contactList;
      lastSyncTime := now;
      timestamp := now;
    }

    /** The contacts that are not tombstones; `order` is how the object lists its keys. */
    method GetAllContacts(order: seq<string>) returns (active: seq<Contact>)
      requires NoDuplicates(order) && forall id :: id in order <==> id in contacts
      ensures active == Active(contacts, order)
    {
      active := [];
      for i := 0 to |order|
        invariant active == Active(contacts, order[..i])
      {
        assert order[i] in order && order[..i + 1] == order[..i] + [order[i]];
        var contact := contacts[order[i]];
        if contact.name != "" {
          active := active + [contact];
        }
      }
      assert order[..|order|] == order;
    }
  }

  function Active(store: Store, order: seq<string>): seq<Contact>
    requires forall id | id in order :: id in store
  {
    if order == [] then [] else
    var n := |order| - 1;
    Active(store, order[..n]) + (if store[order[n]].name != "" then [store[order[n]]] else [])
  }

  /** `picked` are the places in `order` of the contacts listed, one for each named contact, in order. */
  ghost predicate Picks(store: Store, order: seq<string>, active: seq<Contact>, picked: seq<nat>)
    requires forall id | id in order :: id in store
  {
    && |active| == |picked|
    && (forall k | 0 <= k < |picked| :: picked[k] < |order| && active[k] == store[order[picked[k]]])
    && (forall k, m | 0 <= k < m < |picked| :: picked[k] < picked[m])
    && (forall i | 0 <= i < |order| :: i in picked <==> store[order[i]].name != "")
  }

  lemma PicksOneMore(store: Store, order: seq<string>, id: string, active: seq<Contact>, picked: seq<nat>)
    requires id in store && forall x | x in order :: x in store
    requires Picks(store, order, active, picked)
    ensures forall x | x in order + [id] :: x in store
    ensures if store[id].name != ""
            then Picks(store, order + [id], active + [store[id]], picked + [|order|])
            else Picks(store, order + [id], active, picked)
  {
    var longer := order + [id];
    assert forall x | x in longer :: x in store;
    var n := |order|;
    assert forall i | 0 <= i < n :: longer[i] == order[i];
    assert n !in picked;
    var more := if store[id].name != "" then picked + [n] else picked;
    forall i | 0 <= i < |longer| ensures i in more <==> store[longer[i]].name != "" {
      if i < n {
        assert i in more <==> i in picked;
      } else {
        assert store[id].name != "" ==> more[|picked|] == n;
      }
    }
  }

  /** Each named contact is listed once, in the order of the keys. */
  lemma {:induction false} ActiveListsEachOnce(store: Store, order: seq<string>) returns (picked: seq<nat>)
    requires forall id | id in order :: id in store
    ensures Picks(store, order, Active(store, order), picked)
    decreases |order|
  {
    picked := [];
    if order != [] {
      var n := |order| - 1;
      var active := Active(store, order[..n]);
      picked := ActiveListsEachOnce(store, order[..n]);
      PicksOneMore(store, order[..n], order[n], active, picked);
      assert order[..n] + [order[n]] == order;
      assert active + [] == active;
      if store[order[n]].name != "" {
        picked := picked + [n];
      }
    }
  }

  lemma {:induction false} PutAllOfExtension(inherited: set<string>, store: Store, batch: seq<Contact>, c: Contact)
    ensures PutAll(inherited, store, batch + [c]) == Put(inherited, PutAll(inherited, store, batch), c)
    decreases |batch|
  {
    if batch == [] {
      assert (batch + [c])[1..] == [];
    } else {
      assert (batch + [c])[1..] == batch[1..] + [c];
      PutAllOfExtension(inherited, Put(inherited, store, batch[0]), batch[1..], c);
    }
  }

  /** Pushing one batch after another is pushing their concatenation: batching does not matter. */
  lemma {:induction false} BatchesConcatenate(inherited: set<string>, store: Store, a: seq<Contact>, b: seq<Contact>)
    ensures PutAll(inherited, store, a + b) == PutAll(inherited, PutAll(inherited, store, a), b)
    decreases |a|
  {
    if a == [] {
      assert a + b == b;
    } else {
      assert (a + b)[1..] == a[1..] + b;
      BatchesConcatenate(inherited, Put(inherited, store, a[0]), a[1..], b);
    }
  }

  // MARK: What the store holds

  /** `c` is a newest contact under its id among those pushed. */
  ghost predicate Newest(pushed: seq<Contact>, c: Contact) {
    c in pushed && forall d | d in pushed && d.id == c.id :: d.updatedAt <= c.updatedAt
  }

  ghost predicate HoldsNewest(inherited: set<string>, store: Store, pushed: seq<Contact>) {
    && (forall id | id in store :: store[id].id == id && id !in inherited && Newest(pushed, store[id]))
    && (forall c | c in pushed && c.id !in inherited :: c.id in store)
  }

  lemma PutKeepsNewest(inherited: set<string>, store: Store, pushed: seq<Contact>, c: Contact)
    requires HoldsNewest(inherited, store, pushed)
    ensures HoldsNewest(inherited, Put(inherited, store, c), pushed + [c])
  {
    var store' := Put(inherited, store, c);
    forall id | id in store' ensures store'[id].id == id && id !in inherited && Newest(pushed + [c], store'[id]) {
      if Wins(inherited, store, c) && id == c.id {
        forall d | d in pushed + [c] && d.id == c.id ensures d.updatedAt <= c.updatedAt {
          if d in pushed && c.id in store {
            assert d.updatedAt <= store[c.id].updatedAt;
          }
        }
      } else {
        assert id in store && store'[id] == store[id];
      }
    }
  }

  /**
  After any sequence of pushes, each id whose contacts can be stored holds one of
  the contacts pushed for it with the greatest `updatedAt`, and no other id holds any.
  */
  lemma {:induction false} StoreHoldsNewest(inherited: set<string>, pushed: seq<Contact>)
    ensures HoldsNewest(inherited, PutAll(inherited, map[], pushed), pushed)
    decreases |pushed|
  {
    if pushed != [] {
      var n := |pushed| - 1;
      StoreHoldsNewest(inherited, pushed[..n]);
      assert pushed == pushed[..n] + [pushed[n]];
      PutAllOfExtension(inherited, map[], pushed[..n], pushed[n]);
      PutKeepsNewest(inherited, PutAll(inherited, map[], pushed[..n]), pushed[..n], pushed[n]);
    }
  }

  /** `pushed[i]` is `c`, newer than every contact pushed before it under its id, and never surpassed. */
  ghost predicate FirstNewest(pushed: seq<Contact>, c: Contact, i: nat) {
    && i < |pushed| && pushed[i] == c
    && (forall j | 0 <= j < i && pushed[j].id == c.id :: pushed[j].updatedAt < c.updatedAt)
    && (forall j | i <= j < |pushed| && pushed[j].id == c.id :: pushed[j].updatedAt <= c.updatedAt)
  }

  /** Of contacts tied for the newest, the one pushed first is held. */
  lemma {:induction false} StoreHoldsFirstNewest(inherited: set<string>, pushed: seq<Contact>, id: string)
    returns (i: nat)
    requires id in PutAll(inherited, map[], pushed)
    ensures PutAll(inherited, map[], pushed)[id].id == id
    ensures FirstNewest(pushed, PutAll(inherited, map[], pushed)[id], i)
    decreases |pushed|
  {
    var n := |pushed| - 1;
    var earlier, c := pushed[..n], pushed[n];
    assert pushed == earlier + [c];
    PutAllOfExtension(inherited, map[], earlier, c);
    StoreHoldsNewest(inherited, earlier);
    var store := PutAll(inherited, map[], earlier);
    if c.id == id && Wins(inherited, store, c) {
      i := n;
      forall j | 0 <= j < n && pushed[j].id == id ensures pushed[j].updatedAt < c.updatedAt {
        assert earlier[j] in earlier;
      }
    } else {
      i := StoreHoldsFirstNewest(inherited, earlier, id);
      assert forall j | 0 <= j < n :: pushed[j] == earlier[j];
    }
  }

  // MARK: Order does not matter, exactly when

  ghost predicate SameContacts(a: seq<Contact>, b: seq<Contact>) {
    forall c :: c in a <==> c in b
  }

  /** No two different contacts are both newest under one storable id. */
  ghost predicate NoTieAtTheTop(inherited: set<string>, pushed: seq<Contact>) {
    forall c, d | Newest(pushed, c) && Newest(pushed, d) && c.id == d.id && c.id !in inherited :: c == d
  }

  lemma NewestDependsOnContactsOnly(a: seq<Contact>, b: seq<Contact>, c: Contact)
    requires SameContacts(a, b)
    ensures Newest(a, c) <==> Newest(b, c)
  {
  }

  lemma SameStore(inherited: set<string>, a: seq<Contact>, b: seq<Contact>)
    requires SameContacts(a, b) && NoTieAtTheTop(inherited, a)
    ensures PutAll(inherited, map[], a) == PutAll(inherited, map[], b)
  {
    StoreHoldsNewest(inherited, a);
    StoreHoldsNewest(inherited, b);
    var sa, sb := PutAll(inherited, map[], a), PutAll(inherited, map[], b);
    forall id | id in sa || id in sb ensures id in sa && id in sb && sa[id] == sb[id] {
      if id in sa { assert sa[id] in b; }
      if id in sb { assert sb[id] in a; }
      NewestDependsOnContactsOnly(a, b, sb[id]);
    }
  }

  /** The first of the newest contacts pushed stays. */
  lemma {:induction false} FirstNewestStays(inherited: set<string>, store: Store, c: Contact, rest: seq<Contact>)
    requires c.id in store && store[c.id] == c
    requires forall d | d in rest && d.id == c.id :: d.updatedAt <= c.updatedAt
    ensures c.id in PutAll(inherited, store, rest) && PutAll(inherited, store, rest)[c.id] == c
    decreases |rest|
  {
    if rest != [] {
      assert rest[0] in rest;
      FirstNewestStays(inherited, Put(inherited, store, rest[0]), c, rest[1..]);
    }
  }

  lemma NewestFirstWins(inherited: set<string>, pushed: seq<Contact>, c: Contact)
    requires Newest(pushed, c) && c.id !in inherited
    ensures SameContacts(pushed, [c] + pushed)
    ensures c.id in PutAll(inherited, map[], [c] + pushed) && PutAll(inherited, map[], [c] + pushed)[c.id] == c
  {
    assert ([c] + pushed)[1..] == pushed;
    FirstNewestStays(inherited, Put(inherited, map[], c), c, pushed);
  }

  /** Every other way of pushing the same contacts gives the same store. */
  ghost predicate OrderIrrelevant(inherited: set<string>, pushed: seq<Contact>) {
    forall other | SameContacts(pushed, other) :: PutAll(inherited, map[], other) == PutAll(inherited, map[], pushed)
  }

  lemma NoTieMeansOrderIrrelevant(inherited: set<string>, pushed: seq<Contact>)
    requires NoTieAtTheTop(inherited, pushed)
    ensures OrderIrrelevant(inherited, pushed)
  {
    forall other | SameContacts(pushed, other)
      ensures PutAll(inherited, map[], other) == PutAll(inherited, map[], pushed)
    {
      SameStore(inherited, pushed, other);
    }
  }

  lemma TieMeansOrderMatters(inherited: set<string>, pushed: seq<Contact>, c: Contact, d: Contact)
    requires Newest(pushed, c) && Newest(pushed, d) && c.id == d.id && c.id !in inherited && c != d
    ensures !OrderIrrelevant(inherited, pushed)
  {
    NewestFirstWins(inherited, pushed, c);
    NewestFirstWins(inherited, pushed, d);
    assert PutAll(inherited, map[], [c] + pushed) != PutAll(inherited, map[], [d] + pushed);
  }

  /**
  Any reordering, re-batching or repetition of the pushes leads to the same store
  exactly if no storable id has two different contacts tied for its newest.
  */
  lemma OrderIrrelevantIff(inherited: set<string>, pushed: seq<Contact>)
    ensures OrderIrrelevant(inherited, pushed) <==> NoTieAtTheTop(inherited, pushed)
  {
    if NoTieAtTheTop(inherited, pushed) {
      NoTieMeansOrderIrrelevant(inherited, pushed);
    } else {
      var c, d :| Newest(pushed, c) && Newest(pushed, d) && c.id == d.id && c.id !in inherited && c != d;
      TieMeansOrderMatters(inherited, pushed, c, d);
    }
  }
}
