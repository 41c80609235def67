/** Product groups in Keycloak: ensure_product_groups makes what the manifest's products need, and a
    new user is put into the default group of each. */
module KcGroups {
  import opened Wrappers
  import KcRoles

  datatype Group = Group(name: string, parent: Option<nat>)

  type Groups = map<nat, Group>

  datatype User = User(username: string, email: string, groups: set<nat>, roles: set<string>)

  // ---- What the groups should be -------------------------------------------------------

  /** What Keycloak keeps by itself: sibling names are unique and parents exist. */
  predicate Sound(g: Groups) {
    && (forall a, b | a in g && b in g && g[a] == g[b] :: a == b)
    && (forall a | a in g && g[a].parent.Some? :: g[a].parent.value in g)
  }

  datatype Suffix = Default | Admins

  function ChildName(product: string, suffix: Suffix): string {
    product + (if suffix.Default? then "_default" else "_admins")
  }

  const SUFFIXES := [Default, Admins]

  ghost predicate Root(g: Groups, r: nat, product: string) {
    r in g && g[r] == Group(product, None)
  }

  ghost predicate IsChild(g: Groups, c: nat, r: nat, product: string, suffix: Suffix) {
    c in g && g[c] == Group(ChildName(product, suffix), Some(r))
  }

  /** The product's root group, and the two groups in it. */
  ghost predicate InPlace(g: Groups, product: string, r: nat, d: nat, a: nat) {
    && r in g && g[r] == Group(product, None)
    && d in g && g[d] == Group(product + "_default", Some(r))
    && a in g && g[a] == Group(product + "_admins", Some(r))
  }

  ghost predicate Ready(g: Groups, product: string) {
    exists r, d, a :: InPlace(g, product, r, d, a)
  }

  ghost predicate AllReady(g: Groups, products: seq<string>) {
    forall i | 0 <= i < |products| :: Ready(g, products[i])
  }

  /** A product's root group, or one of the two groups in it. */
  predicate Needed(g: Groups, c: nat, products: seq<string>) {
    && c in g
    && match g[c].parent
       case None => g[c].name in products
       case Some(r) =>
         && r in g && g[r].parent.None? && g[r].name in products
         && g[c].name in {g[r].name + "_default", g[r].name + "_admins"}
  }

  /** Everything that was there still is, unchanged, and everything else is needed. */
  predicate Grown(before: Groups, after: Groups, products: seq<string>) {
    && Sound(after)
    && (forall c | c in before :: c in after && after[c] == before[c])
    && (forall c | c in after && c !in before :: Needed(after, c, products))
  }

  ghost predicate Reconciled(before: Groups, after: Groups, products: seq<string>) {
    Grown(before, after, products) && AllReady(after, products)
  }

  predicate IsDefault(g: Groups, c: nat, product: string) {
    && c in g && g[c].parent.Some? && g[c].parent.value in g
    && g[g[c].parent.value] == Group(product, None)
    && g[c].name == product + "_default"
  }

  /** The default groups of the products, by position in the tree. */
  function DefaultGroups(g: Groups, products: seq<string>): set<nat> {
    set i, c | 0 <= i < |products| && c in g && IsDefault(g, c, products[i]) :: c
  }

  /** Which those are, by name. */
  lemma DefaultsAre(g: Groups, products: seq<string>)
    ensures forall c ::
              (c in DefaultGroups(g, products)
               <==> c in g && exists i, root | 0 <= i < |products| && root in g ::
                      g[root] == Group(products[i], None) && g[c] == Group(products[i] + "_default", Some(root)))
  {
    forall c, i, root | c in g && 0 <= i < |products| && root in g && g[root] == Group(products[i], None)
                        && g[c] == Group(products[i] + "_default", Some(root))
      ensures c in DefaultGroups(g, products)
    {
      assert IsDefault(g, c, products[i]);
    }
    forall c | c in DefaultGroups(g, products)
      ensures exists i, root | 0 <= i < |products| && root in g ::
                g[root] == Group(products[i], None) && g[c] == Group(products[i] + "_default", Some(root))
    {
      var i :| 0 <= i < |products| && IsDefault(g, c, products[i]);
      var root := g[c].parent.value;
      assert g[root] == Group(products[i], None) && g[c] == Group(products[i] + "_default", Some(root));
    }
  }

  // ---- What follows from that ----------------------------------------------------------

  lemma ReadyHasAllNeeded(g: Groups, h: Groups, products: seq<string>, c: nat)
    requires AllReady(g, products) && Grown(g, h, products) && Needed(h, c, products)
    ensures c in g
  {
    match h[c].parent
    case None =>
      var i :| 0 <= i < |products| && products[i] == h[c].name;
      assert Ready(g, products[i]);
      var r, d, a :| InPlace(g, products[i], r, d, a);
      assert h[r] == h[c];
    case Some(r) =>
      var i :| 0 <= i < |products| && products[i] == h[r].name;
      assert Ready(g, products[i]);
      var r', d, a :| InPlace(g, products[i], r', d, a);
      assert h[r'] == h[r];
      assert h[c] == h[d] || h[c] == h[a];
  }

  /** Something is added exactly when something was missing. */
  lemma ChangesIffSomethingMissing(before: Groups, after: Groups, products: seq<string>)
    requires Reconciled(before, after, products)
    ensures after != before <==> !AllReady(before, products)
  {
    if AllReady(before, products) {
      forall c | c in after ensures c in before {
        if c !in before {
          ReadyHasAllNeeded(before, after, products, c);
        }
      }
      assert after == before;
    }
  }

  /** Doing it again adds nothing. */
  lemma SecondTimeAddsNothing(first: Groups, second: Groups, third: Groups, products: seq<string>)
    requires Reconciled(first, second, products) && Reconciled(second, third, products)
    ensures third == second
  {
    ChangesIffSomethingMissing(second, third, products);
  }

  lemma NeededStays(g: Groups, h: Groups, products: seq<string>, c: nat)
    requires Needed(g, c, products) && Grown(g, h, products)
    ensures Needed(h, c, products)
  {
  }

  lemma GrownTwice(first: Groups, middle: Groups, last: Groups, products: seq<string>)
    requires Grown(first, middle, products) && Grown(middle, last, products)
    ensures Grown(first, last, products) && (last == first ==> middle == first)
  {
    if last == first {
      assert forall c | c in middle :: c in last && last[c] == middle[c];
      assert middle == first;
    }
    forall c | c in last && c !in first ensures Needed(last, c, products) {
      if c in middle {
        NeededStays(middle, last, products, c);
      }
    }
  }

  /** A run that was cut short and then repeated comes to what one run would have. */
  lemma RetryConverges(first: Groups, partial: Groups, last: Groups, products: seq<string>)
    requires Grown(first, partial, products) && Reconciled(partial, last, products)
    ensures Reconciled(first, last, products)
  {
    GrownTwice(first, partial, last, products);
  }

  /** Nothing superfluous is added: without any one of the groups that were added some product is
      not ready. */
  lemma EveryAddedGroupCounts(before: Groups, after: Groups, products: seq<string>, c: nat)
    requires Reconciled(before, after, products) && c in after && c !in before
    ensures !AllReady(after - {c}, products)
  {
    if AllReady(after - {c}, products) {
      ReadyHasAllNeeded(after - {c}, after, products, c);
    }
  }

  lemma AddKeepsSound(g: Groups, c: nat, group: Group)
    requires Sound(g) && c !in g && (group.parent.Some? ==> group.parent.value in g)
    requires forall a | a in g :: g[a] != group
    ensures Sound(g[c := group])
  {
  }

  lemma AddKeepsGrown(before: Groups, g: Groups, products: seq<string>, c: nat, group: Group)
    requires Grown(before, g, products) && c !in g && forall a | a in g :: g[a] != group
    requires Needed(g[c := group], c, products) && (group.parent.Some? ==> group.parent.value in g)
    ensures Grown(before, g[c := group], products)
  {
    var h := g[c := group];
    AddKeepsSound(g, c, group);
    forall a | a in h && a !in before ensures Needed(h, a, products) {
      if a != c {
        assert Needed(g, a, products);
        assert h[a] == g[a];
      }
    }
  }

  lemma ReadyStays(g: Groups, h: Groups, product: string)
    requires Ready(g, product) && forall c | c in g :: c in h && h[c] == g[c]
    ensures Ready(h, product)
  {
    var r, d, a :| InPlace(g, product, r, d, a);
    assert InPlace(h, product, r, d, a);
  }

  // ---- The client ----------------------------------------------------------------------

  /** A group as get_groups gives it, with its sub-groups by name. */
  datatype Node = Node(id: nat, subs: map<string, nat>)

  /** The map has exactly the groups with this parent, by name. */
  ghost predicate Lists(m: map<string, nat>, g: Groups, parent: Option<nat>) {
    && (forall n | n in m :: m[n] in g && g[m[n]] == Group(n, parent))
    && (forall c | c in g && g[c].parent == parent :: g[c].name in m)
  }

  function Listing(g: Groups, parent: Option<nat>): (m: map<string, nat>)
    requires Sound(g)
    ensures Lists(m, g, parent)
  {
    map c | c in g && g[c].parent == parent :: g[c].name := c
  }

  function Tree(g: Groups): map<string, Node>
    requires Sound(g)
  {
    var roots := Listing(g, None);
    map n | n in roots :: Node(roots[n], Listing(g, Some(roots[n])))
  }

  /** The fetched tree is right about this product. */
  ghost predicate Knows(tree: map<string, Node>, g: Groups, product: string) {
    if product in tree then Root(g, tree[product].id, product) && Lists(tree[product].subs, g, Some(tree[product].id))
    else forall c | c in g :: g[c] != Group(product, None)
  }

  lemma ListsAfterAdd(m: map<string, nat>, g: Groups, c: nat, name: string, parent: Option<nat>)
    requires Lists(m, g, parent) && c !in g && name !in m
    ensures Lists(m[name := c], g[c := Group(name, parent)], parent)
  {
  }

  lemma ChildIsNeeded(g: Groups, c: nat, r: nat, product: string, suffix: Suffix, products: seq<string>)
    requires Root(g, r, product) && product in products && c !in g
    ensures Needed(g[c := Group(ChildName(product, suffix), Some(r))], c, products)
  {
  }

  lemma ReadyFromChildren(g: Groups, r: nat, product: string, children: seq<nat>)
    requires Root(g, r, product) && |children| == |SUFFIXES|
    requires forall j | 0 <= j < |children| :: IsChild(g, children[j], r, product, SUFFIXES[j])
    ensures Ready(g, product)
  {
    assert IsChild(g, children[0], r, product, Default) && IsChild(g, children[1], r, product, Admins);
    assert InPlace(g, product, r, children[0], children[1]);
  }

  /** Groups added below one root leave what is known about the other products right. */
  lemma KnowsAfterChildren(tree: map<string, Node>, g: Groups, h: Groups, r: nat, product: string, p: string)
    requires Knows(tree, g, p) && Root(g, r, product) && p != product
    requires forall c | c in g :: c in h && h[c] == g[c]
    requires forall c | c in h && c !in g :: h[c].parent == Some(r)
    ensures Knows(tree, h, p)
  {
  }

  /** The Keycloak server and this process' client for it. Every call may fail: `down` says which. */
  class Keycloak {
    const enabled: bool
    const products: seq<string>
    const lower: string -> string
    const defaultRoles: set<string>
    const hasAdminRole: bool
    const down: nat -> bool
    var calls: nat
    var adminRoleCached: bool
    var groups: Groups
    var users: map<nat, User>
    var nextId: nat
    var initialGroups: Option<map<string, nat>>

    /** The keys of the manifest's products differ; ids are not used again. */
    ghost predicate Valid()
      reads this
    {
      && (forall i, j | 0 <= i < j < |products| :: products[i] != products[j])
      && Sound(groups)
      && (forall c | c in groups :: c < nextId) && (forall u | u in users :: u < nextId)
      && (initialGroups.Some? ==> forall p | p in initialGroups.value :: p in products)
    }

    constructor (enabled: bool, products: seq<string>, lower: string -> string, defaultRoles: set<string>,
                 hasAdminRole: bool, down: nat -> bool, groups: Groups, nextId: nat)
      requires forall i, j | 0 <= i < j < |products| :: products[i] != products[j]
      requires Sound(groups) && (forall c | c in groups :: c < nextId)
      ensures Valid() && this.products == products && this.enabled == enabled && this.groups == groups
      ensures users == map[] && initialGroups == None
    {
      this.enabled, this.products, this.lower, this.defaultRoles := enabled, products, lower, defaultRoles;
      this.hasAdminRole, this.down, this.groups, this.nextId := hasAdminRole, down, groups, nextId;
      calls, adminRoleCached, users, initialGroups := 0, false, map[], None;
    }

    /** One of the calls made since then has failed. */
    ghost predicate Failed(since: nat)
      reads this`calls
    {
      exists k | since <= k < calls :: down(k)
    }

    method Call() returns (ok: bool)
      modifies this`calls
      ensures calls == old(calls) + 1 && ok == !down(old(calls))
    {
      ok := !down(calls);
      calls := calls + 1;
    }

    /** Creates a group and reads it back. */
    method CreateGroup(group: Group) returns (r: Result<nat, ()>)
      requires Valid() && (group.parent.Some? ==> group.parent.value in groups)
      requires forall a | a in groups :: groups[a] != group
      requires Needed(groups[nextId := group], nextId, products)
      modifies this`calls, this`groups, this`nextId
      ensures Valid() && Grown(old(groups), groups, products)
      ensures r.Ok? ==> r.value !in old(groups) && groups == old(groups)[r.value := group]
      ensures r.Err? ==> Failed(old(calls)) && forall c | c in groups && c !in old(groups) :: groups[c] == group
      ensures calls >= old(calls)
    {
      var ok := Call();
      if !ok {
        return Err(());
      }
      AddKeepsGrown(groups, groups, products, nextId, group);
      var id := nextId;
      groups, nextId := groups[id := group], nextId + 1;
      ok := Call();
      r := if ok then Ok(id) else Err(());
    }

    /** One sub-group, if it is not there. */
    method EnsureChild(product: string, suffix: Suffix, id: nat, subs: map<string, nat>) returns (r: Result<nat, ()>)
      requires Valid() && product in products && suffix in SUFFIXES
      requires Root(groups, id, product) && Lists(subs, groups, Some(id))
      modifies this`calls, this`groups, this`nextId
      ensures Valid() && Grown(old(groups), groups, products)
      ensures r.Ok? ==> IsChild(groups, r.value, id, product, suffix)
      ensures r.Ok? ==> Lists(subs[ChildName(product, suffix) := r.value], groups, Some(id))
      ensures r.Ok? ==> (groups == old(groups) <==> ChildName(product, suffix) in subs)
      ensures forall c | c in groups && c !in old(groups) :: groups[c].parent == Some(id)
      ensures calls >= old(calls) && (r.Err? ==> Failed(old(calls)))
    {
      var name := ChildName(product, suffix);
      if name in subs {
        assert subs[name := subs[name]] == subs;
        return Ok(subs[name]);
      }
      ChildIsNeeded(groups, nextId, id, product, suffix, products);
      r := CreateGroup(Group(name, Some(id)));
      if r.Ok? {
        ListsAfterAdd(subs, old(groups), r.value, name, Some(id));
      }
    }

    /** One round of the inner loop. */
    method EnsureNextChild(product: string, i: nat, id: nat, subs: map<string, nat>,
                           ghost first: Groups, ghost cache: Option<map<string, nat>>, ghost children: seq<nat>)
      returns (made: Result<bool, ()>, more: map<string, nat>, ghost done: seq<nat>)
      requires Valid() && product in products && i == |children| < |SUFFIXES|
      requires HasSome(first, groups, products, product, id, subs, children)
      requires initialGroups == Cached(cache, product, children)
      modifies this`calls, this`groups, this`nextId, this`initialGroups
      ensures Valid() && Grown(first, groups, products) && OnlyBelow(first, groups, id)
      ensures made.Ok? ==> HasSome(first, groups, products, product, id, more, done) && |done| == i + 1
      ensures made.Ok? ==> (groups == first <==> old(groups) == first && !made.value)
      ensures made.Ok? ==> initialGroups == Cached(cache, product, done)
      ensures calls >= old(calls) && (made.Err? ==> Failed(old(calls)))
    {
      ghost var before := groups;
      var name := ChildName(product, SUFFIXES[i]);
      var r := EnsureChild(product, SUFFIXES[i], id, subs);
      GrownBelowTwice(first, before, groups, products, id);
      more, done := subs, children;
      if r.Err? {
        made := Err(());
        return;
      }
      HasOneMore(first, before, groups, products, product, id, subs, children, r.value);
      Remember(product, SUFFIXES[i], r.value);
      CachedOneMore(cache, product, children, r.value);
      made, more, done := Ok(name !in subs), subs[name := r.value], children + [r.value];
    }

    /** The inner loop: the two sub-groups of one product. */
    method EnsureChildren(product: string, node: Node) returns (r: Result<bool, ()>, ghost children: seq<nat>)
      requires Valid() && product in products
      requires Root(groups, node.id, product) && Lists(node.subs, groups, Some(node.id))
      modifies this`calls, this`groups, this`nextId, this`initialGroups
      ensures Valid() && Grown(old(groups), groups, products) && OnlyBelow(old(groups), groups, node.id)
      ensures r.Ok? ==> Ready(groups, product)
      ensures r.Ok? ==> (r.value <==> groups != old(groups))
      ensures r.Ok? ==> |children| == 2 && IsChild(groups, children[0], node.id, product, Default)
      ensures r.Ok? ==> initialGroups == Cached(old(initialGroups), product, children)
      ensures calls >= old(calls) && (r.Err? ==> Failed(old(calls)))
    {
      var subs: map<string, nat> := node.subs;
      var created := false;
      children := [];
      var i := 0;
      while i < |SUFFIXES|
        invariant 0 <= i <= |SUFFIXES| && |children| == i && Valid()
        invariant HasSome(old(groups), groups, products, product, node.id, subs, children)
        invariant (created <==> groups != old(groups)) && calls >= old(calls)
        invariant initialGroups == Cached(old(initialGroups), product, children)
      {
        var made;
        made, subs, children := EnsureNextChild(product, i, node.id, subs, old(groups), old(initialGroups), children);
        if made.Err? {
          r := Err(());
          return;
        }
        created := created || made.value;
        i := i + 1;
      }
      ReadyFromChildren(groups, node.id, product, children);
      r := Ok(created);
    }

    method Remember(product: string, suffix: Suffix, id: nat)
      requires Valid() && product in products
      modifies this`initialGroups
      ensures Valid()
      ensures initialGroups == Remembered(old(initialGroups), product, suffix, id)
    {
      if initialGroups.None? {
        initialGroups := Some(map[]);
      }
      if suffix.Default? {
        initialGroups := Some(initialGroups.value[product := id]);
      }
    }

    /** The root group of a product, if the fetched tree does not have it. */
    method EnsureRoot(product: string, tree: map<string, Node>) returns (r: Result<Node, ()>)
      requires Valid() && product in products && Knows(tree, groups, product)
      modifies this`calls, this`groups, this`nextId
      ensures Valid() && Grown(old(groups), groups, products)
      ensures r.Ok? ==> Root(groups, r.value.id, product) && Lists(r.value.subs, groups, Some(r.value.id))
      ensures r.Ok? ==> (groups == old(groups) <==> product in tree)
      ensures forall p | p != product && Knows(tree, old(groups), p) :: Knows(tree, groups, p)
      ensures calls >= old(calls) && (r.Err? ==> Failed(old(calls)))
    {
      if product in tree {
        return Ok(tree[product]);
      }
      var id := CreateGroup(Group(product, None));
      r := if id.Ok? then Ok(Node(id.value, map[])) else Err(());
    }

    /** One round of the outer loop. */
    method EnsureProduct(product: string, tree: map<string, Node>)
      returns (r: Result<bool, ()>, ghost d: nat)
      requires Valid() && product in products && Knows(tree, groups, product)
      modifies this`calls, this`groups, this`nextId, this`initialGroups
      ensures Valid() && Grown(old(groups), groups, products)
      ensures r.Ok? ==> Ready(groups, product) && IsDefault(groups, d, product)
      ensures r.Ok? ==> (r.value <==> groups != old(groups))
      ensures r.Ok? ==> initialGroups == Some(Cache(old(initialGroups))[product := d])
      ensures forall p | p != product && Knows(tree, old(groups), p) :: Knows(tree, groups, p)
      ensures calls >= old(calls) && (r.Err? ==> Failed(old(calls)))
    {
      d := 0;
      var node := EnsureRoot(product, tree);
      if node.Err? {
        r := Err(());
        return;
      }
      ghost var rooted := groups;
      ghost var children;
      r, children := EnsureChildren(product, node.value);
      GrownTwice(old(groups), rooted, groups, products);
      forall p | p != product && Knows(tree, rooted, p) ensures Knows(tree, groups, p) {
        KnowsAfterChildren(tree, rooted, groups, node.value.id, product, p);
      }
      if r.Ok? {
        d := children[0];
        r := Ok(product !in tree || r.value);
      }
    }

    /** ensure_product_groups: afterwards every product has its groups; what was there is untouched and
        nothing else is added; true exactly if something was missing. Also when it fails it has only
        added groups that are needed. */
    method EnsureProductGroups() returns (r: Result<Option<bool>, ()>)
      requires Valid()
      modifies this`calls, this`groups, this`nextId, this`initialGroups
      ensures Valid() && Grown(old(groups), groups, products)
      ensures r == Ok(None) <==> !enabled
      ensures r.Ok? && enabled ==> Reconciled(old(groups), groups, products)
      ensures r.Ok? && enabled ==> (r.value == Some(true) <==> !AllReady(old(groups), products))
      ensures r.Ok? && r.value != Some(true) ==> groups == old(groups)
      ensures r.Ok? && enabled ==> Cache(initialGroups).Values == DefaultGroups(groups, products)
      ensures calls >= old(calls) && (r.Err? ==> Failed(old(calls)))
    {
      if !enabled {
        return Ok(None);
      }
      var ok := Call();
      if !ok {
        return Err(());
      }
      var created := EnsureEachProduct(Tree(groups));
      if created.Err? {
        return Err(());
      }
      DoneIsReconciled(old(groups), groups, Cache(initialGroups), products);
      r := Ok(Some(created.value));
    }

    /** The outer loop, with the tree as it was fetched. */
    method EnsureEachProduct(tree: map<string, Node>) returns (r: Result<bool, ()>)
      requires Valid() && forall j | 0 <= j < |products| :: Knows(tree, groups, products[j])
      modifies this`calls, this`groups, this`nextId, this`initialGroups
      ensures Valid() && Grown(old(groups), groups, products)
      ensures r.Ok? ==>
              && DoneUpTo(groups, Cache(initialGroups), products, |products|)
              && (r.value <==> groups != old(groups))
      ensures calls >= old(calls) && (r.Err? ==> Failed(old(calls)))
    {
      var created := false;
      var i := 0;
      while i < |products|
        invariant 0 <= i <= |products| && Valid() && Grown(old(groups), groups, products)
        invariant (created <==> groups != old(groups)) && calls >= old(calls)
        invariant DoneUpTo(groups, Cache(initialGroups), products, i)
        invariant forall j | i <= j < |products| :: Knows(tree, groups, products[j])
      {
        ghost var before, cache := groups, Cache(initialGroups);
        var made, d := EnsureProduct(products[i], tree);
        GrownTwice(old(groups), before, groups, products);
        if made.Err? {
          return Err(());
        }
        DoneOneMore(before, groups, cache, products, i, d);
        created := created || made.value;
        i := i + 1;
      }
      r := Ok(created);
    }

    /** user_initial_groups: adds the user to the products' default groups, one after the other. */
    method UserInitialGroups(id: nat) returns (r: Result<Option<bool>, ()>)
      requires Valid() && id in users
      modifies this`calls, this`groups, this`nextId, this`initialGroups, this`users
      ensures Valid() && Grown(old(groups), groups, products)
      ensures r == Ok(None) ==> users == old(users) && (enabled ==> DefaultGroups(groups, products) == {})
      ensures r.Ok? && r != Ok(None) ==>
              && enabled
              && users == old(users)[id := old(users)[id].(
                   groups := old(users)[id].groups + DefaultGroups(groups, products))]
      ensures id in users && users == old(users)[id := users[id]]
      ensures enabled && r.Ok? ==> Reconciled(old(groups), groups, products)
      ensures calls >= old(calls) && (r.Err? ==> Failed(old(calls)))
    {
      if !enabled {
        return Ok(None);
      }
      var done := EnsureProductGroups();
      if done.Err? {
        return Err(());
      }
      if Cache(initialGroups) == map[] {
        return Ok(None);
      }
      r := JoinAll(id, Cache(initialGroups).Values);
    }

    method JoinAll(id: nat, targets: set<nat>) returns (r: Result<Option<bool>, ()>)
      requires Valid() && id in users
      modifies this`calls, this`users
      ensures Valid() && id in users && users == old(users)[id := users[id]]
      ensures r.Ok? ==> r == Ok(Some(true)) && users[id] == Joined(old(users[id]), targets)
      ensures calls >= old(calls) && (r.Err? ==> Failed(old(calls)))
    {
      ghost var user, done := users[id], {};
      var todo := targets;
      JoinedTwice(user, {}, {});
      while todo != {}
        invariant Valid() && id in users && calls >= old(calls)
        invariant done + todo == targets
        invariant users == old(users)[id := users[id]] && users[id] == Joined(user, done)
        decreases |todo|
      {
        var group :| group in todo;
        var ok := Call();
        if !ok {
          return Err(());
        }
        JoinedTwice(user, done, {group});
        users, todo, done := users[id := Joined(users[id], {group})], todo - {group}, done + {group};
      }
      assert done == targets;
      r := Ok(Some(true));
    }

    /** check_user_roles: Keycloak's admin role follows the local one, no other role is touched; true
        if it was changed. */
    method CheckUserRoles(id: nat, roles: set<string>) returns (r: Result<bool, ()>)
      requires Valid() && id in users
      modifies this`calls, this`adminRoleCached, this`users
      ensures Valid() && (r.Err? ==> users == old(users))
      ensures r.Ok? ==> id in users && users == old(users)[id := old(users)[id].(roles := users[id].roles)]
      ensures r.Ok? ==> forall role ::
                role in users[id].roles <==> if role == "admin" then role in roles else role in old(users)[id].roles
      ensures r.Ok? ==> users == old(users)[id := old(users[id]).(roles := WithAdminAs(old(users[id].roles), roles))]
      ensures r.Ok? ==> (r.value <==> users != old(users))
      ensures calls >= old(calls) && (r.Err? ==> Failed(old(calls)) || (!hasAdminRole && !old(adminRoleCached)))
    {
      var ok := true;
      if !adminRoleCached {
        ok := Call();
        if !ok || !hasAdminRole {
          return Err(());
        }
        adminRoleCached := true;
      }
      ok := Call();
      if !ok {
        return Err(());
      }
      var user := users[id];
      var had, want := KcRoles.ADMIN in user.roles, KcRoles.ADMIN in roles;
      PushGivesAdminAs(user.roles, roles);
      if want == had {
        return Ok(false);
      }
      ok := Call();
      if !ok {
        return Err(());
      }
      users := users[id := user.(roles := KcRoles.Push(user.roles, want, had))];
      r := Ok(true);
    }

    /** create_kc_user: the new user is in exactly the default groups of the products, unless it is
        anon_admin, which is in none; it has the admin role exactly if it has it locally. */
    method CreateKcUser(callsign: string, email: string, kcId: Option<nat>, roles: set<string>)
      returns (r: Result<Option<nat>, ()>)
      requires Valid()
      modifies this`calls, this`adminRoleCached, this`groups, this`nextId, this`initialGroups, this`users
      ensures Valid() && Grown(old(groups), groups, products)
      ensures r == Ok(None) <==> !enabled
      ensures r.Err? ==>
              && enabled
              && (|| kcId.Some? || Failed(old(calls)) || (!hasAdminRole && !old(adminRoleCached))
                  || exists v | v in old(users) ::
                       old(users)[v].username == lower(callsign) || old(users)[v].email == email)
      ensures enabled && kcId.Some? ==> r.Err?
      ensures forall v | v in old(users) && enabled ::
                old(users)[v].username == lower(callsign) || old(users)[v].email == email ==> r.Err?
      ensures forall u | u in old(users) :: u in users && users[u] == old(users[u])
      ensures r.Ok? && enabled ==>
                var u := r.value.value;
                && r.value.Some? && u !in old(users) && u in users && users == old(users)[u := users[u]]
                && users[u].username == lower(callsign) && users[u].email == email
                && (callsign == "anon_admin" ==> users[u].groups == {})
                && (callsign != "anon_admin" ==> forall c ::
                      (c in users[u].groups
                       <==> c in groups && exists i, root | 0 <= i < |products| && root in groups ::
                              groups[root] == Group(products[i], None)
                              && groups[c] == Group(products[i] + "_default", Some(root))))
                && forall role ::
                     role in users[u].roles <==> if role == "admin" then role in roles else role in defaultRoles
      ensures r.Ok? && enabled && callsign != "anon_admin" ==> Reconciled(old(groups), groups, products)
    {
      if !enabled {
        return Ok(None);
      }
      if kcId.Some? {
        return Err(());
      }
      var id := CreateUser(callsign, email);
      if id.Err? {
        return Err(());
      }
      ghost var created := users;
      var ready := SetUpUser(id.value, callsign, roles);
      DefaultsAre(groups, products);
      assert forall u | u in old(users) :: u in created && created[u] == old(users[u]);
      r := if ready then Ok(Some(id.value)) else Err(());
    }

    method JoinInitialGroups(id: nat, callsign: string) returns (ok: bool)
      requires Valid() && enabled && id in users
      modifies this`calls, this`groups, this`nextId, this`initialGroups, this`users
      ensures Valid() && Grown(old(groups), groups, products)
      ensures id in users && users == old(users)[id := users[id]]
      ensures ok && callsign != "anon_admin" ==> Reconciled(old(groups), groups, products)
      ensures ok ==> users[id] == Joined(old(users[id]), InitialGroupsOf(callsign, groups, products))
      ensures calls >= old(calls) && (!ok ==> Failed(old(calls)))
    {
      JoinedTwice(users[id], {}, {});
      if callsign == "anon_admin" {
        return true;
      }
      var joined := UserInitialGroups(id);
      ok := joined.Ok?;
    }

    /** What follows once Keycloak has the user: groups, roles, and reading it back. */
    method SetUpUser(id: nat, callsign: string, roles: set<string>) returns (ready: bool)
      requires Valid() && enabled && id in users
      modifies this`calls, this`adminRoleCached, this`groups, this`nextId, this`initialGroups, this`users
      ensures Valid() && Grown(old(groups), groups, products)
      ensures id in users && users == old(users)[id := users[id]]
      ensures ready && callsign != "anon_admin" ==> Reconciled(old(groups), groups, products)
      ensures ready ==>
                var was := old(users[id]);
                users[id] == Joined(was, InitialGroupsOf(callsign, groups, products)).(
                               roles := WithAdminAs(was.roles, roles))
      ensures calls >= old(calls) && (!ready ==> Failed(old(calls)) || (!hasAdminRole && !old(adminRoleCached)))
    {
      ready := JoinInitialGroups(id, callsign);
      if !ready {
        return;
      }
      var checked := CheckUserRoles(id, roles);
      if checked.Err? {
        return false;
      }
      ready := Call();
    }

    /** Keycloak refuses a user name or an address it knows already. */
    method CreateUser(callsign: string, email: string) returns (r: Result<nat, ()>)
      requires Valid()
      modifies this`calls, this`nextId, this`users
      ensures Valid() && (r.Err? ==> users == old(users))
      ensures r.Ok? ==>
              && r.value !in old(users)
              && users == old(users)[r.value := User(lower(callsign), email, {}, defaultRoles)]
      ensures calls >= old(calls) && (r.Err? ==> Failed(old(calls)) || Known(old(users), lower(callsign), email))
      ensures r.Ok? ==> !Known(old(users), lower(callsign), email)
    {
      var ok := Call();
      if !ok || Known(users, lower(callsign), email) {
        return Err(());
      }
      var id := nextId;
      users, nextId := users[id := User(lower(callsign), email, {}, defaultRoles)], nextId + 1;
      r := Ok(id);
    }
  }

  /** The same roles, except that admin is in them exactly when it is in the local ones. */
  function WithAdminAs(kc: set<string>, local: set<string>): set<string> {
    kc - {KcRoles.ADMIN} + local * {KcRoles.ADMIN}
  }

  /** What check_user_roles writes is that. */
  lemma PushGivesAdminAs(kc: set<string>, local: set<string>)
    ensures KcRoles.Push(kc, KcRoles.ADMIN in local, KcRoles.ADMIN in kc) == WithAdminAs(kc, local)
    ensures forall role :: role in WithAdminAs(kc, local) <==> if role == "admin" then role in local else role in kc
    ensures (KcRoles.ADMIN in local <==> KcRoles.ADMIN in kc) <==> WithAdminAs(kc, local) == kc
  {
    assert local * {KcRoles.ADMIN} == if KcRoles.ADMIN in local then {KcRoles.ADMIN} else {};
  }

  lemma JoinedTwice(user: User, some: set<nat>, more: set<nat>)
    ensures Joined(Joined(user, some), more) == Joined(user, some + more) && Joined(user, {}) == user
  {
    assert user.groups + some + more == user.groups + (some + more);
    assert user.groups + {} == user.groups;
  }

  /** Some user has this user name or this address. */
  predicate Known(users: map<nat, User>, username: string, email: string) {
    exists u | u in users :: users[u].username == username || users[u].email == email
  }

  function InitialGroupsOf(callsign: string, g: Groups, products: seq<string>): set<nat> {
    if callsign == "anon_admin" then {} else DefaultGroups(g, products)
  }

  function Joined(user: User, targets: set<nat>): User {
    user.(groups := user.groups + targets)
  }

  /** The product has its groups, and its default group is in the cache. */
  ghost predicate DoneWith(g: Groups, cache: map<string, nat>, product: string) {
    Ready(g, product) && product in cache && IsDefault(g, cache[product], product)
  }

  ghost predicate DoneUpTo(g: Groups, cache: map<string, nat>, products: seq<string>, n: nat) {
    forall i | 0 <= i < |products| && i < n :: DoneWith(g, cache, products[i])
  }

  lemma DoneStays(g: Groups, h: Groups, cache: map<string, nat>, product: string, other: string, d: nat)
    requires DoneWith(g, cache, product) && product != other
    requires forall c | c in g :: c in h && h[c] == g[c]
    ensures DoneWith(h, cache[other := d], product)
  {
    ReadyStays(g, h, product);
  }

  lemma DoneOneMore(g: Groups, h: Groups, cache: map<string, nat>, products: seq<string>, n: nat, d: nat)
    requires DoneUpTo(g, cache, products, n) && n < |products| && Grown(g, h, products)
    requires forall i, j | 0 <= i < j < |products| :: products[i] != products[j]
    requires Ready(h, products[n]) && IsDefault(h, d, products[n])
    ensures DoneUpTo(h, cache[products[n] := d], products, n + 1)
  {
    var more := cache[products[n] := d];
    forall i | 0 <= i < |products| && i < n + 1 ensures DoneWith(h, more, products[i]) {
      if i < n {
        assert DoneWith(g, cache, products[i]);
        DoneStays(g, h, cache, products[i], products[n], d);
      }
    }
  }

  lemma OneDefaultEach(g: Groups, c: nat, d: nat, product: string)
    requires Sound(g) && IsDefault(g, c, product) && IsDefault(g, d, product)
    ensures c == d
  {
    assert g[g[c].parent.value] == g[g[d].parent.value];
    assert g[c] == g[d];
  }

  lemma CacheIsDefaults(g: Groups, cache: map<string, nat>, products: seq<string>)
    requires Sound(g) && DoneUpTo(g, cache, products, |products|)
    requires forall p | p in cache :: p in products
    ensures cache.Values == DefaultGroups(g, products)
  {
    forall c | c in cache.Values ensures c in DefaultGroups(g, products) {
      var p :| p in cache && cache[p] == c;
      var i :| 0 <= i < |products| && products[i] == p;
      assert DoneWith(g, cache, products[i]);
    }
    forall c | c in DefaultGroups(g, products) ensures c in cache.Values {
      var i :| 0 <= i < |products| && IsDefault(g, c, products[i]);
      assert DoneWith(g, cache, products[i]);
      OneDefaultEach(g, c, cache[products[i]], products[i]);
    }
  }

  lemma DoneIsReconciled(before: Groups, g: Groups, cache: map<string, nat>, products: seq<string>)
    requires Grown(before, g, products) && DoneUpTo(g, cache, products, |products|)
    requires forall p | p in cache :: p in products
    ensures Reconciled(before, g, products) && (g != before <==> !AllReady(before, products))
    ensures cache.Values == DefaultGroups(g, products)
  {
    forall i | 0 <= i < |products| ensures Ready(g, products[i]) {
      assert DoneWith(g, cache, products[i]);
    }
    ChangesIffSomethingMissing(before, g, products);
    CacheIsDefaults(g, cache, products);
  }

  predicate OnlyBelow(before: Groups, after: Groups, r: nat) {
    forall c | c in after && c !in before :: after[c].parent == Some(r)
  }

  lemma GrownBelowTwice(first: Groups, middle: Groups, last: Groups, products: seq<string>, r: nat)
    requires Grown(first, middle, products) && Grown(middle, last, products)
    requires OnlyBelow(first, middle, r) && OnlyBelow(middle, last, r)
    ensures Grown(first, last, products) && OnlyBelow(first, last, r) && (last == first ==> middle == first)
  {
    GrownTwice(first, middle, last, products);
  }

  /** The inner loop's invariant: the first few of the product's sub-groups are there. */
  ghost predicate HasSome(first: Groups, g: Groups, products: seq<string>, product: string, r: nat,
                          subs: map<string, nat>, children: seq<nat>)
  {
    && Grown(first, g, products) && OnlyBelow(first, g, r)
    && Root(g, r, product) && Lists(subs, g, Some(r))
    && |children| <= |SUFFIXES|
    && forall j | 0 <= j < |children| :: IsChild(g, children[j], r, product, SUFFIXES[j])
  }

  lemma HasOneMore(first: Groups, g: Groups, h: Groups, products: seq<string>, product: string, r: nat,
                   subs: map<string, nat>, children: seq<nat>, c: nat)
    requires HasSome(first, g, products, product, r, subs, children) && |children| < |SUFFIXES|
    requires Grown(g, h, products) && OnlyBelow(g, h, r) && IsChild(h, c, r, product, SUFFIXES[|children|])
    requires Lists(subs[ChildName(product, SUFFIXES[|children|]) := c], h, Some(r))
    ensures HasSome(first, h, products, product, r, subs[ChildName(product, SUFFIXES[|children|]) := c], children + [c])
  {
    GrownBelowTwice(first, g, h, products, r);
    forall j | 0 <= j < |children| ensures IsChild(h, children[j], r, product, SUFFIXES[j]) {
      assert IsChild(g, children[j], r, product, SUFFIXES[j]);
    }
  }

  function Cache(initialGroups: Option<map<string, nat>>): map<string, nat> {
    if initialGroups.Some? then initialGroups.value else map[]
  }

  function Remembered(initialGroups: Option<map<string, nat>>, product: string, suffix: Suffix,
                      id: nat): Option<map<string, nat>> {
    Some(if suffix.Default? then Cache(initialGroups)[product := id] else Cache(initialGroups))
  }

  /** The cache when these of the product's sub-groups have been seen to. */
  function Cached(initialGroups: Option<map<string, nat>>, product: string, children: seq<nat>):
    Option<map<string, nat>> {
    if children == [] then initialGroups else Some(Cache(initialGroups)[product := children[0]])
  }

  lemma CachedOneMore(initialGroups: Option<map<string, nat>>, product: string, children: seq<nat>, id: nat)
    requires |children| < |SUFFIXES|
    ensures Remembered(Cached(initialGroups, product, children), product, SUFFIXES[|children|], id)
         == Cached(initialGroups, product, children + [id])
  {
  }
}
