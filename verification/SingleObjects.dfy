/** Services with one object of a kind: reconcileServiceEntry, and reconcileDestinationRule and
    reconcileVirtualService of both controllers, which all follow one pattern. */
module SingleObjects {
  import opened ApiServer

  /** The object `want` goes by `name`; List and the clean-up use the label `selector`. */
  datatype Wish<S> = Wish(namespace: string, name: string, selector: string, want: Object<S>) {
    predicate Valid() { selector in want.labels }

    function Value(): string requires Valid() { want.labels[selector] }

    function Where(): Key { Key(namespace, name) }
  }

  /** The wanted name belongs to an object without the label. */
  predicate Foreign<S>(w: Wish<S>, store: map<Key, Object<S>>)
    requires w.Valid()
  {
    w.Where() in store && !Selects(store[w.Where()], w.selector, w.Value())
  }

  ghost function Carriers<S>(w: Wish<S>, store: map<Key, Object<S>>): set<string>
    requires w.Valid()
  {
    Listed(store, w.namespace, w.selector, w.Value())
  }

  /** An update replaces everything but the owner. */
  function Made<S>(w: Wish<S>, store: map<Key, Object<S>>): Object<S> {
    if w.Where() in store then w.want.(owner := store[w.Where()].owner) else w.want
  }

  /** The store after a reconcile. */
  ghost function Granted<S>(w: Wish<S>, store: map<Key, Object<S>>): map<Key, Object<S>>
    requires w.Valid()
  {
    if Foreign(w, store) then store
    else Staged(store, w.namespace, map[w.name := Made(w, store)], {w.name}, Carriers(w, store) - {w.name})
  }

  method ReconcileOne<S(==)>(api: Api<S>, w: Wish<S>)
    requires w.Valid()
    modifies api
    ensures api.objects == Granted(w, old(api.objects))
  {
    ghost var store := api.objects;
    ghost var outcome := map[w.name := Made(w, store)];
    var foundMap := api.List(w.namespace, w.selector, w.Value());
    ListedHas(store, w);
    StagedNothing(store, w.namespace, outcome);
    StagedOne(store, w.namespace, outcome, {}, w.name);
    assert {} + {w.name} == {w.name};
    if w.name !in foundMap {
      var created := api.Create(w.Where(), w.want);
      if !created {
        return;
      }
    } else {
      var found := foundMap[w.name];
      if Differs(w.want, found) {
        api.Update(w.Where(), found.(spec := w.want.spec, finalizers := w.want.finalizers, labels := w.want.labels));
      }
      foundMap := foundMap - {w.name};
    }
    assert api.objects == Staged(store, w.namespace, outcome, {w.name}, {});
    DeleteAll(api, w.namespace, foundMap.Keys);
    StagedGone(store, w.namespace, outcome, {w.name}, foundMap.Keys);
  }

  lemma {:induction false} ListedHas<S>(store: map<Key, Object<S>>, w: Wish<S>)
    requires w.Valid()
    ensures w.name in Carriers(w, store) <==> w.Where() in store && Selects(store[w.Where()], w.selector, w.Value())
  {
  }

  // ----- what a reconcile achieves -----

  lemma {:induction false} GrantedAt<S>(w: Wish<S>, store: map<Key, Object<S>>, k: Key)
    requires w.Valid() && !Foreign(w, store)
    ensures var t := Granted(w, store);
      && (k == w.Where() ==> k in t && t[k] == Made(w, store))
      && (k != w.Where() ==> (k in t <==>
            k in store && !(k.namespace == w.namespace && Selects(store[k], w.selector, w.Value()))))
      && (k != w.Where() && k in t ==> t[k] == store[k])
  {
  }

  predicate IsAsWanted<S(==)>(w: Wish<S>, o: Object<S>) {
    o.labels == w.want.labels && o.finalizers == w.want.finalizers && o.spec == w.want.spec
  }

  /** Afterwards the service has exactly its one object, if and only if nobody else holds the name;
      the object is as wanted. */
  lemma {:induction false} ExactlyOne<S>(w: Wish<S>, store: map<Key, Object<S>>)
    requires w.Valid()
    ensures Carriers(w, Granted(w, store)) == {w.name} <==> !Foreign(w, store)
    ensures !Foreign(w, store) ==> w.Where() in Granted(w, store) && IsAsWanted(w, Granted(w, store)[w.Where()])
    ensures !Foreign(w, store) ==>
      Granted(w, store)[w.Where()].owner == if w.Where() in store then store[w.Where()].owner else w.want.owner
  {
  }

  /** Only the wanted object and those carrying the label are touched; of a name held by somebody
      else nothing is, not even the label's other objects. */
  lemma {:induction false} OthersUntouched<S>(w: Wish<S>, store: map<Key, Object<S>>, k: Key)
    requires w.Valid()
    requires Foreign(w, store) || (k != w.Where() &&
      !(k in store && k.namespace == w.namespace && Selects(store[k], w.selector, w.Value())))
    ensures var t := Granted(w, store);
      (k in t <==> k in store) && (k in t ==> t[k] == store[k])
  {
  }

  lemma {:induction false} GrantIsIdempotent<S>(w: Wish<S>, store: map<Key, Object<S>>)
    requires w.Valid()
    ensures Granted(w, Granted(w, store)) == Granted(w, store)
  {
  }

  // ----- two owners of one name, one after the other -----

  /** The wanted object is there, as wanted. */
  predicate InEffect<S(==)>(w: Wish<S>, store: map<Key, Object<S>>) {
    w.Where() in store && IsAsWanted(w, store[w.Where()])
  }

  /** The second wish for a name comes into effect if and only if both use one label value; otherwise
      it finds the name held, and changes nothing at all. */
  lemma {:induction false} SecondWish<S>(first: Wish<S>, second: Wish<S>, store: map<Key, Object<S>>)
    requires first.Valid() && second.Valid() && !Foreign(first, store)
    requires first.Where() == second.Where() && first.selector == second.selector
    ensures var before := Granted(first, store);
      var after := Granted(second, before);
      && (InEffect(second, after) <==> first.Value() == second.Value())
      && (first.Value() != second.Value() ==> after == before)
  {
    ExactlyOne(first, store);
    ExactlyOne(second, Granted(first, store));
  }

  /** Objects with another label value stay uncounted. */
  lemma {:induction false} NoneListed<S>(w: Wish<S>, store: map<Key, Object<S>>, value: string)
    requires w.Valid() && w.Value() != value && Listed(store, w.namespace, w.selector, value) == {}
    ensures Listed(Granted(w, store), w.namespace, w.selector, value) == {}
  {
    if !Foreign(w, store) {
      var t := Granted(w, store);
      forall k | k in t && k.namespace == w.namespace
        ensures !Selects(t[k], w.selector, value)
      {
        GrantedAt(w, store, k);
        assert k in store && Selects(store[k], w.selector, value) ==>
          k.name in Listed(store, w.namespace, w.selector, value);
      }
    }
  }
}
