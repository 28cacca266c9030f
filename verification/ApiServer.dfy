/** The Kubernetes API server as the reconcilers see it, one kind of object at a time and without
    other writers: List by label, Create, Update and Delete. */
module ApiServer {
  import opened Subsets

  datatype Key = Key(namespace: string, name: string)

  datatype Object<S> = Object(labels: Labels, finalizers: seq<string>, owner: string, spec: S)

  predicate Selects<S>(o: Object<S>, selector: string, value: string) {
    selector in o.labels && o.labels[selector] == value
  }

  /** The compare functions: finalizers, labels or spec are not as wanted. */
  predicate Differs<S(==)>(want: Object<S>, found: Object<S>) {
    want.finalizers != found.finalizers || want.labels != found.labels || want.spec != found.spec
  }

  /** The names carrying the label in the namespace. */
  ghost function Listed<S>(store: map<Key, Object<S>>, namespace: string, selector: string,
                           value: string): set<string> {
    set k | k in store && k.namespace == namespace && Selects(store[k], selector, value) :: k.name
  }

  class Api<S(==)> {
    var objects: map<Key, Object<S>>

    constructor (objects: map<Key, Object<S>>)
      ensures this.objects == objects
    {
      this.objects := objects;
    }

    /** The items of the list, by name. */
    method List(namespace: string, selector: string, value: string) returns (found: map<string, Object<S>>)
      ensures found.Keys == Listed(objects, namespace, selector, value)
      ensures forall n :: n in found ==> Key(namespace, n) in objects && found[n] == objects[Key(namespace, n)]
    {
      found := map[];
      var rest := objects.Keys;
      while rest != {}
        invariant rest <= objects.Keys
        invariant forall n :: n in found <==>
          Key(namespace, n) in objects && Key(namespace, n) !in rest &&
          Selects(objects[Key(namespace, n)], selector, value)
        invariant forall n :: n in found ==> found[n] == objects[Key(namespace, n)]
        decreases rest
      {
        var k :| k in rest;
        rest := rest - {k};
        if k.namespace == namespace && Selects(objects[k], selector, value) {
          found := found[k.name := objects[k]];
        }
      }
      assert forall n :: n in found ==> Key(namespace, n).name == n;
    }

    /** False is the AlreadyExists error. */
    method Create(key: Key, o: Object<S>) returns (created: bool)
      modifies this
      ensures created <==> key !in old(objects)
      ensures objects == if created then old(objects)[key := o] else old(objects)
    {
      created := key !in objects;
      if created {
        objects := objects[key := o];
      }
    }

    method Update(key: Key, o: Object<S>)
      requires key in objects
      modifies this
      ensures objects == old(objects)[key := o]
    {
      objects := objects[key := o];
    }

    method Delete(key: Key)
      requires key in objects
      modifies this
      ensures objects == old(objects) - {key}
    {
      objects := objects - {key};
    }
  }

  // ----- a reconcile run in progress -----

  ghost predicate Among(k: Key, namespace: string, names: set<string>) {
    k.namespace == namespace && k.name in names
  }

  ghost function KeysOf(namespace: string, names: set<string>): set<Key> { set n | n in names :: Key(namespace, n) }

  /** The store when the names `done` have reached their outcome and the names `gone` are deleted. */
  ghost function Staged<S>(store: map<Key, Object<S>>, namespace: string, outcome: map<string, Object<S>>,
                           done: set<string>, gone: set<string>): map<Key, Object<S>>
    requires done <= outcome.Keys
  {
    map k | k in store.Keys + KeysOf(namespace, done) && (Among(k, namespace, done) || !Among(k, namespace, gone)) ::
      if Among(k, namespace, done) then outcome[k.name] else store[k]
  }

  lemma {:induction false} StagedNothing<S>(store: map<Key, Object<S>>, namespace: string,
                                            outcome: map<string, Object<S>>)
    ensures Staged(store, namespace, outcome, {}, {}) == store
  {
  }

  lemma {:induction false} StagedOne<S>(store: map<Key, Object<S>>, namespace: string, outcome: map<string, Object<S>>,
                                        done: set<string>, n: string)
    requires done <= outcome.Keys && n in outcome
    ensures Staged(store, namespace, outcome, done + {n}, {}) ==
      Staged(store, namespace, outcome, done, {})[Key(namespace, n) := outcome[n]]
  {
    var a := Staged(store, namespace, outcome, done + {n}, {});
    var b := Staged(store, namespace, outcome, done, {})[Key(namespace, n) := outcome[n]];
    assert KeysOf(namespace, done + {n}) == KeysOf(namespace, done) + {Key(namespace, n)};
    assert a.Keys == b.Keys;
    forall k | k in a
      ensures a[k] == b[k]
    {
    }
  }

  lemma {:induction false} StagedGone<S>(store: map<Key, Object<S>>, namespace: string, outcome: map<string, Object<S>>,
                                         done: set<string>, gone: set<string>)
    requires done <= outcome.Keys && done !! gone
    ensures Staged(store, namespace, outcome, done, gone) ==
      Staged(store, namespace, outcome, done, {}) - KeysOf(namespace, gone)
  {
  }

  /** What Staged contains, key by key. */
  lemma {:induction false} StagedAt<S>(store: map<Key, Object<S>>, namespace: string, outcome: map<string, Object<S>>,
                                       done: set<string>, gone: set<string>, k: Key)
    requires done <= outcome.Keys
    ensures var t := Staged(store, namespace, outcome, done, gone);
      && (k in t <==> Among(k, namespace, done) || (k in store && !Among(k, namespace, gone)))
      && (k in t ==> t[k] == if Among(k, namespace, done) then outcome[k.name] else store[k])
  {
  }

  lemma {:induction false} SameOutcomes<S>(store: map<Key, Object<S>>, namespace: string, a: map<string, Object<S>>,
                                           b: map<string, Object<S>>, done: set<string>)
    requires done <= a.Keys && done <= b.Keys && forall n :: n in done ==> a[n] == b[n]
    ensures Staged(store, namespace, a, done, {}) == Staged(store, namespace, b, done, {})
  {
  }

  method DeleteAll<S>(api: Api<S>, namespace: string, names: set<string>)
    requires forall n :: n in names ==> Key(namespace, n) in api.objects
    modifies api
    ensures api.objects == old(api.objects) - KeysOf(namespace, names)
  {
    var rest := names;
    while rest != {}
      invariant rest <= names
      invariant api.objects == old(api.objects) - KeysOf(namespace, names - rest)
      decreases rest
    {
      var n :| n in rest;
      assert Key(namespace, n) !in KeysOf(namespace, names - rest);
      assert KeysOf(namespace, names - (rest - {n})) == KeysOf(namespace, names - rest) + {Key(namespace, n)};
      rest := rest - {n};
      api.Delete(Key(namespace, n));
    }
    assert names - {} == names;
  }
}
