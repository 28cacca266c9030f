/** Which services an application accesses: the registry client collects the relation
    (pkg/adapter/registry/zk/client.go:391-463), the event handler writes it to ServiceAccessor objects
    (pkg/adapter/handler/kube_singlecluster_handler.go:120-176), one task per event on a worker pool. */
module Accessors {
  import opened Wrappers
  import opened Subsets
  import opened Strings
  import opened Names
  import opened ApiServer

  type Mapping = map<string, set<string>>

  const NAMESPACE := "sym-admin"

  function Scoped(m: Mapping, app: string): set<string> { if app in m then m[app] else {} }

  /** A missing label reads as the empty string. */
  function AppOf(labels: Labels): string { if "app" in labels then labels["app"] else "" }

  function AppsOf(instances: seq<Labels>): set<string> {
    if instances == [] then {}
    else
      var n := |instances| - 1;
      AppsOf(instances[..n]) + if AppOf(instances[n]) != "" then {AppOf(instances[n])} else {}
  }

  lemma {:induction false} AppsOfMembers(instances: seq<Labels>, a: string)
    ensures a in AppsOf(instances) <==> a != "" && exists i :: 0 <= i < |instances| && AppOf(instances[i]) == a
  {
    if instances == [] {
    } else {
      var n := |instances| - 1;
      AppsOfMembers(instances[..n], a);
      assert forall i :: 0 <= i < n ==> instances[..n][i] == instances[i];
    }
  }

  /** The scopes whose objects the handler rewrites; an empty label counts here. */
  function ChangedScopes(instances: seq<Labels>): set<string> { set l | l in instances && "app" in l :: l["app"] }

  /** The mapping after the instances of an accessor of `service` were replaced: pairs are only ever added. */
  function WithAccessor(m: Mapping, service: string, apps: set<string>): Mapping {
    map a | a in m.Keys + apps :: if a in apps then Scoped(m, a) + {service} else Scoped(m, a)
  }

  // ----- the code -----

  class Registry {
    var accessors: set<string>
    var scopedAccessorsMapping: Mapping

    constructor ()
      ensures accessors == {} && scopedAccessorsMapping == map[]
    {
      accessors, scopedAccessorsMapping := {}, map[];
    }

    method AddAccessor(hostname: string)
      modifies this`accessors
      ensures accessors == old(accessors) + {hostname}
    {
      if hostname !in accessors {
        accessors := accessors + {hostname};
      }
    }

    method ReplaceAccessorInstances(hostname: string, instances: seq<Labels>)
      modifies this
      ensures accessors == old(accessors) + {hostname}
      ensures scopedAccessorsMapping == WithAccessor(old(scopedAccessorsMapping), hostname, AppsOf(instances))
    {
      AddAccessor(hostname);
      ghost var before := scopedAccessorsMapping;
      WithNobody(before, hostname);
      for i := 0 to |instances|
        invariant accessors == old(accessors) + {hostname}
        invariant scopedAccessorsMapping == WithAccessor(before, hostname, AppsOf(instances[..i]))
      {
        OneMoreApp(before, hostname, instances, i);
        var scopedKey := AppOf(instances[i]);
        if scopedKey == "" {
          continue;
        }
        AddPair(scopedKey, hostname);
      }
      assert instances[..|instances|] == instances;
    }

    method AddPair(scopedKey: string, hostname: string)
      modifies this`scopedAccessorsMapping
      ensures scopedAccessorsMapping ==
        old(scopedAccessorsMapping)[scopedKey := Scoped(old(scopedAccessorsMapping), scopedKey) + {hostname}]
    {
      if scopedKey !in scopedAccessorsMapping {
        scopedAccessorsMapping := scopedAccessorsMapping[scopedKey := {}];
      }
      scopedAccessorsMapping := scopedAccessorsMapping[scopedKey := scopedAccessorsMapping[scopedKey] + {hostname}];
    }
  }

  lemma {:induction false} WithNobody(m: Mapping, service: string)
    ensures WithAccessor(m, service, AppsOf([])) == m
  {
  }

  lemma {:induction false} OneMoreApp(m: Mapping, service: string, instances: seq<Labels>, i: nat)
    requires i < |instances|
    ensures var a := AppOf(instances[i]);
      var before := WithAccessor(m, service, AppsOf(instances[..i]));
      WithAccessor(m, service, AppsOf(instances[..i + 1])) ==
        if a == "" then before else before[a := Scoped(before, a) + {service}]
  {
    assert instances[..i + 1][..i] == instances[..i];
  }

  ghost predicate IsEnumeration(list: seq<string>, s: set<string>) {
    Increasing(list) && forall x :: x in list <==> x in s
  }

  /** Collecting the keys of a Go map, then sort.Strings. */
  method SortedKeys(s: set<string>) returns (list: seq<string>)
    ensures IsEnumeration(list, s)
  {
    list := [];
    var rest := s;
    while rest != {}
      invariant rest <= s && IsEnumeration(list, s - rest)
      decreases rest
    {
      var x :| x in rest;
      rest := rest - {x};
      list := Insert(list, x);
    }
  }

  method Insert(list: seq<string>, x: string) returns (r: seq<string>)
    requires Increasing(list) && x !in list
    ensures Increasing(r) && forall y :: y in r <==> y in list || y == x
  {
    var i := 0;
    while i < |list| && Less(list[i], x)
      invariant i <= |list|
      invariant forall j :: 0 <= j < i ==> Less(list[j], x)
    {
      i := i + 1;
    }
    if i < |list| {
      LessThanRest(list, i, x);
    }
    r := list[..i] + [x] + list[i..];
    assert list == list[..i] + list[i..];
  }

  lemma {:induction false} LessThanRest(list: seq<string>, i: nat, x: string)
    requires Increasing(list) && i < |list| && !Less(list[i], x) && x != list[i]
    ensures forall j :: i <= j < |list| ==> Less(x, list[j])
  {
    LessIsTotal(x, list[i]);
    forall j | i < j < |list|
      ensures Less(x, list[j])
    {
      LessIsTransitive(x, list[i], list[j]);
    }
  }

  /** Equal relations give equal specs. */
  lemma {:induction false} EnumerationIsUnique(a: seq<string>, b: seq<string>, s: set<string>)
    requires IsEnumeration(a, s) && IsEnumeration(b, s)
    ensures a == b
  {
    IncreasingIsUnique(a, b);
  }

  /** One scope; an object cannot have the empty name. */
  method Upsert(api: Api<seq<string>>, scope: string, hosts: seq<string>)
    modifies api
    ensures KeyOf(scope).name == "" ==> api.objects == old(api.objects)
    ensures KeyOf(scope).name != "" ==> KeyOf(scope) in api.objects && api.objects[KeyOf(scope)].spec == hosts
    ensures KeyOf(scope).name != "" && KeyOf(scope) !in old(api.objects) ==>
      api.objects[KeyOf(scope)] == Object(map[], [], "", hosts)
    ensures OnlyThis(old(api.objects), api.objects, scope)
  {
    var key := Key(NAMESPACE, FormatToDNS1123(scope));
    if key.name == "" {
      return;
    }
    if key !in api.objects {
      var _ := api.Create(key, Object(map[], [], "", hosts));
      return;
    }
    var found := api.objects[key];
    if found.spec == hosts {
      return;
    }
    api.Update(key, found.(spec := hosts));
  }

  function KeyOf(scope: string): Key { Key(NAMESPACE, FormatToDNS1123(scope)) }

  /** The object of the scope enumerates the services. */
  ghost predicate Enumerates(objects: map<Key, Object<seq<string>>>, scope: string, services: set<string>) {
    KeyOf(scope) in objects && IsEnumeration(objects[KeyOf(scope)].spec, services)
  }

  /** The scopes an event changes are the applications its instances name, and a scope's object goes by the
      formatted name, all in one namespace. */
  lemma {:induction false} ScopesAre(instances: seq<Labels>, x: string)
    ensures x in ChangedScopes(instances) <==> exists l :: l in instances && "app" in l && l["app"] == x
    ensures KeyOf(x) == Key("sym-admin", FormatToDNS1123(x))
  {
  }

  /** No two of the scopes share an object. */
  ghost predicate Separate(scopes: set<string>) {
    forall x, y :: x in scopes && y in scopes && FormatToDNS1123(x) == FormatToDNS1123(y) ==> x == y
  }

  /** All objects are still there and differ in their specs at most. */
  ghost predicate OnlySpecs<S>(before: map<Key, Object<S>>, after: map<Key, Object<S>>) {
    forall k :: k in before ==> k in after && SameButSpec(before[k], after[k])
  }

  ghost predicate SameButSpec<S>(a: Object<S>, b: Object<S>) {
    a.labels == b.labels && a.finalizers == b.finalizers && a.owner == b.owner
  }

  type Objects = map<Key, Object<seq<string>>>

  /** Only the object of the scope has changed, and only in its spec, or has been created. */
  ghost predicate OnlyThis(before: Objects, after: Objects, scope: string) {
    && OnlySpecs(before, after)
    && forall k :: k != KeyOf(scope) ==> (k in after <==> k in before) && (k in after ==> after[k] == before[k])
  }

  /** The scopes `done` of those the event changes have been served. */
  ghost predicate Served(start: Objects, objects: Objects, scopes: set<string>, done: set<string>, mapping: Mapping) {
    && (Separate(scopes) ==> forall x :: x in done && x != "" ==> Enumerates(objects, x, Scoped(mapping, x)))
    && (forall k :: (forall x :: x in scopes ==> k != KeyOf(x)) ==>
         (k in objects <==> k in start) && (k in objects ==> objects[k] == start[k]))
    && OnlySpecs(start, objects)
  }

  lemma {:induction false} OneMoreServed(start: Objects, before: Objects, after: Objects, scopes: set<string>,
                                         done: set<string>, scope: string, mapping: Mapping)
    requires Served(start, before, scopes, done, mapping) && done <= scopes && scope in scopes
    requires OnlyThis(before, after, scope) && (scope != "" ==> Enumerates(after, scope, Scoped(mapping, scope)))
    ensures Served(start, after, scopes, done + {scope}, mapping)
  {
    if Separate(scopes) {
      forall x | x in done && x != "" && x != scope
        ensures Enumerates(after, x, Scoped(mapping, x))
      {
        assert KeyOf(x) != KeyOf(scope);
      }
    }
  }

  /** The handler for one event, while nothing else happens: the object of each application that the
      instances name enumerates its services; all objects keep what else they hold. */
  method ReplaceAccessorInstances(api: Api<seq<string>>, instances: seq<Labels>, mapping: Mapping)
    modifies api
    ensures Served(old(api.objects), api.objects, ChangedScopes(instances), ChangedScopes(instances), mapping)
  {
    ghost var start, scopes := api.objects, ChangedScopes(instances);
    var rest := ChangedScopes(instances);
    while rest != {}
      invariant rest <= scopes && Served(start, api.objects, scopes, scopes - rest, mapping)
      decreases rest
    {
      var scope :| scope in rest;
      ghost var before, done := api.objects, scopes - rest;
      rest := rest - {scope};
      var accessedServices := SortedKeys(Scoped(mapping, scope));
      assert scope != "" ==> KeyOf(scope).name != "" by {
        assert |FormatToDNS1123(scope)| == |scope|;
      }
      Upsert(api, scope, accessedServices);
      OneMoreServed(start, before, api.objects, scopes, done, scope, mapping);
      assert scopes - rest == done + {scope};
    }
    assert scopes - {} == scopes;
  }
}
