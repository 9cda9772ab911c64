// The capability order: _subset of hufiagents/orchestrator/workforce.py and its
// second implementation in hufiagents/workforce/builder.py.

module Capabilities {

  // A JSON value: a scalar, a list of scalars or a dictionary.
  datatype Value =
    | Atom(text: string)
    | Items(items: seq<string>)
    | Record(fields: map<string, Value>)

  predicate Included(child: seq<string>, parent: seq<string>) {
    forall i | i in child :: i in parent
  }

  // orchestrator/workforce.py
  predicate Subset(child: Value, parent: Value) {
    match child
    case Record(fields) =>
      parent.Record? && forall k | k in fields :: k in parent.fields && Subset(fields[k], parent.fields[k])
    case Items(items) => parent.Items? && Included(items, parent.items)
    case Atom(_) => child == parent
  }

  lemma {:induction false} SubsetIsReflexive(value: Value)
    ensures Subset(value, value)
  {
    if value.Record? {
      forall k | k in value.fields ensures Subset(value.fields[k], value.fields[k]) {
        SubsetIsReflexive(value.fields[k]);
      }
    }
  }

  lemma {:induction false} SubsetIsTransitive(a: Value, b: Value, c: Value)
    requires Subset(a, b) && Subset(b, c)
    ensures Subset(a, c)
  {
    if a.Record? {
      forall k | k in a.fields ensures k in c.fields && Subset(a.fields[k], c.fields[k]) {
        assert Subset(a.fields[k], b.fields[k]) && Subset(b.fields[k], c.fields[k]);
        SubsetIsTransitive(a.fields[k], b.fields[k], c.fields[k]);
      }
    }
  }

  // What can stand at some place of a value.
  datatype Grant = Scalar(text: string) | Entry(text: string) | AList | ADictionary

  // The value has this under the path of keys.
  predicate Grants(value: Value, path: seq<string>, grant: Grant)
    decreases |path|
  {
    if path != [] then value.Record? && path[0] in value.fields && Grants(value.fields[path[0]], path[1..], grant)
    else
      match grant
      case Scalar(text) => value == Atom(text)
      case Entry(text) => value.Items? && text in value.items
      case AList => value.Items?
      case ADictionary => value.Record?
  }

  lemma {:induction false} SubsetGrantsNothingNew(child: Value, parent: Value, path: seq<string>, grant: Grant)
    requires Subset(child, parent) && Grants(child, path, grant)
    ensures Grants(parent, path, grant)
    decreases |path|
  {
    if path != [] {
      SubsetGrantsNothingNew(child.fields[path[0]], parent.fields[path[0]], path[1..], grant);
    }
  }

  ghost predicate GrantsAll(parent: Value, child: Value) {
    forall path, grant | Grants(child, path, grant) :: Grants(parent, path, grant)
  }

  // Containment means exactly that every grant of the child, however deep, is a
  // grant of the parent.
  lemma {:induction false} SubsetMeansGrants(child: Value, parent: Value)
    ensures Subset(child, parent) <==> GrantsAll(parent, child)
    decreases child
  {
    if Subset(child, parent) {
      forall path, grant | Grants(child, path, grant) ensures Grants(parent, path, grant) {
        SubsetGrantsNothingNew(child, parent, path, grant);
      }
    }
    if GrantsAll(parent, child) {
      match child
      case Atom(text) => assert Grants(child, [], Scalar(text));
      case Items(items) =>
        assert Grants(child, [], AList);
        forall i | i in items ensures i in parent.items {
          assert Grants(child, [], Entry(i));
        }
      case Record(fields) =>
        assert Grants(child, [], ADictionary);
        forall k | k in fields ensures k in parent.fields && Subset(fields[k], parent.fields[k]) {
          GrantsBelow(child, parent, k);
          SubsetMeansGrants(fields[k], parent.fields[k]);
        }
    }
  }

  lemma GrantsBelow(child: Value, parent: Value, k: string)
    requires child.Record? && parent.Record? && k in child.fields && GrantsAll(parent, child)
    ensures k in parent.fields && GrantsAll(parent.fields[k], child.fields[k])
  {
    var root := match child.fields[k]
      case Atom(text) => Scalar(text)
      case Items(_) => AList
      case Record(_) => ADictionary;
    assert [k][1..] == [] && Grants(child, [k], root);
    forall path, grant | Grants(child.fields[k], path, grant) ensures Grants(parent.fields[k], path, grant) {
      assert ([k] + path)[1..] == path;
      assert Grants(child, [k] + path, grant);
    }
  }

  // workforce/builder.py: the dictionaries are compared key by key, and values
  // of different or scalar kinds by equality.
  method BuilderSubset(child: Value, parent: Value) returns (ok: bool)
    requires child.Record? && parent.Record?
    ensures ok <==> Subset(child, parent)
    ensures ok <==> GrantsAll(parent, child)
    decreases child
  {
    SubsetMeansGrants(child, parent);
    hide GrantsAll;
    var left := child.fields.Keys;
    while left != {}
      invariant left <= child.fields.Keys
      invariant forall k | k in child.fields && k !in left ::
                  k in parent.fields && Subset(child.fields[k], parent.fields[k])
      decreases left
    {
      var key :| key in left;
      var val := child.fields[key];
      if key !in parent.fields {
        return false;
      }
      var pval := parent.fields[key];
      if val.Record? && pval.Record? {
        var inner := BuilderSubset(val, pval);
        if !inner {
          return false;
        }
      } else if val.Items? && pval.Items? {
        if !Included(val.items, pval.items) {
          return false;
        }
      } else if val != pval {
        assert !Subset(val, pval);
        return false;
      } else {
        SubsetIsReflexive(val);
      }
      left := left - {key};
    }
    return true;
  }
}
