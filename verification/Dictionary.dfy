/** Dictionary order on strings, as a file listing or a sort of names uses it. */
module Dictionary {
  predicate Before(s: string, t: string) {
    exists i :: 0 <= i <= |s| && i < |t| && s[..i] == t[..i] && (i == |s| || s[i] < t[i])
  }

  lemma {:induction false} Irreflexive(s: string)
    ensures !Before(s, s)
  {
  }

  /** The first place where two strings, neither of which continues the other, differ. */
  lemma {:induction false} FirstDifference(s: string, t: string) returns (i: nat)
    ensures i <= |s| && i <= |t| && s[..i] == t[..i]
    ensures i < |s| && i < |t| ==> s[i] != t[i]
  {
    i := 0;
    while i < |s| && i < |t| && s[i] == t[i]
      invariant i <= |s| && i <= |t| && s[..i] == t[..i]
    {
      i := i + 1;
    }
  }

  lemma {:induction false} Total(s: string, t: string)
    ensures s == t || Before(s, t) || Before(t, s)
  {
    var i := FirstDifference(s, t);
    if i == |s| && i == |t| {
      assert s == s[..i] && t == t[..i];
    }
  }

  lemma {:induction false} Transitive(s: string, t: string, u: string)
    requires Before(s, t) && Before(t, u)
    ensures Before(s, u)
  {
    var i :| 0 <= i <= |s| && i < |t| && s[..i] == t[..i] && (i == |s| || s[i] < t[i]);
    var j :| 0 <= j <= |t| && j < |u| && t[..j] == u[..j] && (j == |t| || t[j] < u[j]);
    var k := if i <= j then i else j;
    assert s[..k] == s[..i][..k] == t[..i][..k] == t[..k];
    assert u[..k] == u[..j][..k] == t[..j][..k] == t[..k];
    if i < j { assert u[i] == u[..j][i] == t[..j][i] == t[i]; }
    if j < i { assert s[j] == s[..i][j] == t[..i][j] == t[j]; }
    assert 0 <= k <= |s| && k < |u| && (k == |s| || s[k] < u[k]);
  }

  predicate Sorted(names: seq<string>) {
    forall j, k :: 0 <= j < k < |names| ==> Before(names[j], names[k])
  }

  /** names lists exactly the keys, once each, in order. */
  ghost predicate Lists(names: seq<string>, keys: set<string>) {
    Sorted(names) && forall n :: n in names <==> n in keys
  }

  /** There is only one such list. */
  lemma {:induction false} OneListing(a: seq<string>, b: seq<string>, keys: set<string>)
    requires Lists(a, keys) && Lists(b, keys)
    ensures a == b
  {
    hide Before;
    assert |b| > 0 ==> b[0] in b;
    if |a| > 0 {
      assert a[0] in b && b[0] in a;
      if a[0] != b[0] {
        Asymmetric(a[0], b[0]);
        assert false;
      }
      Irreflexive(a[0]);
      assert Lists(a[1..], keys - {a[0]}) by { Tail(a, keys); }
      assert Lists(b[1..], keys - {a[0]}) by { Tail(b, keys); }
      OneListing(a[1..], b[1..], keys - {a[0]});
    }
  }

  lemma {:induction false} Asymmetric(s: string, t: string)
    ensures !(Before(s, t) && Before(t, s))
  {
    if Before(s, t) && Before(t, s) {
      Transitive(s, t, s);
      Irreflexive(s);
    }
  }

  lemma {:induction false} Tail(a: seq<string>, keys: set<string>)
    requires Lists(a, keys) && |a| > 0
    ensures Lists(a[1..], keys - {a[0]})
  {
    hide Before;
    Irreflexive(a[0]);
    forall n
      ensures n in a[1..] <==> n in keys - {a[0]}
    {
      assert n in a <==> n == a[0] || n in a[1..];
    }
  }

  /** Sorting by insertion. */
  method SortNames(keys: set<string>) returns (names: seq<string>)
    ensures Lists(names, keys)
  {
    hide Before;
    names := [];
    var rest := keys;
    while rest != {}
      invariant rest <= keys && Lists(names, keys - rest)
    {
      var name :| name in rest;
      var k := 0;
      while k < |names| && Before(names[k], name)
        invariant 0 <= k <= |names|
        invariant forall j :: 0 <= j < k ==> Before(names[j], name)
      {
        k := k + 1;
      }
      InsertKeeps(names, keys - rest, k, name);
      names := names[..k] + [name] + names[k..];
      rest := rest - {name};
      assert keys - rest == (keys - (rest + {name})) + {name};
    }
    assert keys - rest == keys;
  }

  lemma {:induction false} InsertKeeps(names: seq<string>, keys: set<string>, k: nat, name: string)
    requires Lists(names, keys) && name !in keys && k <= |names|
    requires forall j :: 0 <= j < k ==> Before(names[j], name)
    requires k < |names| ==> !Before(names[k], name)
    ensures Lists(names[..k] + [name] + names[k..], keys + {name})
  {
    hide Before;
    var out := names[..k] + [name] + names[k..];
    forall n
      ensures n in out <==> n in keys + {name}
    {
      assert names == names[..k] + names[k..];
    }
    forall j | k <= j < |names|
      ensures Before(name, names[j])
    {
      assert names[k] in names;
      Total(name, names[k]);
      if j > k { Transitive(name, names[k], names[j]); }
    }
  }
}
