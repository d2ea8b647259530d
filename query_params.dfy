/** Query-parameter lists as the API helpers build them with `URLSearchParams`: an ordered
    list of name/value pairs. A helper's candidate parameters, in the order its code
    considers them, are `Entries`; `Collect` keeps those that have a value. How the list is
    rendered into the query string (percent-encoding) is not modelled. */
module QueryParams {
  import opened Wrappers

  type Params = seq<(string, string)>
  type Entries = seq<(string, Option<string>)>

  /** One candidate's contribution: the pair when it has a value, nothing otherwise. */
  function Part(e: (string, Option<string>)): (r: Params)
    ensures |r| <= 1 && (r != [] <==> e.1.Some?)
  {
    if e.1.Some? then [(e.0, e.1.value)] else []
  }

  /** The parameters of `es` that have a value, in the order of `es`. */
  function Collect(es: Entries): (r: Params)
    ensures |r| <= |es|
  {
    if es == [] then []
    else Collect(es[..|es| - 1]) + Part(es[|es| - 1])
  }

  /** Collecting one more candidate appends it when it has a value. */
  lemma CollectStep(es: Entries, k: nat)
    requires k < |es|
    ensures Collect(es[..k + 1]) == Collect(es[..k]) + Part(es[k])
  {
    assert es[..k + 1][..k] == es[..k];
  }

  function Names(es: Entries): (r: seq<string>)
    ensures |r| == |es| && forall i :: 0 <= i < |es| ==> r[i] == es[i].0
  {
    seq(|es|, i requires 0 <= i < |es| => es[i].0)
  }

  function Keys(p: Params): (r: seq<string>)
    ensures |r| == |p| && forall i :: 0 <= i < |p| ==> r[i] == p[i].0
  {
    seq(|p|, i requires 0 <= i < |p| => p[i].0)
  }

  /** `URLSearchParams.get`: the value of the first parameter with that name. */
  function Lookup(p: Params, name: string): (r: Option<string>)
    ensures r.Some? <==> name in Keys(p)
  {
    if p == [] then None
    else if p[0].0 == name then Some(p[0].1)
    else
      assert Keys(p) == [p[0].0] + Keys(p[1..]);
      Lookup(p[1..], name)
  }

  predicate Distinct(s: seq<string>) {
    forall i, j :: 0 <= i < j < |s| ==> s[i] != s[j]
  }

  /** `a` is `b` with some elements left out (matched from the back). */
  predicate Subsequence(a: seq<string>, b: seq<string>)
    decreases |b|
  {
    if a == [] then true
    else if b == [] then false
    else if a[|a| - 1] == b[|b| - 1] then Subsequence(a[..|a| - 1], b[..|b| - 1])
    else Subsequence(a, b[..|b| - 1])
  }

  lemma {:induction false} LookupAppend(p: Params, name: string, value: string, key: string)
    ensures Lookup(p + [(name, value)], key) ==
      if Lookup(p, key).Some? then Lookup(p, key)
      else if name == key then Some(value) else None
  {
    if p == [] {
      assert p + [(name, value)] == [(name, value)];
    } else {
      assert (p + [(name, value)])[1..] == p[1..] + [(name, value)];
      LookupAppend(p[1..], name, value, key);
    }
  }

  /** Each named entry's value is what `get` returns for its name in the collected list,
      and a name that is not a candidate is absent. */
  lemma {:induction false} CollectLookup(es: Entries)
    requires Distinct(Names(es))
    ensures forall i :: 0 <= i < |es| ==> Lookup(Collect(es), es[i].0) == es[i].1
    ensures forall k :: k !in Names(es) ==> Lookup(Collect(es), k) == None
  {
    if es != [] {
      var init, last := es[..|es| - 1], es[|es| - 1];
      assert Names(init) == Names(es)[..|es| - 1];
      CollectLookup(init);
      var r := Collect(init);
      forall k
        ensures Lookup(Collect(es), k) ==
          if Lookup(r, k).Some? then Lookup(r, k) else if last.0 == k then last.1 else None
      {
        if last.1.Some? {
          LookupAppend(r, last.0, last.1.value, k);
        } else {
          assert Collect(es) == r;
        }
      }
      forall i | 0 <= i < |es| ensures Lookup(Collect(es), es[i].0) == es[i].1 {
        if i < |es| - 1 {
          assert es[i].0 == init[i].0;
        } else {
          assert es[i].0 !in Names(init);
        }
      }
      forall k | k !in Names(es) ensures Lookup(Collect(es), k) == None {
        assert k !in Names(init);
        assert last.0 == Names(es)[|es| - 1];
      }
    }
  }

  lemma {:induction false} SubsequenceDropLast(a: seq<string>, b: seq<string>)
    requires a != [] && Subsequence(a, b)
    ensures Subsequence(a[..|a| - 1], b)
    decreases |b|, 0
  {
    var a' := a[..|a| - 1];
    if a' != [] && b != [] {
      if a[|a| - 1] == b[|b| - 1] {
        SubsequenceAppendRight(a', b[..|b| - 1], b[|b| - 1]);
        assert b[..|b| - 1] + [b[|b| - 1]] == b;
      } else {
        SubsequenceDropLast(a, b[..|b| - 1]);
        SubsequenceAppendRight(a', b[..|b| - 1], b[|b| - 1]);
        assert b[..|b| - 1] + [b[|b| - 1]] == b;
      }
    }
  }

  lemma {:induction false} SubsequenceAppendRight(a: seq<string>, b: seq<string>, x: string)
    requires Subsequence(a, b)
    ensures Subsequence(a, b + [x])
    decreases |b|, 1
  {
    var b' := b + [x];
    assert b'[..|b'| - 1] == b;
    if a != [] && a[|a| - 1] == x {
      SubsequenceDropLast(a, b);
    }
  }

  /** The collected names keep the candidates' order. */
  lemma {:induction false} CollectOrder(es: Entries)
    ensures Subsequence(Keys(Collect(es)), Names(es))
  {
    if es != [] {
      var init, last := es[..|es| - 1], es[|es| - 1];
      CollectOrder(init);
      NamesSnoc(es);
      if last.1.Some? {
        KeysSnoc(Collect(init), (last.0, last.1.value));
        SubsequenceSnoc(Keys(Collect(init)), Names(init), last.0);
      } else {
        assert Collect(es) == Collect(init);
        SubsequenceAppendRight(Keys(Collect(init)), Names(init), last.0);
      }
    }
  }

  lemma NamesSnoc(es: Entries)
    requires es != []
    ensures Names(es) == Names(es[..|es| - 1]) + [es[|es| - 1].0]
  {
  }

  lemma KeysSnoc(p: Params, x: (string, string))
    ensures Keys(p + [x]) == Keys(p) + [x.0]
  {
  }

  lemma SubsequenceSnoc(a: seq<string>, b: seq<string>, x: string)
    requires Subsequence(a, b)
    ensures Subsequence(a + [x], b + [x])
  {
    assert (a + [x])[..|a|] == a;
    assert (b + [x])[..|b|] == b;
  }

  lemma {:induction false} SubsequenceMembers(a: seq<string>, b: seq<string>)
    requires Subsequence(a, b)
    ensures forall x :: x in a ==> x in b
    decreases |b|
  {
    if a != [] && b != [] {
      if a[|a| - 1] == b[|b| - 1] {
        SubsequenceMembers(a[..|a| - 1], b[..|b| - 1]);
        assert a == a[..|a| - 1] + [a[|a| - 1]];
        assert b == b[..|b| - 1] + [b[|b| - 1]];
      } else {
        SubsequenceMembers(a, b[..|b| - 1]);
        assert b == b[..|b| - 1] + [b[|b| - 1]];
      }
    }
  }

  /** A list that keeps the order of distinct names has no name twice. */
  lemma {:induction false} SubsequenceDistinct(a: seq<string>, b: seq<string>)
    requires Subsequence(a, b) && Distinct(b)
    ensures Distinct(a)
    decreases |b|
  {
    if a != [] && b != [] {
      var b' := b[..|b| - 1];
      assert Distinct(b');
      if a[|a| - 1] == b[|b| - 1] {
        var a' := a[..|a| - 1];
        SubsequenceDistinct(a', b');
        SubsequenceMembers(a', b');
        assert b[|b| - 1] !in b';
        forall i, j | 0 <= i < j < |a| ensures a[i] != a[j] {
          if j == |a| - 1 {
            assert a[i] == a'[i];
            assert a[i] in a';
          } else {
            assert a[i] == a'[i] && a[j] == a'[j];
          }
        }
      } else {
        SubsequenceDistinct(a, b');
      }
    }
  }

  /** No candidate has a value. */
  predicate NoneSet(es: Entries) {
    forall i :: 0 <= i < |es| ==> es[i].1.None?
  }

  lemma NoneSetSnoc(es: Entries)
    requires es != []
    ensures NoneSet(es) <==> NoneSet(es[..|es| - 1]) && es[|es| - 1].1.None?
  {
    var init := es[..|es| - 1];
    assert forall i :: 0 <= i < |init| ==> init[i] == es[i];
  }

  /** Nothing is collected exactly when no candidate has a value. */
  lemma {:induction false} CollectEmpty(es: Entries)
    ensures Collect(es) == [] <==> NoneSet(es)
  {
    if es != [] {
      CollectEmpty(es[..|es| - 1]);
      NoneSetSnoc(es);
      var init := Collect(es[..|es| - 1]);
      var last := Part(es[|es| - 1]);
      assert Collect(es) == init + last;
      assert |init + last| == |init| + |last|;
    }
  }

  /** The collected list has no repeated name when the candidates have none. */
  lemma CollectDistinct(es: Entries)
    requires Distinct(Names(es))
    ensures Distinct(Keys(Collect(es)))
  {
    CollectOrder(es);
    SubsequenceDistinct(Keys(Collect(es)), Names(es));
  }
}
