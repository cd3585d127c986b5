/** The first-match policy both providers share: the earliest candidate, in host order,
    that the optional pattern accepts; with no pattern, the earliest candidate. */
module LinkResolver {
  import opened Wrappers
  import Iter

  /** Whether the optional pattern lets `c` through; no pattern accepts everything. */
  predicate Accepts(pat: Option<string -> bool>, c: string) {
    pat.None? || pat.value(c)
  }

  function FirstMatch(cands: seq<string>, pat: Option<string -> bool>): (r: Option<string>)
    ensures r.None? <==> forall k :: 0 <= k < |cands| ==> !Accepts(pat, cands[k])
    ensures r.Some? ==>
      exists k :: 0 <= k < |cands| && cands[k] == r.value && Accepts(pat, cands[k]) &&
        forall j :: 0 <= j < k ==> !Accepts(pat, cands[j])
    ensures pat.None? && cands != [] ==> r == Some(cands[0])
  {
    if cands == [] then None
    else if Accepts(pat, cands[0]) then Some(cands[0])
    else FirstMatch(cands[1..], pat)
  }

  /** A candidate the pattern accepts, with no accepted candidate before it, is the one chosen,
      wherever it stands and whatever follows it. */
  lemma FirstMatchIsEarliest(cands: seq<string>, pat: Option<string -> bool>, i: nat)
    requires i < |cands| && Accepts(pat, cands[i])
    requires forall j :: 0 <= j < i ==> !Accepts(pat, cands[j])
    ensures FirstMatch(cands, pat) == Some(cands[i])
  {
  }

  /** Precedence across a split: the earlier part of the list wins whenever it has a match. */
  lemma {:induction false} FirstMatchAppend(a: seq<string>, b: seq<string>, pat: Option<string -> bool>)
    ensures FirstMatch(a + b, pat) == if FirstMatch(a, pat).Some? then FirstMatch(a, pat) else FirstMatch(b, pat)
  {
    if a != [] {
      assert (a + b)[1..] == a[1..] + b;
      FirstMatchAppend(a[1..], b, pat);
    } else {
      assert a + b == b;
    }
  }

  /** A `find_map` whose closure yields an element's URL exactly when the pattern accepts it
      selects what `FirstMatch` selects on the list of those URLs. */
  lemma {:induction false} FindMapIsFirstMatch<T>(xs: seq<T>, f: T -> Option<string>, url: T -> string, pat: Option<string -> bool>)
    requires forall x :: f(x) == if Accepts(pat, url(x)) then Some(url(x)) else None
    ensures Iter.FindMap(xs, f) == FirstMatch(Iter.Map(xs, url), pat)
  {
    if xs != [] {
      assert Iter.Map(xs, url)[1..] == Iter.Map(xs[1..], url);
      FindMapIsFirstMatch(xs[1..], f, url, pat);
    }
  }
}
