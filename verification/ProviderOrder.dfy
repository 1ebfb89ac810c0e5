/**
The order in which providers are tried: a request's own choices come first, then the account's saved
order (or the defaults), each layer completed by the next.
*/
module ProviderOrder {
  import opened Wrappers

  datatype Provider = Gemini | ElevenLabs | OpenAi | Deepgram

  const TTS_CHAIN := [Gemini, ElevenLabs, OpenAi]
  const STT_CHAIN := [Gemini, OpenAi, Deepgram]

  ghost predicate Distinct(s: seq<Provider>) {
    forall i, j :: 0 <= i < j < |s| ==> s[i] != s[j]
  }

  ghost predicate Within(s: seq<Provider>, base: seq<Provider>) {
    forall p :: p in s ==> p in base
  }

  /** The providers of `base` not yet seen, once each, in base order. */
  function Rest(base: seq<Provider>, seen: seq<Provider>): seq<Provider> {
    if base == [] then []
    else if base[0] in seen then Rest(base[1..], seen)
    else [base[0]] + Rest(base[1..], seen + [base[0]])
  }

  // ---- The length guard decides nothing on its own ----------------------------------------------

  function Elements(s: seq<Provider>): set<Provider> {
    set p | p in s
  }

  lemma {:induction false} DistinctSize(s: seq<Provider>)
    ensures |Elements(s)| <= |s|
    ensures Distinct(s) ==> |Elements(s)| == |s|
  {
    if s != [] {
      var before, last := s[..|s| - 1], s[|s| - 1];
      DistinctSize(before);
      assert Elements(s) == Elements(before) + {last};
      if Distinct(s) {
        assert last !in before;
      }
    }
  }

  lemma SubsetSize(a: set<Provider>, b: set<Provider>)
    requires a <= b
    ensures |a| <= |b|
    decreases a
  {
    if a != {} {
      var x :| x in a;
      SubsetSize(a - {x}, b - {x});
    }
  }

  /** A request of distinct, known providers is never longer than the base order. */
  lemma ValidIsShort(requested: seq<Provider>, base: seq<Provider>)
    requires Distinct(requested) && Within(requested, base)
    ensures |requested| <= |base|
  {
    DistinctSize(requested);
    DistinctSize(base);
    SubsetSize(Elements(requested), Elements(base));
  }

  // ---- Resolving --------------------------------------------------------------------------------

  /** Fails exactly on a repeated or an unknown provider. */
  method ResolveOrder(requested: seq<Provider>, base: seq<Provider>) returns (order: Option<seq<Provider>>)
    ensures order.Some? <==> Distinct(requested) && Within(requested, base)
    ensures order.Some? ==> order.value == requested + Rest(base, requested)
  {
    if |requested| > |base| {
      if Distinct(requested) && Within(requested, base) {
        ValidIsShort(requested, base);
      }
      return None;
    }
    var result: seq<Provider> := [];
    for i := 0 to |requested|
      invariant result == requested[..i]
      invariant Distinct(requested[..i]) && Within(requested[..i], base)
    {
      if requested[i] !in base || requested[i] in result {
        if requested[i] in result {
          var k :| 0 <= k < i && requested[..i][k] == requested[i];
          assert requested[k] == requested[i];
        } else {
          assert requested[i] in requested;
        }
        return None;
      }
      result := result + [requested[i]];
    }
    assert requested[..|requested|] == requested;
    for i := 0 to |base|
      invariant result + Rest(base[i..], result) == requested + Rest(base, requested)
    {
      assert base[i..][0] == base[i] && base[i..][1..] == base[i + 1..];
      if base[i] !in result {
        assert result + ([base[i]] + Rest(base[i + 1..], result + [base[i]]))
               == (result + [base[i]]) + Rest(base[i + 1..], result + [base[i]]);
        result := result + [base[i]];
      }
    }
    order := Some(result);
  }

  function Resolved(requested: seq<Provider>, base: seq<Provider>): seq<Provider> {
    requested + Rest(base, requested)
  }

  lemma {:induction false} RestHolds(base: seq<Provider>, seen: seq<Provider>)
    requires Distinct(seen)
    ensures Distinct(seen + Rest(base, seen))
    ensures forall p :: p in Rest(base, seen) <==> p in base && p !in seen
  {
    if base != [] {
      if base[0] in seen {
        RestHolds(base[1..], seen);
        assert forall p :: p in base <==> p == base[0] || p in base[1..];
      } else {
        var more := seen + [base[0]];
        RestHolds(base[1..], more);
        assert seen + Rest(base, seen) == more + Rest(base[1..], more);
        assert forall p :: p in more <==> p in seen || p == base[0];
        assert forall p :: p in base <==> p == base[0] || p in base[1..];
      }
    }
  }

  ghost predicate SameProviders(a: seq<Provider>, b: seq<Provider>) {
    Distinct(a) && Distinct(b) && forall p :: p in a <==> p in b
  }

  /** The result lists exactly the base order's providers, once each. */
  lemma ResolvedIsAPermutation(requested: seq<Provider>, base: seq<Provider>)
    requires Distinct(requested) && Within(requested, base) && Distinct(base)
    ensures SameProviders(Resolved(requested, base), base) && |Resolved(requested, base)| == |base|
  {
    RestHolds(base, requested);
    var order := Resolved(requested, base);
    DistinctSize(order);
    DistinctSize(base);
    assert Elements(order) == Elements(base);
  }

  /** Of two providers the request leaves out, the one earlier in the base order stays earlier. */
  lemma {:induction false} RestKeepsBaseOrder(base: seq<Provider>, seen: seq<Provider>, i: nat, j: nat)
    requires Distinct(base) && Distinct(seen) && i < j < |base| && base[i] !in seen && base[j] !in seen
    ensures exists k, l :: 0 <= k < l < |Rest(base, seen)|
              && Rest(base, seen)[k] == base[i] && Rest(base, seen)[l] == base[j]
  {
    var rest := Rest(base, seen);
    if base[0] in seen {
      RestKeepsBaseOrder(base[1..], seen, i - 1, j - 1);
    } else {
      var more := seen + [base[0]];
      if i == 0 {
        RestHolds(base[1..], more);
        assert base[j] in base[1..] by {
          assert base[1..][j - 1] == base[j];
        }
        assert base[j] in Rest(base[1..], more);
        var l :| 0 <= l < |Rest(base[1..], more)| && Rest(base[1..], more)[l] == base[j];
        assert rest[0] == base[0] && rest[l + 1] == base[j];
      } else {
        RestKeepsBaseOrder(base[1..], more, i - 1, j - 1);
        var k, l :| 0 <= k < l < |Rest(base[1..], more)|
          && Rest(base[1..], more)[k] == base[i] && Rest(base[1..], more)[l] == base[j];
        assert rest[k + 1] == base[i] && rest[l + 1] == base[j];
      }
    }
  }

  lemma {:induction false} NothingRests(base: seq<Provider>, seen: seq<Provider>)
    requires Within(base, seen)
    ensures Rest(base, seen) == []
  {
    if base != [] {
      assert base[0] in base;
      NothingRests(base[1..], seen);
    }
  }

  /** A resolved order, resolved again against any order of the same providers, is itself. */
  lemma ResolvingAgainIsTheIdentity(order: seq<Provider>, base: seq<Provider>)
    requires SameProviders(order, base)
    ensures Within(order, base) && Resolved(order, base) == order
  {
    NothingRests(base, order);
    assert order + [] == order;
  }

  // ---- The layers -------------------------------------------------------------------------------

  datatype OrderError = Unavailable | InvalidRequest

  /** The account's order; a saved order that does not list the whole chain is refused. */
  method SavedOrder(saved: seq<Provider>, chain: seq<Provider>) returns (order: Result<seq<Provider>, OrderError>)
    requires Distinct(chain)
    ensures order.Ok? <==> SameProviders(saved, chain)
    ensures order == if order.Ok? then Ok(saved) else Err(Unavailable)
  {
    var resolved := ResolveOrder(saved, chain);
    if resolved.None? {
      return Err(Unavailable);
    }
    ResolvedIsAPermutation(saved, chain);
    if |resolved.value| != |saved| {
      if SameProviders(saved, chain) {
        NothingRests(chain, saved);
      }
      return Err(Unavailable);
    }
    assert Rest(chain, saved) == [];
    assert saved + [] == saved;
    RestHolds(chain, saved);
    return Ok(resolved.value);
  }

  /** `saved` is absent when no order store is configured, and fails when the store does. */
  method CompleteProviderOrder(requested: Option<seq<Provider>>, saved: Option<Result<seq<Provider>, OrderError>>,
                               chain: seq<Provider>)
    returns (order: Result<seq<Provider>, OrderError>)
    requires Distinct(chain)
    ensures saved.Some? && (saved.value.Err? || !SameProviders(saved.value.value, chain)) ==> order.Err?
    ensures saved.None? || (saved.value.Ok? && SameProviders(saved.value.value, chain)) ==>
      var base := if saved.Some? then saved.value.value else chain;
      && (order.Ok? <==>
            (requested.None? || (requested.value != [] && Distinct(requested.value) && Within(requested.value, chain))))
      && (order.Ok? ==> order.value == Resolved(if requested.Some? then requested.value else [], base))
      && (order.Err? ==> order.error == InvalidRequest)
    ensures order.Ok? ==> SameProviders(order.value, chain) && |order.value| == |chain|
    ensures order.Ok? ==> Resolved(order.value, chain) == order.value
  {
    var base := chain;
    if saved.Some? {
      if saved.value.Err? {
        return Err(saved.value.error);
      }
      var read := SavedOrder(saved.value.value, chain);
      if read.Err? {
        return Err(read.error);
      }
      base := read.value;
    }
    if requested.Some? && requested.value == [] {
      return Err(InvalidRequest);
    }
    var mine := if requested.Some? then requested.value else [];
    assert SameProviders(base, chain);
    var resolved := ResolveOrder(mine, base);
    if resolved.None? {
      return Err(InvalidRequest);
    }
    ResolvedIsAPermutation(mine, base);
    SameLength(base, chain);
    if |resolved.value| != |chain| {
      assert false;
    }
    ResolvingAgainIsTheIdentity(resolved.value, chain);
    return Ok(resolved.value);
  }

  lemma SameLength(a: seq<Provider>, b: seq<Provider>)
    requires SameProviders(a, b)
    ensures |a| == |b|
  {
    DistinctSize(a);
    DistinctSize(b);
    assert Elements(a) == Elements(b);
  }
}
