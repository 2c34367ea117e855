/** Parameter bindings and `getValueOfParameter`: the value of the first binding
    with the requested name, found through `filter(...)[0]`. */
module Parameters {
  import opened Wrappers

  /** A name/value pair supplied per invocation; values are always strings. */
  datatype FunctionParameter = FunctionParameter(parameterName: string, parameterValue: string)

  /** `parameters.filter((p) => p.parameterName === name)`: the bindings with that
      name, in their original order. */
  function Matching(name: string, parameters: seq<FunctionParameter>): (r: seq<FunctionParameter>)
    ensures |r| <= |parameters|
    ensures forall p :: p in r ==> p in parameters && p.parameterName == name
    ensures forall p :: p in parameters && p.parameterName == name ==> p in r
    ensures r == [] <==> forall i :: 0 <= i < |parameters| ==> parameters[i].parameterName != name
  {
    if parameters == [] then []
    else
      var rest := Matching(name, parameters[1..]);
      if parameters[0].parameterName == name then [parameters[0]] + rest else rest
  }

  /** True when some binding carries `name`. */
  predicate HasParameter(name: string, parameters: seq<FunctionParameter>)
  {
    exists i :: 0 <= i < |parameters| && parameters[i].parameterName == name
  }

  /** True when index `i` holds the first binding named `name`. */
  predicate IsFirstMatch(name: string, parameters: seq<FunctionParameter>, i: int)
  {
    && 0 <= i < |parameters|
    && parameters[i].parameterName == name
    && forall j :: 0 <= j < i ==> parameters[j].parameterName != name
  }

  /** `getValueOfParameter`. `None` stands for the TypeError the original raises
      when it reads `.parameterValue` of `undefined` (no binding matched). */
  function GetValueOfParameter(name: string, parameters: seq<FunctionParameter>): (r: Option<string>)
    ensures r.None? <==> !HasParameter(name, parameters)
    ensures r.Some? ==> FunctionParameter(name, r.value) in parameters
  {
    var found := Matching(name, parameters);
    if |found| == 0 then
      None
    else
      assert found[0] in found;
      Some(found[0].parameterValue)
  }

  /** Filtering distributes over concatenation. */
  lemma {:induction false} MatchingAppend(name: string, a: seq<FunctionParameter>, b: seq<FunctionParameter>)
    ensures Matching(name, a + b) == Matching(name, a) + Matching(name, b)
  {
    if a == [] {
      assert a + b == b;
    } else {
      assert (a + b)[1..] == a[1..] + b;
      MatchingAppend(name, a[1..], b);
    }
  }

  /** The result is the value at the first matching index. */
  lemma {:induction false} FirstMatchDecides(name: string, parameters: seq<FunctionParameter>, i: int)
    requires IsFirstMatch(name, parameters, i)
    ensures GetValueOfParameter(name, parameters) == Some(parameters[i].parameterValue)
  {
    var before, after := parameters[..i], parameters[i + 1..];
    assert parameters == before + [parameters[i]] + after;
    MatchingAppend(name, before + [parameters[i]], after);
    MatchingAppend(name, before, [parameters[i]]);
  }

  /** Conversely, a value that is returned comes from the first matching index. */
  lemma FoundAtFirstMatch(name: string, parameters: seq<FunctionParameter>) returns (i: int)
    requires GetValueOfParameter(name, parameters).Some?
    ensures IsFirstMatch(name, parameters, i)
    ensures parameters[i].parameterValue == GetValueOfParameter(name, parameters).value
  {
    var k :| 0 <= k < |parameters| && parameters[k].parameterName == name;
    i := 0;
    while parameters[i].parameterName != name
      invariant 0 <= i <= k
      invariant forall j :: 0 <= j < i ==> parameters[j].parameterName != name
      decreases k - i
    {
      i := i + 1;
    }
    FirstMatchDecides(name, parameters, i);
  }

  /** A binding with another name, inserted at any position, has no effect. */
  lemma OtherNamesIrrelevant(name: string, a: seq<FunctionParameter>, b: FunctionParameter, c: seq<FunctionParameter>)
    requires b.parameterName != name
    ensures GetValueOfParameter(name, a + [b] + c) == GetValueOfParameter(name, a + c)
  {
    MatchingAppend(name, a + [b], c);
    MatchingAppend(name, a, [b]);
    MatchingAppend(name, a, c);
    assert Matching(name, [b]) == [] by {
      assert [b][1..] == [];
    }
  }

  /** Only the bindings named `name` matter: the lookup on the full list equals
      the lookup on those bindings alone. */
  lemma LookupSeesOnlyItsName(name: string, parameters: seq<FunctionParameter>)
    ensures GetValueOfParameter(name, parameters) == GetValueOfParameter(name, Matching(name, parameters))
  {
    MatchingIdempotent(name, parameters);
  }

  lemma {:induction false} MatchingIdempotent(name: string, parameters: seq<FunctionParameter>)
    ensures Matching(name, Matching(name, parameters)) == Matching(name, parameters)
  {
    if parameters != [] {
      var rest := Matching(name, parameters[1..]);
      MatchingIdempotent(name, parameters[1..]);
      if parameters[0].parameterName == name {
        assert ([parameters[0]] + rest)[1..] == rest;
      }
    }
  }

  /** Two lists whose bindings named `name` agree give the same lookup result. */
  lemma SameMatchesSameValue(name: string, ps: seq<FunctionParameter>, qs: seq<FunctionParameter>)
    requires Matching(name, ps) == Matching(name, qs)
    ensures GetValueOfParameter(name, ps) == GetValueOfParameter(name, qs)
  {
  }

  /** The order-independence example: [("b","2"), ("a","1")] looked up at "a". */
  lemma LookupExample()
    ensures GetValueOfParameter("a", [FunctionParameter("b", "2"), FunctionParameter("a", "1")]) == Some("1")
    ensures GetValueOfParameter("c", [FunctionParameter("b", "2"), FunctionParameter("a", "1")]) == None
  {
    var ps := [FunctionParameter("b", "2"), FunctionParameter("a", "1")];
    FirstMatchDecides("a", ps, 1);
  }
}
