/**
 * Deleting query or fragment keys while iterating over them.
 *
 * `URLSearchParams.delete(name)` removes every entry called `name`, and
 * the iterator returned by `keys()` walks the live entry list by index. So
 * when the entry at position `i` is deleted, the entry that moves into
 * position `i` is never visited: the loop in `removeFieldsFormURL` skips
 * the key that follows every deleted key.
 */
module SearchParams {
  import opened Web

  /** The regular expression a rule is wrapped in before it is tested against one key. */
  function KeyPattern(rule: string): string {
    "^" + rule + "$"
  }

  /** Whether a field rule matches a whole key. */
  predicate KeyMatches(js: Js, rule: string, key: string) {
    js.test(KeyPattern(rule), key)
  }

  /** `params.delete(name)`: every entry called `name` goes, the others keep their order. */
  function Delete(ps: seq<Param>, name: string): (r: seq<Param>)
    ensures forall p :: p in r ==> p in ps && p.0 != name
    ensures forall p :: p in ps && p.0 != name ==> p in r
    ensures |r| <= |ps|
    ensures (exists k :: 0 <= k < |ps| && ps[k].0 == name) ==> |r| < |ps|
    ensures (forall k :: 0 <= k < |ps| ==> ps[k].0 != name) ==> r == ps
  {
    if ps == [] then []
    else if ps[0].0 == name then Delete(ps[1..], name)
    else
      var t := Delete(ps[1..], name);
      assert (exists k :: 0 <= k < |ps| && ps[k].0 == name) ==>
             (exists k :: 0 <= k < |ps[1..]| && ps[1..][k].0 == name) by {
        if exists k :: 0 <= k < |ps| && ps[k].0 == name {
          var k :| 0 <= k < |ps| && ps[k].0 == name;
          assert k > 0 && ps[1..][k - 1].0 == name;
        }
      }
      [ps[0]] + t
  }

  /**
   * The `for (const field of fields.keys())` loop for one rule, as the
   * platform runs it: `i` is the iterator's index into the live list.
   */
  function StripLive(js: Js, rule: string, ps: seq<Param>, i: nat): (r: seq<Param>)
    ensures |r| <= |ps|
    decreases |ps| - i
  {
    if i >= |ps| then ps
    else if KeyMatches(js, rule, ps[i].0) then StripLive(js, rule, Delete(ps, ps[i].0), i + 1)
    else StripLive(js, rule, ps, i + 1)
  }

  /** What the loop is meant to do: drop every entry whose key the rule matches. */
  function StripAll(js: Js, rule: string, ps: seq<Param>): (r: seq<Param>)
    ensures forall p :: p in r <==> p in ps && !KeyMatches(js, rule, p.0)
    ensures |r| <= |ps|
  {
    if ps == [] then []
    else if KeyMatches(js, rule, ps[0].0) then StripAll(js, rule, ps[1..])
    else [ps[0]] + StripAll(js, rule, ps[1..])
  }

  /**
   * The live loop for one rule: walk the list by index, delete every
   * entry named like a matching key and remember whether anything went.
   */
  method StripKeys(js: Js, rule: string, ps: seq<Param>) returns (r: seq<Param>, changed: bool)
    ensures r == StripLive(js, rule, ps, 0)
    ensures changed <==> |r| < |ps|
  {
    r := ps;
    changed := false;
    var i := 0;
    while i < |r|
      invariant StripLive(js, rule, r, i) == StripLive(js, rule, ps, 0)
      invariant |r| <= |ps|
      invariant changed <==> |r| < |ps|
      decreases |r| - i
    {
      var field := r[i].0;
      if KeyMatches(js, rule, field) {
        r := Delete(r, field);
        changed := true;
      }
      i := i + 1;
    }
  }

  // ---------------------------------------------------------------------
  // Properties

  /** Nothing is deleted unless a key matches: the live loop leaves such a list alone. */
  lemma {:induction false} StripLiveNoMatch(js: Js, rule: string, ps: seq<Param>, i: nat)
    requires forall k :: i <= k < |ps| ==> !KeyMatches(js, rule, ps[k].0)
    ensures StripLive(js, rule, ps, i) == ps
    decreases |ps| - i
  {
    if i < |ps| {
      StripLiveNoMatch(js, rule, ps, i + 1);
    }
  }

  /** If any key from the iterator's position on matches, the live loop deletes something. */
  lemma {:induction false} StripLiveShrinks(js: Js, rule: string, ps: seq<Param>, i: nat, k: nat)
    requires i <= k < |ps| && KeyMatches(js, rule, ps[k].0)
    ensures |StripLive(js, rule, ps, i)| < |ps|
    decreases |ps| - i
  {
    if KeyMatches(js, rule, ps[i].0) {
      assert |Delete(ps, ps[i].0)| < |ps|;
    } else {
      StripLiveShrinks(js, rule, ps, i + 1, k);
    }
  }

  /** The live loop changes the list exactly when some key matches the rule. */
  lemma StripLiveUnchangedIff(js: Js, rule: string, ps: seq<Param>)
    ensures StripLive(js, rule, ps, 0) == ps <==> forall k :: 0 <= k < |ps| ==> !KeyMatches(js, rule, ps[k].0)
  {
    if forall k :: 0 <= k < |ps| ==> !KeyMatches(js, rule, ps[k].0) {
      StripLiveNoMatch(js, rule, ps, 0);
    } else {
      var k :| 0 <= k < |ps| && KeyMatches(js, rule, ps[k].0);
      StripLiveShrinks(js, rule, ps, 0, k);
    }
  }

  /** Deleting a name that the rule matches anyway does not change the correct result. */
  lemma {:induction false} StripAllDelete(js: Js, rule: string, ps: seq<Param>, name: string)
    requires KeyMatches(js, rule, name)
    ensures StripAll(js, rule, Delete(ps, name)) == StripAll(js, rule, ps)
    decreases |ps|
  {
    if ps != [] {
      StripAllDelete(js, rule, ps[1..], name);
      if ps[0].0 != name {
        assert Delete(ps, name) == [ps[0]] + Delete(ps[1..], name);
        assert ([ps[0]] + Delete(ps[1..], name))[1..] == Delete(ps[1..], name);
      }
    }
  }

  /**
   * The live loop only ever removes matching entries, and what it leaves
   * behind differs from the correct result by matching entries alone:
   * filtering its output gives exactly the correct result.
   */
  lemma {:induction false} StripLiveThenAll(js: Js, rule: string, ps: seq<Param>, i: nat)
    ensures StripAll(js, rule, StripLive(js, rule, ps, i)) == StripAll(js, rule, ps)
    decreases |ps| - i
  {
    if i < |ps| {
      if KeyMatches(js, rule, ps[i].0) {
        StripLiveThenAll(js, rule, Delete(ps, ps[i].0), i + 1);
        StripAllDelete(js, rule, ps, ps[i].0);
      } else {
        StripLiveThenAll(js, rule, ps, i + 1);
      }
    }
  }

  /** Every entry the live loop keeps was there before, and every non-matching entry is kept. */
  lemma StripLiveKeeps(js: Js, rule: string, ps: seq<Param>)
    ensures forall p :: p in StripLive(js, rule, ps, 0) ==> p in ps
    ensures forall p :: p in ps && !KeyMatches(js, rule, p.0) ==> p in StripLive(js, rule, ps, 0)
  {
    var r := StripLive(js, rule, ps, 0);
    StripLiveThenAll(js, rule, ps, 0);
    StripLiveSubset(js, rule, ps, 0);
    forall p | p in ps && !KeyMatches(js, rule, p.0) ensures p in r {
      assert p in StripAll(js, rule, ps);
      assert p in StripAll(js, rule, r);
    }
  }

  lemma {:induction false} StripLiveSubset(js: Js, rule: string, ps: seq<Param>, i: nat)
    ensures forall p :: p in StripLive(js, rule, ps, i) ==> p in ps
    decreases |ps| - i
  {
    if i < |ps| {
      if KeyMatches(js, rule, ps[i].0) {
        StripLiveSubset(js, rule, Delete(ps, ps[i].0), i + 1);
      } else {
        StripLiveSubset(js, rule, ps, i + 1);
      }
    }
  }

  /**
   * The skip: with two different keys that both match, such as `utm_source`
   * and `utm_medium` under the rule `utm_[a-z]+`, the second one survives
   * the live loop although the correct loop removes both.
   */
  lemma StripLiveSkipsNext(js: Js, rule: string, a: Param, b: Param)
    requires a.0 != b.0
    requires KeyMatches(js, rule, a.0) && KeyMatches(js, rule, b.0)
    ensures StripLive(js, rule, [a, b], 0) == [b]
    ensures StripAll(js, rule, [a, b]) == []
  {
    assert Delete([a, b], a.0) == [b];
    assert StripAll(js, rule, [b]) == [];
  }
}
