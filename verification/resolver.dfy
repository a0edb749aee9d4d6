/**
  Free-text faith resolution behind the "Scripture BG" button: the typed faith
  is compared, case-insensitively and in both directions, with every catalog
  key in declaration order, and the first key that matches wins.
 */
module Resolver {
  import opened Wrappers
  import opened Text
  import opened FaithCatalog

  /**
    `faith.lower() in key.lower() or key.lower() in faith.lower()`: one of the
    lower-cased strings occurs at some position of the other.
   */
  predicate Matches(faith: string, key: string)
    ensures Matches(faith, key) <==>
      (exists i :: OccursAt(Lower(key), Lower(faith), i)) || (exists i :: OccursAt(Lower(faith), Lower(key), i))
  {
    ContainsIffOccurs(Lower(key), Lower(faith));
    ContainsIffOccurs(Lower(faith), Lower(key));
    Contains(Lower(key), Lower(faith)) || Contains(Lower(faith), Lower(key))
  }

  /** Matching ignores ASCII case on both sides and does not care which side is the longer one. */
  lemma MatchesSymmetricAndCaseBlind(faith: string, key: string)
    ensures Matches(faith, key) <==> Matches(key, faith)
    ensures Matches(faith, key) <==> Matches(Lower(faith), key)
    ensures Matches(faith, key) <==> Matches(faith, Lower(key))
  {
    LowerIdempotent(faith);
    LowerIdempotent(key);
  }

  /** The first catalog index at or after `from` whose key matches `faith`. */
  function FirstMatchFrom(faith: string, from: nat): (r: Option<nat>)
    requires from <= |Themes|
    ensures r.Some? ==> from <= r.value < |Themes| && Matches(faith, Themes[r.value].name)
    ensures r.Some? ==> forall j :: from <= j < r.value ==> !Matches(faith, Themes[j].name)
    ensures r.None? ==> forall j :: from <= j < |Themes| ==> !Matches(faith, Themes[j].name)
    decreases |Themes| - from
  {
    if from == |Themes| then None
    else if Matches(faith, Themes[from].name) then Some(from)
    else FirstMatchFrom(faith, from + 1)
  }

  /**
    Resolves typed faith text to a catalog theme. `Some(t)` is the first theme,
    in declaration order, whose key matches; `None` means no key matches, and
    the caller lists the available faiths instead.
   */
  function Resolve(faith: string): (r: Option<FaithTheme>)
    ensures r.Some? <==> exists i :: 0 <= i < |Themes| && Matches(faith, Themes[i].name)
    ensures r.Some? ==>
      exists i :: 0 <= i < |Themes| && r.value == Themes[i] && Matches(faith, Themes[i].name) &&
        forall j :: 0 <= j < i ==> !Matches(faith, Themes[j].name)
  {
    match FirstMatchFrom(faith, 0)
    case Some(i) => Some(Themes[i])
    case None => None
  }

  /**
    The `for faith_key in FAITH_BACKGROUNDS.keys(): ... break / else:` loop,
    written as the loop it is: returns the index of the first matching key.
   */
  method ResolveLoop(faith: string) returns (found: Option<nat>)
    ensures found.Some? ==> found.value < |Themes| && Matches(faith, Themes[found.value].name)
    ensures found.Some? ==> forall j :: 0 <= j < found.value ==> !Matches(faith, Themes[j].name)
    ensures found.None? ==> forall j :: 0 <= j < |Themes| ==> !Matches(faith, Themes[j].name)
    ensures found == FirstMatchFrom(faith, 0)
  {
    var keys := Keys();
    var i := 0;
    while i < |keys|
      invariant i <= |keys|
      invariant forall j :: 0 <= j < i ==> !Matches(faith, Themes[j].name)
    {
      if Matches(faith, keys[i]) {
        FirstMatchIsUnique(faith, i);
        return Some(i);
      }
      i := i + 1;
    }
    return None;
  }

  /** An index that matches with no match before it is the one `FirstMatchFrom` finds. */
  lemma FirstMatchIsUnique(faith: string, i: nat)
    requires i < |Themes| && Matches(faith, Themes[i].name)
    requires forall j :: 0 <= j < i ==> !Matches(faith, Themes[j].name)
    ensures FirstMatchFrom(faith, 0) == Some(i)
  {
  }

  /**
    Resolution depends only on which keys the text matches: two texts that
    match exactly the same keys resolve to the same theme (or both to none).
   */
  lemma ResolveDependsOnlyOnMatches(a: string, b: string)
    requires forall i :: 0 <= i < |Themes| ==> (Matches(a, Themes[i].name) <==> Matches(b, Themes[i].name))
    ensures Resolve(a) == Resolve(b)
  {
    FirstMatchSameMatches(a, b, 0);
  }

  lemma {:induction false} FirstMatchSameMatches(a: string, b: string, from: nat)
    requires from <= |Themes|
    requires forall i :: 0 <= i < |Themes| ==> (Matches(a, Themes[i].name) <==> Matches(b, Themes[i].name))
    ensures FirstMatchFrom(a, from) == FirstMatchFrom(b, from)
    decreases |Themes| - from
  {
    if from < |Themes| {
      FirstMatchSameMatches(a, b, from + 1);
    }
  }

  /** Resolution is decided by the lower-cased text alone: typing in any case gives the same theme. */
  lemma ResolveCaseBlind(faith: string)
    ensures Resolve(faith) == Resolve(Lower(faith))
  {
    forall i | 0 <= i < |Themes|
      ensures Matches(faith, Themes[i].name) <==> Matches(Lower(faith), Themes[i].name)
    {
      MatchesSymmetricAndCaseBlind(faith, Themes[i].name);
    }
    ResolveDependsOnlyOnMatches(faith, Lower(faith));
  }

  /** "hindu" is contained in "hinduism", so it resolves to the Hinduism theme. */
  lemma ResolveHindu()
    ensures Resolve("hindu") == Some(Themes[0])
  {
    assert Lower("Hinduism")[..5] == "hindu";
    assert Matches("hindu", Themes[0].name);
  }

  /** Matching folds case: "BUDDHISM" resolves to the Buddhism theme. */
  lemma ResolveUpperCase()
    ensures Resolve("BUDDHISM") == Some(Themes[3])
  {
    assert Lower("BUDDHISM") == "buddhism" == Lower(Themes[3].name);
    ContainsSelfAndEmpty("buddhism", "");
    forall i | 0 <= i < 3 ensures !Matches("BUDDHISM", Themes[i].name) {
      UpperBuddhismSkips(i);
    }
  }

  lemma UpperBuddhismSkips(i: nat)
    requires i < 3
    ensures !Matches("BUDDHISM", Themes[i].name)
  {
    var lt := Lower("BUDDHISM");
    assert lt == "buddhism";
    assert forall p :: 0 <= p < |lt| ==> lt[p] != 'n' && lt[p] != 'a';
    var name := Themes[i].name;
    var k := Lower(name);
    assert forall p :: 0 <= p < |name| ==> name[p] != 'b' && name[p] != 'B';
    assert 'b' in lt && 'b' !in k;
    if i == 0 {
      assert k[2] == 'n';
      AbsentCharNotContained(lt, k, 'n');
      AbsentCharNotContained(k, lt, 'b');
    } else if i == 1 {
      assert k[7] == 'a';
      AbsentCharNotContained(lt, k, 'a');
      AbsentCharNotContained(k, lt, 'b');
    } else {
      assert k[3] == 'a';
      AbsentCharNotContained(lt, k, 'a');
      LongerNotContained(k, lt);
    }
  }

  /** "ism" is a substring of several keys; declaration order makes Hinduism win. */
  lemma ResolveTieGoesToFirstKey()
    ensures Resolve("ism") == Some(Themes[0])
    ensures Matches("ism", Themes[3].name) && Matches("ism", Themes[8].name)
  {
    assert Lower("ism") == "ism";
    assert Lower(Themes[0].name) == "hinduism";
    assert OccursAt(Lower(Themes[0].name), "ism", 5);
    ContainsIffOccurs(Lower(Themes[0].name), "ism");
    assert Lower(Themes[3].name) == "buddhism";
    assert OccursAt(Lower(Themes[3].name), "ism", 5);
    ContainsIffOccurs(Lower(Themes[3].name), "ism");
    assert Lower(Themes[8].name) == "atheism";
    assert OccursAt(Lower(Themes[8].name), "ism", 4);
    ContainsIffOccurs(Lower(Themes[8].name), "ism");
  }

  /** Text that shares no containment with any key, such as "xyz", resolves to nothing. */
  lemma ResolveNoMatch()
    ensures Resolve("xyz") == None
  {
    forall i | 0 <= i < |Themes| ensures !Matches("xyz", Themes[i].name) {
      NoKeyMatchesXyz(i);
    }
  }

  lemma NoKeyMatchesXyz(i: nat)
    requires i < |Themes|
    ensures !Matches("xyz", Themes[i].name)
  {
    var k := Lower(Themes[i].name);
    assert Lower("xyz") == "xyz";
    assert 'x' in "xyz";
    assert forall p :: 0 <= p < |Themes[i].name| ==> Themes[i].name[p] != 'x' && Themes[i].name[p] != 'X';
    assert 'x' !in k;
    AbsentCharNotContained(k, "xyz", 'x');
    LongerNotContained("xyz", k);
    assert !Contains(k, Lower("xyz")) && !Contains(Lower("xyz"), k);
  }
}
