/** The two profile tests of the loader: the production classifier and the per-group inclusion filter. */
module Profiles {
  import opened Wrappers
  import opened JavaStrings
  import opened PropertySources

  /** A run is production-like when some active profile contains "prod", case-sensitively. */
  predicate IsProd(profiles: seq<string>)
  {
    exists i | 0 <= i < |profiles| :: Contains(profiles[i], "prod")
  }

  /** `Arrays.stream(profiles).anyMatch(p -> p.equalsIgnoreCase(marker))` */
  function AnyEqualsIgnoreCase(profiles: seq<string>, marker: string): (r: bool)
    ensures r <==> exists i | 0 <= i < |profiles| :: EqualsIgnoreCase(profiles[i], marker)
  {
    if profiles == [] then false
    else if EqualsIgnoreCase(profiles[0], marker) then true
    else
      var r := AnyEqualsIgnoreCase(profiles[1..], marker);
      assert forall i | 0 < i < |profiles| :: profiles[i] == profiles[1..][i - 1];
      r
  }

  /** `shouldInclude`: an unmarked group is always taken; a marked one only for an active profile equal to its marker. */
  function ShouldInclude(g: PropertyGroup, profiles: seq<string>): (r: bool)
    ensures Marker(g).None? ==> r
    ensures Marker(g).Some? ==> (r <==> exists i | 0 <= i < |profiles| :: EqualsIgnoreCase(profiles[i], Marker(g).value))
  {
    match Marker(g)
    case None => true
    case Some(marker) => AnyEqualsIgnoreCase(profiles, marker)
  }

  /** The groups of one fragment that pass `ShouldInclude`, in decoding order. */
  function Accepted(groups: seq<PropertyGroup>, profiles: seq<string>): seq<PropertyGroup>
  {
    if groups == [] then []
    else (if ShouldInclude(groups[0], profiles) then [groups[0]] else []) + Accepted(groups[1..], profiles)
  }

  /** A group is kept iff it is one of the fragment's groups and passes the filter; no group is added. */
  lemma {:induction false} AcceptedMembers(groups: seq<PropertyGroup>, profiles: seq<string>)
    ensures forall g :: g in Accepted(groups, profiles) <==> g in groups && ShouldInclude(g, profiles)
    ensures |Accepted(groups, profiles)| <= |groups|
  {
    if groups != [] {
      AcceptedMembers(groups[1..], profiles);
      assert forall g :: g in groups <==> g == groups[0] || g in groups[1..];
    }
  }

  /** Filtering the next group extends the filtered prefix by that group when it is accepted. */
  lemma AcceptedStep(groups: seq<PropertyGroup>, j: nat, profiles: seq<string>)
    requires j < |groups|
    ensures Accepted(groups[..j + 1], profiles) ==
            Accepted(groups[..j], profiles) + (if ShouldInclude(groups[j], profiles) then [groups[j]] else [])
  {
    assert groups[..j + 1] == groups[..j] + [groups[j]];
    AcceptedConcat(groups[..j], [groups[j]], profiles);
    assert [groups[j]][1..] == [];
  }

  /** Filtering works document by document: it keeps the relative order of the groups it keeps. */
  lemma {:induction false} AcceptedConcat(a: seq<PropertyGroup>, b: seq<PropertyGroup>, profiles: seq<string>)
    ensures Accepted(a + b, profiles) == Accepted(a, profiles) + Accepted(b, profiles)
  {
    if a != [] {
      assert (a + b)[1..] == a[1..] + b;
      AcceptedConcat(a[1..], b, profiles);
    } else {
      assert a + b == b;
    }
  }

  /** No active profile: never production-like. */
  lemma NoProfilesIsNotProd()
    ensures !IsProd([])
  {
  }

  /** The classifier is case-sensitive: "PROD" alone is not production-like, "prod-kr" is. */
  lemma ProdIsCaseSensitiveSubstring()
    ensures !IsProd(["PROD"])
    ensures IsProd(["prod-kr"])
  {
    assert !OccursAt("PROD", "prod", 0) by {
      assert "PROD"[0..4][0] != "prod"[0];
    }
    assert OccursAt("prod-kr", "prod", 0);
    assert Contains(["prod-kr"][0], "prod");
  }

  /**
   * The filter matches whole profile names up to case, unlike the classifier's substring test:
   * a group marked "prod" is kept for profile "PROD" but dropped for "prod-kr".
   */
  lemma MarkerMatchesWholeNameIgnoringCase(g: PropertyGroup)
    requires Marker(g) == Some("prod")
    ensures ShouldInclude(g, ["PROD"])
    ensures !ShouldInclude(g, ["prod-kr"])
    ensures !ShouldInclude(g, [])
  {
    assert EqualsIgnoreCase("PROD", "prod");
  }

  /** A group marked for `staging` read in a `prod` run is dropped, wherever it stands among its fragment's groups. */
  lemma OtherProfileGroupSkipped(g: PropertyGroup, groups: seq<PropertyGroup>)
    requires Marker(g) == Some("staging")
    ensures !ShouldInclude(g, ["prod"])
    ensures g !in Accepted(groups, ["prod"])
  {
    AcceptedMembers(groups, ["prod"]);
  }
}
