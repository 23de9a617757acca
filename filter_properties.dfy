/**
 * What shouldFilterItem promises, stated over the blocking policy and
 * proved from ShouldFilterItemMeetsPolicy.
 */
module FilterProperties {
  import opened Wrappers
  import opened Text
  import opened Filter

  /** The region rule blocks whatever the genres are. */
  lemma RegionBlocksRegardlessOfGenres(item: Item, genres: Option<seq<string>>)
    requires RegionMatch(CountryOf(item))
    ensures ShouldFilterItem(item.(genres := genres))
  {
    ShouldFilterItemMeetsPolicy(item.(genres := genres));
  }

  /** An item matching neither the region nor the Korean codes is allowed. */
  lemma OtherCountriesAllowed(item: Item)
    requires !RegionMatch(CountryOf(item)) && !KoreanMatch(CountryOf(item))
    ensures !ShouldFilterItem(item)
  {
    ShouldFilterItemMeetsPolicy(item);
  }

  /** A Korean item outside the region rule is blocked exactly by the two Korean sub-rules. */
  lemma KoreanRule(item: Item)
    requires !RegionMatch(CountryOf(item)) && KoreanMatch(CountryOf(item))
    ensures ShouldFilterItem(item) <==> MelodramaGenres(GenresOf(item)) || KoreanTagged(GenresOf(item))
  {
    ShouldFilterItemMeetsPolicy(item);
  }

  /** Fewer than two typical subgenres and no `korean` tag: allowed, whatever the country (outside the region rule). */
  lemma FewSubgenresAllowed(item: Item)
    requires !RegionMatch(CountryOf(item))
    requires SubgenreCount(GenresOf(item)) < SubgenreThreshold
    requires !KoreanTagged(GenresOf(item))
    ensures !ShouldFilterItem(item)
  {
    ShouldFilterItemMeetsPolicy(item);
  }

  /** A plain `Drama` is not enough: genres exactly `[Drama]` are allowed outside the region rule. */
  lemma DramaAloneAllowed(item: Item)
    requires !RegionMatch(CountryOf(item)) && GenresOf(item) == ["Drama"]
    ensures !ShouldFilterItem(item)
  {
    var g := GenresOf(item);
    assert SubgenreCount(g) == 0;
    assert !IsSubstring("korean", LowerStr("Drama"));
    ShouldFilterItemMeetsPolicy(item);
  }

  /** A missing or empty country is never blocked, whatever the genres. */
  lemma MissingCountryAllowed(item: Item)
    requires item.country == None || item.country == Some("")
    ensures !ShouldFilterItem(item)
  {
    assert CountryOf(item) == "";
    ShouldFilterItemMeetsPolicy(item);
  }

  /** A missing `genres` field is treated as an empty list. */
  lemma MissingGenresAreEmpty(item: Item)
    ensures ShouldFilterItem(item.(genres := None)) == ShouldFilterItem(item.(genres := Some([])))
  {
  }

  /** The country is compared case-insensitively: countries equal up to ASCII case get the same verdict. */
  lemma CountryCaseIrrelevant(item: Item, c1: string, c2: string)
    requires LowerStr(c1) == LowerStr(c2)
    ensures ShouldFilterItem(item.(country := Some(c1))) == ShouldFilterItem(item.(country := Some(c2)))
  {
  }

  /** Only the multiset of genres matters, not their order. */
  lemma GenreOrderIrrelevant(item: Item, g1: seq<string>, g2: seq<string>)
    requires multiset(g1) == multiset(g2)
    ensures ShouldFilterItem(item.(genres := Some(g1))) == ShouldFilterItem(item.(genres := Some(g2)))
  {
    forall g ensures g in g1 <==> g in g2 {
      assert g in g1 <==> multiset(g1)[g] > 0;
      assert g in g2 <==> multiset(g2)[g] > 0;
    }
    ShouldFilterItemMeetsPolicy(item.(genres := Some(g1)));
    ShouldFilterItemMeetsPolicy(item.(genres := Some(g2)));
  }

  /** Adding genres never turns a block into an allow. */
  lemma MoreGenresNeverUnblock(item: Item, g: seq<string>, extra: seq<string>)
    requires ShouldFilterItem(item.(genres := Some(g)))
    ensures ShouldFilterItem(item.(genres := Some(g + extra)))
  {
    assert multiset(g + extra) == multiset(g) + multiset(extra);
    assert forall x :: x in g ==> x in g + extra;
    ShouldFilterItemMeetsPolicy(item.(genres := Some(g)));
    ShouldFilterItemMeetsPolicy(item.(genres := Some(g + extra)));
  }

  // ---------------------------------------------------------------------
  // Worked examples of the substring semantics.
  // ---------------------------------------------------------------------

  /**
   * "Ukraine" contains "kr", yet the region rule fires first because it
   * also contains "in": blocked whatever its genres.
   */
  lemma UkraineBlockedByRegion(name: string, genres: Option<seq<string>>)
    ensures KoreanMatch(CountryOf(Item(name, Some("Ukraine"), genres)))
    ensures ShouldFilterItem(Item(name, Some("Ukraine"), genres))
  {
    var item := Item(name, Some("Ukraine"), genres);
    assert CountryOf(item) == "ukraine";
    assert OccursAt("kr", "ukraine", 1);
    assert OccursAt("in", "ukraine", 4);
    ShouldFilterItemMeetsPolicy(item);
  }

  /** Raw containment of "in" also blocks Spain, Argentina and the United Kingdom. */
  lemma InsideWordsBlocked(name: string, genres: Option<seq<string>>)
    ensures ShouldFilterItem(Item(name, Some("Spain"), genres))
    ensures ShouldFilterItem(Item(name, Some("Argentina"), genres))
    ensures ShouldFilterItem(Item(name, Some("United Kingdom"), genres))
  {
    assert CountryOf(Item(name, Some("Spain"), genres)) == "spain";
    assert OccursAt("in", "spain", 3);
    assert CountryOf(Item(name, Some("Argentina"), genres)) == "argentina";
    assert OccursAt("in", "argentina", 6);
    assert CountryOf(Item(name, Some("United Kingdom"), genres)) == "united kingdom";
    assert OccursAt("in", "united kingdom", 8);
    ShouldFilterItemMeetsPolicy(Item(name, Some("Spain"), genres));
    ShouldFilterItemMeetsPolicy(Item(name, Some("Argentina"), genres));
    ShouldFilterItemMeetsPolicy(Item(name, Some("United Kingdom"), genres));
  }

  /**
   * "Hong Kong" spelled out contains none of the region codes (`hk` is only
   * the abbreviation) and none of the Korean ones: it is allowed, whatever
   * its genres.
   */
  lemma HongKongSpelledOutAllowed(name: string, genres: Option<seq<string>>)
    ensures !ShouldFilterItem(Item(name, Some("Hong Kong"), genres))
  {
    var item := Item(name, Some("Hong Kong"), genres);
    var c := "hong kong";
    assert CountryOf(item) == c;
    NotSubstringWithoutFirstChar("cn", c);
    NotSubstringWithoutFirstChar("taiwan", c);
    NotSubstringWithoutFirstChar("in", c);
    forall i | 0 <= i && i + 2 <= |c| ensures !OccursAt("hk", c, i) && !OccursAt("kr", c, i) {
      assert c[i..i + 2][0] == c[i] && c[i..i + 2][1] == c[i + 1];
    }
    forall i | 0 <= i && i + 3 <= |c| ensures !OccursAt("kor", c, i) {
      assert c[i..i + 3][2] == c[i + 2];
    }
    ShouldFilterItemMeetsPolicy(item);
  }

  /** "KR" is Korean and escapes the region rule. */
  lemma KrIsKoreanOnly()
    ensures KoreanMatch("kr") && !RegionMatch("kr")
  {
    assert OccursAt("kr", "kr", 0);
  }

  /** Duplicate subgenres count twice: Drama with Romance twice is a blocked Korean drama. */
  lemma DuplicateSubgenresCount(name: string)
    ensures ShouldFilterItem(Item(name, Some("KR"), Some(["Drama", "Romance", "Romance"])))
  {
    var item := Item(name, Some("KR"), Some(["Drama", "Romance", "Romance"]));
    assert CountryOf(item) == "kr";
    KrIsKoreanOnly();
    assert SubgenreCount(GenresOf(item)) == 2;
    ShouldFilterItemMeetsPolicy(item);
  }

  /** `Drama` and the subgenres match by exact, case-sensitive equality ... */
  lemma CapitalizedGenresCount(name: string)
    ensures ShouldFilterItem(Item(name, Some("KR"), Some(["Drama", "Romance", "Comedy"])))
  {
    var item := Item(name, Some("KR"), Some(["Drama", "Romance", "Comedy"]));
    assert CountryOf(item) == "kr";
    KrIsKoreanOnly();
    assert SubgenreCount(GenresOf(item)) == 2;
    ShouldFilterItemMeetsPolicy(item);
  }

  /** ... so the same genres in lower case are not a Korean drama. */
  lemma LowerCaseGenresDoNotCount(name: string)
    ensures !ShouldFilterItem(Item(name, Some("KR"), Some(["drama", "romance", "comedy"])))
  {
    var genres := ["drama", "romance", "comedy"];
    var item := Item(name, Some("KR"), Some(genres));
    assert CountryOf(item) == "kr";
    KrIsKoreanOnly();
    assert "Drama" !in genres;
    forall g | g in genres ensures !IsSubstring("korean", LowerStr(g)) {
      LowerStrNormalizes(g);
      NotSubstringWithoutFirstChar("korean", g);
    }
    ShouldFilterItemMeetsPolicy(item);
  }

  /** The `korean` tag matches in any letter case and as part of a longer genre name. */
  lemma KoreanTagAnyCase(name: string)
    ensures ShouldFilterItem(Item(name, Some("KR"), Some(["Action", "KOREAN Drama"])))
  {
    var item := Item(name, Some("KR"), Some(["Action", "KOREAN Drama"]));
    assert CountryOf(item) == "kr";
    KrIsKoreanOnly();
    assert LowerStr("KOREAN Drama") == "korean drama";
    assert OccursAt("korean", "korean drama", 0);
    ShouldFilterItemMeetsPolicy(item);
  }
}
