/**
 * The content classifier `shouldFilterItem`: decides from an item's
 * `country` and `genres` whether it is blocked (Chinese, Hong Kong,
 * Taiwanese or Indian content, and melodramatic Korean drama) or allowed.
 * Matching is raw substring containment on the lower-cased country, exactly
 * as the JavaScript does, not matching of whole country tokens.
 */
module Filter {
  import opened Wrappers
  import opened Text

  /**
   * The fields of an upstream meta record the classifier reads. `name`
   * stands for every other field; it is carried along unchanged.
   * A `None` field is one the record lacks (`undefined` or `null`).
   */
  datatype Item = Item(name: string, country: Option<string>, genres: Option<seq<string>>)

  /** Country codes and names whose presence blocks an item outright. */
  const RegionCodes: seq<string> := ["cn", "china", "hk", "taiwan", "in", "india"]

  /** Country codes and names that mark an item as Korean. */
  const KoreanCodes: seq<string> := ["kr", "kor", "korea"]

  /** Genres typical of a Korean drama (matched exactly, case-sensitively). */
  const KdramaSubgenres: seq<string> := ["Romance", "Comedy", "Medical", "Legal", "Family", "Melodrama"]

  /** A Korean drama is blocked once it carries at least this many typical subgenres. */
  const SubgenreThreshold: nat := 2

  /** `item.country ? item.country.toLowerCase() : ''` */
  function CountryOf(item: Item): (c: string)
    ensures IsLowerCase(c)
    ensures item.country.Some? ==> c == LowerStr(item.country.value)
    ensures item.country.None? ==> c == ""
  {
    LowerStrNormalizes(if item.country.Some? then item.country.value else "");
    match item.country
    case None => ""
    case Some(s) => LowerStr(s)
  }

  /** `item.genres || []` */
  function GenresOf(item: Item): seq<string> {
    match item.genres
    case None => []
    case Some(g) => g
  }

  /** `codes.some(code => s.includes(code))`, written in the source as a chain of `||`. */
  function IncludesAny(s: string, codes: seq<string>): (r: bool)
    ensures r <==> exists code :: code in codes && IsSubstring(code, s)
  {
    if codes == [] then false
    else Includes(s, codes[0]) || IncludesAny(s, codes[1..])
  }

  /** `genres.filter(g => kdramaSubgenres.includes(g))` */
  function MatchingSubgenres(genres: seq<string>): (r: seq<string>)
    ensures forall g :: g in r ==> g in KdramaSubgenres && g in genres
    ensures forall g :: multiset(r)[g] == if g in KdramaSubgenres then multiset(genres)[g] else 0
  {
    if genres == [] then []
    else
      assert genres == [genres[0]] + genres[1..];
      (if genres[0] in KdramaSubgenres then [genres[0]] else []) + MatchingSubgenres(genres[1..])
  }

  /** `genres.some(g => g.toLowerCase().includes('korean'))` */
  predicate HasKoreanTag(genres: seq<string>) {
    exists g :: g in genres && Includes(LowerStr(g), "korean")
  }

  /** `shouldFilterItem(item)`: true means block, false means allow. */
  predicate ShouldFilterItem(item: Item) {
    var country := CountryOf(item);
    var genres := GenresOf(item);
    if IncludesAny(country, RegionCodes) then
      true
    else if IncludesAny(country, KoreanCodes) then
      var hasDrama := "Drama" in genres;
      var matchingSubgenres := MatchingSubgenres(genres);
      if hasDrama && |matchingSubgenres| >= SubgenreThreshold then
        true
      else if HasKoreanTag(genres) then
        true
      else
        false
    else
      false
  }

  // ---------------------------------------------------------------------
  // The blocking policy, stated independently of the code above.
  // ---------------------------------------------------------------------

  /**
   * Region rule. "china" and "india" both contain "in", so four codes
   * suffice (see RegionCodesReduce).
   */
  ghost predicate RegionMatch(country: string) {
    IsSubstring("cn", country) || IsSubstring("hk", country)
    || IsSubstring("taiwan", country) || IsSubstring("in", country)
  }

  /** Korean rule. "korea" contains "kor", so two codes suffice (see KoreanCodesReduce). */
  ghost predicate KoreanMatch(country: string) {
    IsSubstring("kr", country) || IsSubstring("kor", country)
  }

  /** How many entries of `genres` are typical subgenres, duplicates counted. */
  ghost function SubgenreCount(genres: seq<string>): nat {
    var m := multiset(genres);
    m["Romance"] + m["Comedy"] + m["Medical"] + m["Legal"] + m["Family"] + m["Melodrama"]
  }

  /** A drama with at least two typical subgenres. */
  ghost predicate MelodramaGenres(genres: seq<string>) {
    "Drama" in genres && SubgenreCount(genres) >= SubgenreThreshold
  }

  /** Some genre mentions "korean", in any letter case. */
  ghost predicate KoreanTagged(genres: seq<string>) {
    exists g :: g in genres && IsSubstring("korean", LowerStr(g))
  }

  /** The policy: region-blocked, or Korean and (melodrama or tagged Korean). */
  ghost predicate Blocked(item: Item) {
    var country := CountryOf(item);
    var genres := GenresOf(item);
    RegionMatch(country)
    || (KoreanMatch(country) && (MelodramaGenres(genres) || KoreanTagged(genres)))
  }

  // ---------------------------------------------------------------------
  // The code meets the policy.
  // ---------------------------------------------------------------------

  /** Three of the source's codes contain shorter codes of the same rule. */
  lemma LongCodesContainShortOnes()
    ensures IsSubstring("in", "china") && IsSubstring("in", "india")
    ensures IsSubstring("kor", "korea")
  {
    assert OccursAt("in", "china", 2);
    assert OccursAt("in", "india", 0);
    assert OccursAt("kor", "korea", 0);
  }

  /** The six region codes of the source block exactly what the four of RegionMatch block. */
  lemma RegionCodesReduce(country: string)
    ensures IncludesAny(country, RegionCodes) <==> RegionMatch(country)
  {
    LongCodesContainShortOnes();
    if IsSubstring("china", country) {
      SubstringTransitive("in", "china", country);
    }
    if IsSubstring("india", country) {
      SubstringTransitive("in", "india", country);
    }
  }

  /** The three Korean codes of the source match exactly what the two of KoreanMatch match. */
  lemma KoreanCodesReduce(country: string)
    ensures IncludesAny(country, KoreanCodes) <==> KoreanMatch(country)
  {
    LongCodesContainShortOnes();
    if IsSubstring("korea", country) {
      SubstringTransitive("kor", "korea", country);
    }
  }

  /** Adding one genre in front adds one to the count exactly when it is a typical subgenre. */
  lemma SubgenreCountCons(g: string, rest: seq<string>)
    ensures SubgenreCount([g] + rest) == (if g in KdramaSubgenres then 1 else 0) + SubgenreCount(rest)
  {
  }

  /** The length of the filtered list is the number of typical-subgenre entries. */
  lemma {:induction false} MatchingSubgenresCount(genres: seq<string>)
    ensures |MatchingSubgenres(genres)| == SubgenreCount(genres)
  {
    if genres != [] {
      MatchingSubgenresCount(genres[1..]);
      SubgenreCountCons(genres[0], genres[1..]);
      assert genres == [genres[0]] + genres[1..];
    }
  }

  /** The `korean` tag test agrees with its specification. */
  lemma HasKoreanTagSpec(genres: seq<string>)
    ensures HasKoreanTag(genres) <==> KoreanTagged(genres)
  {
  }

  /** shouldFilterItem blocks exactly the items the policy blocks. */
  lemma ShouldFilterItemMeetsPolicy(item: Item)
    ensures ShouldFilterItem(item) <==> Blocked(item)
  {
    var country := CountryOf(item);
    RegionCodesReduce(country);
    KoreanCodesReduce(country);
    MatchingSubgenresCount(GenresOf(item));
    HasKoreanTagSpec(GenresOf(item));
  }
}
