/**
 * The modal that shows another trainer's public profile: when it loads, and
 * how the profile's `brandingColors` text (comma-separated colours) becomes
 * the primary and secondary colour of the page.
 */
module TrainerProfileModal {
  import opened Common
  import opened TrainerService

  datatype Colors = Colors(primary: string, secondary: string)

  const DefaultPrimary := "#667eea"
  const DefaultSecondary := "#764ba2"

  /** `piece?.trim() || fallback` */
  function TrimOr(piece: Option<string>, fallback: string): (r: string)
    ensures piece.Some? && Trim(piece.value) != "" ==> r == Trim(piece.value)
    ensures !(piece.Some? && Trim(piece.value) != "") ==> r == fallback
  {
    if piece.Some? && Trim(piece.value) != "" then Trim(piece.value) else fallback
  }

  /**
   * `getBrandingColors`: the defaults without a colour text; otherwise the
   * first two comma-separated pieces, trimmed, each falling back to its
   * default when it is missing or blank. Neither colour is ever empty.
   */
  function BrandingColors(brandingColors: Option<string>): (c: Colors)
    ensures !PresentText(brandingColors) ==> c == Colors(DefaultPrimary, DefaultSecondary)
    ensures c.primary != "" && c.secondary != ""
  {
    if !PresentText(brandingColors) then Colors(DefaultPrimary, DefaultSecondary)
    else ColorsOfPieces(Split(brandingColors.value, ','))
  }

  /** The colours the comma-separated pieces give: the first two only. */
  function ColorsOfPieces(parts: seq<string>): Colors
    requires |parts| >= 1
  {
    Colors(TrimOr(Some(parts[0]), DefaultPrimary),
           TrimOr(if |parts| > 1 then Some(parts[1]) else None, DefaultSecondary))
  }

  /** `p,q` splits into its two pieces. */
  lemma SplitPair(p: string, q: string)
    requires ',' !in p && ',' !in q
    ensures Split(p + "," + q, ',') == [p, q]
  {
    assert p + "," + q == p + [','] + q;
    SplitCons(p, ',', q);
    assert IndexOfChar(q, ',').None?;
  }

  /** `p,q,rest` splits into the two pieces followed by the pieces of `rest`. */
  lemma SplitPairThenRest(p: string, q: string, rest: string)
    requires ',' !in p && ',' !in q
    ensures Split(p + "," + q + "," + rest, ',') == [p, q] + Split(rest, ',')
  {
    assert p + "," + q + "," + rest == p + [','] + (q + [','] + rest);
    SplitCons(p, ',', q + [','] + rest);
    SplitCons(q, ',', rest);
  }

  /** Two pieces give the two colours, each trimmed, or its default when blank. */
  lemma BrandingColorsOfPair(p: string, q: string)
    requires ',' !in p && ',' !in q
    ensures BrandingColors(Some(p + "," + q)) ==
            Colors(TrimOr(Some(p), DefaultPrimary), TrimOr(Some(q), DefaultSecondary))
  {
    SplitPair(p, q);
    assert |p + "," + q| > 0;
  }

  /** Pieces after the second are ignored. */
  lemma BrandingColorsIgnoresRest(p: string, q: string, rest: string)
    requires ',' !in p && ',' !in q
    ensures BrandingColors(Some(p + "," + q + "," + rest)) == BrandingColors(Some(p + "," + q))
  {
    SplitPair(p, q);
    SplitPairThenRest(p, q, rest);
    var longParts := [p, q] + Split(rest, ',');
    assert longParts[0] == p && longParts[1] == q;
    assert ColorsOfPieces(longParts) == ColorsOfPieces([p, q]);
    assert |p + "," + q + "," + rest| > 0 && |p + "," + q| > 0;
  }

  /** A single piece sets the primary colour only. */
  lemma BrandingColorsOfOne(p: string)
    requires ',' !in p && p != ""
    ensures BrandingColors(Some(p)) == Colors(TrimOr(Some(p), DefaultPrimary), DefaultSecondary)
  {
    assert IndexOfChar(p, ',').None?;
  }

  /** Colours written as the form suggests (`#4A90E2,#8B5FBF`) come back exactly. */
  lemma BrandingColorsRoundTrip(p: string, q: string)
    requires ',' !in p && ',' !in q
    requires p != "" && Trim(p) == p && q != "" && Trim(q) == q
    ensures BrandingColors(Some(p + "," + q)) == Colors(p, q)
  {
    BrandingColorsOfPair(p, q);
  }

  /** `ngOnChanges` loads the profile only when the modal is open and the id is truthy. */
  predicate ShouldLoad(isOpen: bool, trainerId: Option<int>)
    ensures !isOpen || trainerId.None? || trainerId == Some(0) ==> !ShouldLoad(isOpen, trainerId)
    ensures ShouldLoad(isOpen, trainerId) ==> trainerId.Some? && trainerId.value != 0
  {
    isOpen && trainerId.Some? && trainerId.value != 0
  }

  class TrainerProfileModalState {
    var isOpen: bool
    var trainerId: Option<int>
    var profile: Option<TrainerProfileResponse>
    var isLoading: bool

    constructor ()
      ensures !isOpen && trainerId.None? && profile.None? && !isLoading
    {
      isOpen := false;
      trainerId := None;
      profile := None;
      isLoading := false;
    }

    /** `ngOnChanges`: returns the id of the profile it asks for, if any. */
    method OnChanges() returns (load: Option<int>)
      modifies this`isLoading
      ensures ShouldLoad(isOpen, trainerId) ==> load == trainerId && isLoading
      ensures !ShouldLoad(isOpen, trainerId) ==> load.None? && isLoading == old(isLoading)
    {
      if ShouldLoad(isOpen, trainerId) {
        isLoading := true;
        return trainerId;
      }
      return None;
    }

    method OnProfileLoaded(p: TrainerProfileResponse)
      modifies this`profile, this`isLoading
      ensures profile == Some(p) && !isLoading
    {
      profile := Some(p);
      isLoading := false;
    }

    /** A failed load keeps whatever profile was shown before. */
    method OnProfileFailed()
      modifies this`isLoading
      ensures !isLoading
    {
      isLoading := false;
    }

    /** `getBrandingColors` on the shown profile. */
    function CurrentColors(): (c: Colors)
      reads this
      ensures profile.None? ==> c == Colors(DefaultPrimary, DefaultSecondary)
    {
      BrandingColors(if profile.Some? then profile.value.brandingColors else None)
    }
  }
}
