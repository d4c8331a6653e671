/**
 * The location field of the profile form
 * (components/profiles/LocationAutocomplete.tsx): the suggestion list kept
 * from a geocoder response, the "City, State, CC" display string, and the
 * keyboard navigation of the dropdown. The geocoder itself is a parameter: a
 * response, or none when the request failed.
 */
module LocationAutocomplete {
  import opened Wrappers
  import opened Seqs
  import opened Text

  /** The address part of a geocoder result; an absent field is "". */
  datatype Address = Address(city: string, town: string, village: string, state: string, country: string,
                             countryCode: string)

  /** One geocoder result; `resultType` and `resultClass` are its `type` and `class`, "" when absent. */
  datatype LocationResult = LocationResult(displayName: string, lat: string, lon: string, resultType: string,
                                           resultClass: string, address: Address)

  /** JavaScript's `a || b` on strings. */
  function OrElse(a: string, b: string): string { if a != "" then a else b }

  /** `city || town || village || ''` */
  function CityOf(a: Address): string { OrElse(a.city, OrElse(a.town, a.village)) }

  /** `country_code?.toUpperCase() || 'US'` */
  function CountryCodeOf(a: Address): (r: string)
    ensures r != ""
    ensures a.countryCode != "" ==>
      |r| == |a.countryCode| && forall i :: 0 <= i < |r| ==> r[i] == UpperChar(a.countryCode[i])
    ensures a.countryCode == "" ==> r == "US"
  {
    OrElse(ToUpper(a.countryCode), "US")
  }

  /** The template `${city}, ${state}, ${countryCode}`. */
  function Joined(city: string, state: string, cc: string): string
  {
    city + ", " + state + ", " + cc
  }

  /** `.replace(/, ,/g, ',').replace(/^, |, $/g, '')` */
  function Tidy(text: string): string
  {
    StripSeparators(ReplaceAll(text, ", ,", ","))
  }

  /** formatLocation: the joined parts with the separators of missing parts removed. */
  function FormatLocation(r: LocationResult): string
  {
    Tidy(Joined(CityOf(r.address), r.address.state, CountryCodeOf(r.address)))
  }

  /** The fields formatLocation reads hold no comma. */
  predicate CleanAddress(a: Address)
  {
    NoComma(a.city) && NoComma(a.town) && NoComma(a.village) && NoComma(a.state) && NoComma(a.countryCode)
  }

  /** A comma-free string is left as it is by the ", ," replacement. */
  lemma ReplaceKeepsPart(x: string)
    requires NoComma(x)
    ensures ReplaceAll(x, ", ,", ",") == x
  {
    ReplaceSkipsNoComma(x, "", ", ,", ",");
    assert x + "" == x;
  }

  /** A separator followed by anything but a comma survives the ", ," replacement. */
  lemma ReplaceKeepsSeparator(u: string)
    requires u != "" && u[0] != ','
    ensures ReplaceAll(", " + u, ", ,", ",") == ", " + ReplaceAll(u, ", ,", ",")
  {
    var s := ", " + u;
    assert s[2] == u[0];
    assert !HasPrefix(s, ", ,");
    var t := s[1..];
    assert t == " " + u;
    assert t[0] == ' ';
    assert !HasPrefix(t, ", ,");
    assert t[1..] == u;
  }

  /** A doubled separator ", , " collapses to one. */
  lemma ReplaceCollapsesSeparator(u: string)
    requires u != "" && u[0] != ','
    ensures ReplaceAll(", , " + u, ", ,", ",") == ", " + ReplaceAll(u, ", ,", ",")
  {
    var s := ", , " + u;
    assert HasPrefix(s, ", ,");
    var t := s[3..];
    assert t == " " + u;
    assert t[0] == ' ';
    assert !HasPrefix(t, ", ,");
    assert t[1..] == u;
  }

  /** ", " and a comma-free part, then ", " and the country code, pass the replacement unchanged. */
  lemma KeptTail(state: string, cc: string)
    requires NoComma(state) && NoComma(cc) && state != "" && cc != ""
    ensures ReplaceAll(", " + (state + (", " + cc)), ", ,", ",") == ", " + (state + (", " + cc))
  {
    var rest := ", " + cc;
    ReplaceKeepsPart(cc);
    ReplaceKeepsSeparator(cc);
    ReplaceSkipsNoComma(state, rest, ", ,", ",");
    assert (state + rest)[0] == state[0];
    ReplaceKeepsSeparator(state + rest);
  }

  /** A string ending in a non-empty comma-free part, preceded by a space or nothing, does not end in ", ". */
  lemma NoSeparatorAtEnd(s: string, cc: string)
    requires NoComma(cc) && cc != "" && HasSuffix(s, cc)
    requires |s| > |cc| ==> s[|s| - |cc| - 1] == ' '
    ensures !HasSuffix(s, ", ")
  {
    if |s| >= 2 {
      if |cc| >= 2 {
        assert s[|s| - 2] == cc[|cc| - 2];
      } else {
        assert s[|s| - 2] == ' ';
      }
    }
  }

  /** With a city and a state: "c, s, CC". */
  lemma ShapeCityState(city: string, state: string, cc: string)
    requires NoComma(city) && NoComma(state) && NoComma(cc) && city != "" && state != "" && cc != ""
    ensures Tidy(Joined(city, state, cc)) == city + ", " + state + ", " + cc
  {
    var tail := ", " + (state + (", " + cc));
    var j := city + tail;
    assert Joined(city, state, cc) == j;
    KeptTail(state, cc);
    ReplaceSkipsNoComma(city, tail, ", ,", ",");
    assert j[0] == city[0];
    NoSeparatorAtEnd(j, cc);
  }

  /** A part that does not start with a comma, then ", " and the country code, keeps both separators off. */
  lemma StripKeepsInner(x: string, cc: string)
    requires x != "" && x[0] != ',' && NoComma(cc) && cc != ""
    ensures StripSeparators(x + (", " + cc)) == x + (", " + cc)
  {
    var j := x + (", " + cc);
    assert j[0] == x[0];
    assert !HasPrefix(j, ", ");
    assert HasSuffix(j, cc) by {
      assert j[|j| - |cc|..] == cc;
    }
    NoSeparatorAtEnd(j, cc);
  }

  /** The empty state leaves a doubled separator, which the replacement collapses. */
  lemma ReplaceDoubled(cc: string)
    requires NoComma(cc) && cc != ""
    ensures ReplaceAll(", , " + cc, ", ,", ",") == ", " + cc
  {
    ReplaceKeepsPart(cc);
    ReplaceCollapsesSeparator(cc);
  }

  /** With a city and no state: "c, CC". */
  lemma ShapeCity(city: string, cc: string)
    requires NoComma(city) && NoComma(cc) && city != "" && cc != ""
    ensures Tidy(Joined(city, "", cc)) == city + ", " + cc
  {
    var tail := ", , " + cc;
    var kept := city + (", " + cc);
    var replaced := ReplaceAll(Joined(city, "", cc), ", ,", ",");
    assert replaced == kept by {
      assert Joined(city, "", cc) == city + tail;
      ReplaceDoubled(cc);
      ReplaceSkipsNoComma(city, tail, ", ,", ",");
    }
    StripKeepsInner(city, cc);
    assert kept == city + ", " + cc;
  }

  /** With a state and no city: "s, CC". */
  lemma ShapeState(state: string, cc: string)
    requires NoComma(state) && NoComma(cc) && state != "" && cc != ""
    ensures Tidy(Joined("", state, cc)) == state + ", " + cc
  {
    var j := ", " + (state + (", " + cc));
    assert Joined("", state, cc) == j;
    KeptTail(state, cc);
    assert j[..2] == ", ";
    assert j[2..] == state + ", " + cc;
    NoSeparatorAtEnd(state + ", " + cc, cc);
  }

  /** With neither: "CC". */
  lemma ShapeCountryOnly(cc: string)
    requires NoComma(cc) && cc != ""
    ensures Tidy(Joined("", "", cc)) == cc
  {
    assert Joined("", "", cc) == ", , " + cc;
    ReplaceKeepsPart(cc);
    ReplaceCollapsesSeparator(cc);
    var j := ", " + cc;
    assert j[..2] == ", ";
    assert j[2..] == cc;
    NoSeparatorAtEnd(cc, cc);
  }

  /**
   * The shapes of the display string for comma-free parts: no separator is
   * left at either end or doubled — "c, s, CC", "c, CC", "s, CC" or "CC".
   */
  lemma FormatLocationShapes(r: LocationResult)
    requires CleanAddress(r.address)
    ensures var city, state, cc := CityOf(r.address), r.address.state, CountryCodeOf(r.address);
      FormatLocation(r) ==
        if city != "" && state != "" then city + ", " + state + ", " + cc
        else if city != "" then city + ", " + cc
        else if state != "" then state + ", " + cc
        else cc
  {
    var a := r.address;
    var city, state, cc := CityOf(a), a.state, CountryCodeOf(a);
    assert NoComma(city);
    CountryCodeClean(a);
    if city != "" && state != "" {
      ShapeCityState(city, state, cc);
    } else if city != "" {
      ShapeCity(city, cc);
    } else if state != "" {
      ShapeState(state, cc);
    } else {
      ShapeCountryOnly(cc);
    }
  }

  lemma CountryCodeClean(a: Address)
    requires NoComma(a.countryCode)
    ensures NoComma(CountryCodeOf(a))
  {
    var up := ToUpper(a.countryCode);
    forall i | 0 <= i < |up| ensures up[i] != ',' {
      assert up[i] == UpperChar(a.countryCode[i]);
    }
  }

  /** The kinds of result the dropdown offers. */
  const ValidTypes: seq<string> := ["city", "town", "village", "administrative", "municipality"]

  /**
   * The filter on the response: `(type && validTypes.includes(type)) ||
   * addressType`, with `type = result.type || result.class`.
   */
  predicate IsCityLevel(r: LocationResult)
  {
    var kind := OrElse(r.resultType, r.resultClass);
    (kind != "" && kind in ValidTypes) || CityOf(r.address) != ""
  }

  const MaxSuggestions: nat := 5

  /** `cityLevelResults.slice(0, 5)`: the first five city-level results, in response order. */
  function CityLevelSuggestions(data: seq<LocationResult>): (r: seq<LocationResult>)
    ensures |r| <= MaxSuggestions
    ensures IsSubsequence(r, data)
    ensures forall x :: x in r ==> IsCityLevel(x)
    ensures |Filter(data, IsCityLevel)| >= MaxSuggestions ==> |r| == MaxSuggestions
    ensures |Filter(data, IsCityLevel)| <= MaxSuggestions ==> forall x :: x in data && IsCityLevel(x) ==> x in r
    ensures |r| <= |Filter(data, IsCityLevel)| && r == Filter(data, IsCityLevel)[..|r|]
  {
    var cityLevel := Filter(data, IsCityLevel);
    var r := Take(cityLevel, MaxSuggestions);
    TakeIsSubsequence(cityLevel, MaxSuggestions);
    SubsequenceTransitive(r, cityLevel, data);
    SubsequenceMembers(r, cityLevel);
    r
  }

  /** ArrowDown: `prev < suggestions.length - 1 ? prev + 1 : prev` */
  function ArrowDownIndex(prev: int, count: nat): (r: int)
    ensures prev < count - 1 ==> r == prev + 1
    ensures prev >= count - 1 ==> r == prev
  {
    if prev < count - 1 then prev + 1 else prev
  }

  /** ArrowUp: `prev > 0 ? prev - 1 : -1` */
  function ArrowUpIndex(prev: int): (r: int)
    ensures r >= -1
    ensures prev > 0 ==> r == prev - 1
    ensures prev <= 0 ==> r == -1
  {
    if prev > 0 then prev - 1 else -1
  }

  /** ArrowUp undoes an ArrowDown that moved. */
  lemma UpUndoesDown(prev: int, count: nat)
    requires -1 <= prev < count - 1
    ensures ArrowUpIndex(ArrowDownIndex(prev, count)) == prev
  {
  }

  /** ArrowDown pressed `k` times from no selection. */
  function PressDown(k: nat, count: nat): int
  {
    if k == 0 then -1 else ArrowDownIndex(PressDown(k - 1, count), count)
  }

  /** From no selection, `k` presses of ArrowDown select item k - 1, stopping at the last suggestion. */
  lemma {:induction false} PressDownStopsAtLast(k: nat, count: nat)
    ensures PressDown(k, count) == if count == 0 then -1 else if k - 1 < count - 1 then k - 1 else count - 1
  {
    if k > 0 {
      PressDownStopsAtLast(k - 1, count);
    }
  }

  datatype Key = ArrowDown | ArrowUp | Enter | Escape | OtherKey

  /** What handleSelect passes to `onChange`; the coordinates stay the result's strings (parseFloat is not modelled). */
  datatype Chosen = Chosen(displayText: string, city: string, state: string, country: string, lat: string,
                           lon: string)

  function ChosenOf(r: LocationResult): Chosen
  {
    Chosen(FormatLocation(r), CityOf(r.address), r.address.state, OrElse(r.address.country, "United States"),
           r.lat, r.lon)
  }

  class AutocompleteState {
    var inputValue: string
    var suggestions: seq<LocationResult>
    var isOpen: bool
    var selectedIndex: int

    /** The index never goes below -1, "nothing selected". */
    predicate Valid()
      reads this
    {
      selectedIndex >= -1
    }

    constructor (value: string)
      ensures inputValue == value && suggestions == [] && !isOpen && selectedIndex == -1
      ensures Valid()
    {
      inputValue := value;
      suggestions := [];
      isOpen := false;
      selectedIndex := -1;
    }

    /** handleInputChange: the text follows the input and the selection is cleared. */
    method HandleInputChange(query: string)
      modifies this
      ensures inputValue == query && selectedIndex == -1
      ensures suggestions == old(suggestions) && isOpen == old(isOpen)
      ensures Valid()
    {
      inputValue := query;
      selectedIndex := -1;
    }

    /**
     * fetchSuggestions for `query` once the debounce fires, with the
     * geocoder's answer (None when the request failed): a query shorter than
     * three characters clears the list without asking; a failure clears it; a
     * response keeps its first five city-level results and opens the dropdown
     * when it had any.
     */
    method ReceiveSuggestions(query: string, response: Option<seq<LocationResult>>)
      requires Valid()
      modifies this
      ensures inputValue == old(inputValue) && selectedIndex == old(selectedIndex)
      ensures |query| < 3 ==> suggestions == [] && isOpen == old(isOpen)
      ensures |query| >= 3 && response.None? ==> suggestions == [] && isOpen == old(isOpen)
      ensures |query| >= 3 && response.Some? ==>
        suggestions == CityLevelSuggestions(response.value) &&
        isOpen == (|Filter(response.value, IsCityLevel)| > 0)
      ensures Valid()
    {
      if |query| < 3 {
        suggestions := [];
        return;
      }
      if response.None? {
        suggestions := [];
        return;
      }
      var cityLevel := Filter(response.value, IsCityLevel);
      suggestions := Take(cityLevel, MaxSuggestions);
      isOpen := |cityLevel| > 0;
    }

    /** The input's focus handler: reopens the dropdown for a long enough text with suggestions. */
    method Focus()
      modifies this
      ensures inputValue == old(inputValue) && suggestions == old(suggestions) && selectedIndex == old(selectedIndex)
      ensures isOpen == (old(isOpen) || (|inputValue| >= 3 && |suggestions| > 0))
    {
      if |inputValue| >= 3 && |suggestions| > 0 {
        isOpen := true;
      }
    }

    /** handleSelect: the input shows the formatted place, the dropdown closes and empties. */
    method HandleSelect(r: LocationResult) returns (chosen: Chosen)
      modifies this
      ensures chosen == ChosenOf(r)
      ensures inputValue == FormatLocation(r) && !isOpen && suggestions == []
      ensures selectedIndex == old(selectedIndex)
    {
      inputValue := FormatLocation(r);
      isOpen := false;
      suggestions := [];
      chosen := ChosenOf(r);
    }

    /**
     * handleKeyDown: ignored while the dropdown is closed; the arrows move the
     * selection, Enter picks the selected suggestion when the index names one,
     * Escape closes the dropdown.
     */
    method HandleKeyDown(key: Key) returns (chosen: Option<Chosen>)
      requires Valid()
      modifies this
      ensures Valid()
      ensures !old(isOpen) ==>
        (chosen.None? && inputValue == old(inputValue) && suggestions == old(suggestions) &&
         isOpen == old(isOpen) && selectedIndex == old(selectedIndex))
      ensures old(isOpen) && key == ArrowDown ==>
        selectedIndex == ArrowDownIndex(old(selectedIndex), |old(suggestions)|) && chosen.None? &&
        inputValue == old(inputValue) && suggestions == old(suggestions) && isOpen
      ensures old(isOpen) && key == ArrowUp ==>
        selectedIndex == ArrowUpIndex(old(selectedIndex)) && chosen.None? &&
        inputValue == old(inputValue) && suggestions == old(suggestions) && isOpen
      ensures old(isOpen) && key == Enter && 0 <= old(selectedIndex) < |old(suggestions)| ==>
        chosen == Some(ChosenOf(old(suggestions)[old(selectedIndex)])) &&
        inputValue == FormatLocation(old(suggestions)[old(selectedIndex)]) && !isOpen && suggestions == [] &&
        selectedIndex == old(selectedIndex)
      ensures old(isOpen) && key == Enter && !(0 <= old(selectedIndex) < |old(suggestions)|) ==>
        chosen.None? && inputValue == old(inputValue) && suggestions == old(suggestions) && isOpen &&
        selectedIndex == old(selectedIndex)
      ensures old(isOpen) && key == Escape ==>
        chosen.None? && !isOpen &&
        inputValue == old(inputValue) && suggestions == old(suggestions) && selectedIndex == old(selectedIndex)
      ensures old(isOpen) && key == OtherKey ==>
        chosen.None? && isOpen &&
        inputValue == old(inputValue) && suggestions == old(suggestions) && selectedIndex == old(selectedIndex)
    {
      chosen := None;
      if !isOpen {
        return;
      }
      match key
      case ArrowDown =>
        selectedIndex := ArrowDownIndex(selectedIndex, |suggestions|);
      case ArrowUp =>
        selectedIndex := ArrowUpIndex(selectedIndex);
      case Enter =>
        if 0 <= selectedIndex < |suggestions| {
          var c := HandleSelect(suggestions[selectedIndex]);
          chosen := Some(c);
        }
      case Escape =>
        isOpen := false;
      case OtherKey =>
    }
  }
}
