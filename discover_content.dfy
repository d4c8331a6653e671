/**
 * The discover screen (app/discover/DiscoverContent.tsx): profiles are shown
 * only once at least one signal is selected, a profile matching when it has
 * any selected signal; the matches are paged twenty at a time. The signal
 * grouping of the same screen is SignalsLib.GetSignalsByCategory.
 */
module DiscoverContent {
  import opened Seqs
  import opened Schema
  import opened SignalRules

  const ProfilesPerPage: nat := 20

  /** `selectedSignals.some(id => profile.signals.some(us => us.signal_id === id))` */
  function HasAnySelected(selected: seq<Id>): ProfileWithSignals -> bool
  {
    (profile: ProfileWithSignals) =>
      exists i, j :: 0 <= i < |selected| && 0 <= j < |profile.signals| && profile.signals[j].row.signalId == selected[i]
  }

  /**
   * The filter effect: no selection shows no profile; otherwise a profile is
   * kept, in order, exactly when one of its signals is selected.
   */
  function MatchingProfiles(profiles: seq<ProfileWithSignals>, selected: seq<Id>): (r: seq<ProfileWithSignals>)
    ensures selected == [] ==> r == []
    ensures IsSubsequence(r, profiles)
    ensures forall p :: p in r <==>
      (p in profiles && exists us :: us in p.signals && us.row.signalId in selected)
  {
    if selected == [] then []
    else
      var r := Filter(profiles, HasAnySelected(selected));
      forall p ensures HasAnySelected(selected)(p) <==> exists us :: us in p.signals && us.row.signalId in selected {
        if exists us :: us in p.signals && us.row.signalId in selected {
          var us :| us in p.signals && us.row.signalId in selected;
          var i :| 0 <= i < |selected| && selected[i] == us.row.signalId;
          var j :| 0 <= j < |p.signals| && p.signals[j] == us;
          assert p.signals[j].row.signalId == selected[i];
        }
        if HasAnySelected(selected)(p) {
          var i, j :| 0 <= i < |selected| && 0 <= j < |p.signals| && p.signals[j].row.signalId == selected[i];
          assert p.signals[j] in p.signals;
        }
      }
      r
  }

  /** `Math.ceil(n / 20)`: the fewest pages of twenty that hold `n` profiles. */
  function TotalPages(n: nat): (r: nat)
    ensures r * ProfilesPerPage >= n
    ensures r > 0 ==> (r - 1) * ProfilesPerPage < n
    ensures r == 0 <==> n == 0
  {
    (n + ProfilesPerPage - 1) / ProfilesPerPage
  }

  function Min(a: int, b: int): int { if a <= b then a else b }

  /**
   * `slice((page - 1) * 20, (page - 1) * 20 + 20)`: the profiles of one page,
   * the range clipped to the list.
   */
  function PageSlice<T>(items: seq<T>, page: int): (r: seq<T>)
    requires page >= 1
    ensures |r| <= ProfilesPerPage
    ensures (page - 1) * ProfilesPerPage >= |items| <==> r == []
    ensures page < TotalPages(|items|) ==> |r| == ProfilesPerPage
    ensures forall k :: 0 <= k < |r| ==>
      (page - 1) * ProfilesPerPage + k < |items| && r[k] == items[(page - 1) * ProfilesPerPage + k]
  {
    var start := Min((page - 1) * ProfilesPerPage, |items|);
    var end := Min((page - 1) * ProfilesPerPage + ProfilesPerPage, |items|);
    items[start..end]
  }

  /** Pages 1 to `k` one after the other. */
  function FirstPages<T>(items: seq<T>, k: nat): seq<T>
  {
    if k == 0 then [] else FirstPages(items, k - 1) + PageSlice(items, k)
  }

  lemma {:induction false} FirstPagesArePrefix<T>(items: seq<T>, k: nat)
    ensures FirstPages(items, k) == items[..Min(k * ProfilesPerPage, |items|)]
  {
    if k > 0 {
      FirstPagesArePrefix(items, k - 1);
      var a := Min((k - 1) * ProfilesPerPage, |items|);
      var b := Min(k * ProfilesPerPage, |items|);
      assert items[..b] == items[..a] + items[a..b];
    }
  }

  /** The pages the pagination offers, 1 to totalPages, together are the whole list, in order. */
  lemma PagesCoverList<T>(items: seq<T>)
    ensures FirstPages(items, TotalPages(|items|)) == items
  {
    FirstPagesArePrefix(items, TotalPages(|items|));
  }

  /**
   * The screen's state. `filtered` and `currentPage` are derived by the
   * effect that runs whenever the profiles or the selection change.
   */
  class DiscoverState {
    var profiles: seq<ProfileWithSignals>
    var selected: seq<Id>
    var filtered: seq<ProfileWithSignals>
    var currentPage: int

    /** The effect has run and the page is one that the pagination can show. */
    predicate Valid()
      reads this
    {
      filtered == MatchingProfiles(profiles, selected) && 1 <= currentPage &&
      (currentPage == 1 || currentPage <= TotalPages(|filtered|))
    }

    /** The profiles on screen. */
    function CurrentProfiles(): (r: seq<ProfileWithSignals>)
      reads this
      requires Valid()
      ensures |r| <= ProfilesPerPage
      ensures forall p :: p in r ==> p in profiles && exists us :: us in p.signals && us.row.signalId in selected
      ensures forall k :: 0 <= k < |r| ==>
        (currentPage - 1) * ProfilesPerPage + k < |filtered| && r[k] == filtered[(currentPage - 1) * ProfilesPerPage + k]
      ensures currentPage < TotalPages(|filtered|) ==> |r| == ProfilesPerPage
      ensures filtered != [] ==> r != []
    {
      var r := PageSlice(filtered, currentPage);
      forall p | p in r ensures p in filtered {
        var k :| 0 <= k < |r| && r[k] == p;
        assert filtered[(currentPage - 1) * ProfilesPerPage + k] == p;
      }
      r
    }

    /** After the first fetch: the profiles are loaded and no signal is selected. */
    constructor (loaded: seq<ProfileWithSignals>)
      ensures profiles == loaded && selected == [] && filtered == [] && currentPage == 1
      ensures Valid()
    {
      profiles := loaded;
      selected := [];
      filtered := [];
      currentPage := 1;
    }

    /** `setSelectedSignals` from the filter chips, followed by the filter effect: back to page 1. */
    method SetSelectedSignals(newSelection: seq<Id>)
      modifies this
      ensures profiles == old(profiles) && selected == newSelection
      ensures filtered == MatchingProfiles(profiles, newSelection) && currentPage == 1
      ensures Valid()
    {
      selected := newSelection;
      filtered := MatchingProfiles(profiles, selected);
      currentPage := 1;
    }

    /** Previous: one page back, never below page 1. The button is rendered only with two pages or more. */
    method Previous()
      requires Valid()
      modifies this
      ensures profiles == old(profiles) && selected == old(selected) && filtered == old(filtered)
      ensures TotalPages(|filtered|) > 1 ==> currentPage == if old(currentPage) > 1 then old(currentPage) - 1 else 1
      ensures TotalPages(|filtered|) <= 1 ==> currentPage == old(currentPage)
      ensures Valid()
    {
      if TotalPages(|filtered|) > 1 {
        currentPage := if currentPage - 1 > 1 then currentPage - 1 else 1;
      }
    }

    /** Next: one page on, never past the last page. The button is rendered only with two pages or more. */
    method Next()
      requires Valid()
      modifies this
      ensures profiles == old(profiles) && selected == old(selected) && filtered == old(filtered)
      ensures TotalPages(|filtered|) > 1 ==> currentPage == Min(TotalPages(|filtered|), old(currentPage) + 1)
      ensures TotalPages(|filtered|) <= 1 ==> currentPage == old(currentPage)
      ensures Valid()
    {
      var total := TotalPages(|filtered|);
      if total > 1 {
        currentPage := Min(total, currentPage + 1);
      }
    }

    /** A page-number button: there is one for each page 1 to totalPages when there are two or more. */
    method GoToPage(page: int)
      requires Valid()
      modifies this
      ensures profiles == old(profiles) && selected == old(selected) && filtered == old(filtered)
      ensures TotalPages(|filtered|) > 1 && 1 <= page <= TotalPages(|filtered|) ==> currentPage == page
      ensures !(TotalPages(|filtered|) > 1 && 1 <= page <= TotalPages(|filtered|)) ==> currentPage == old(currentPage)
      ensures Valid()
    {
      var total := TotalPages(|filtered|);
      if total > 1 && 1 <= page <= total {
        currentPage := page;
      }
    }
  }
}
