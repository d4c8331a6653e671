/**
 * The earlier discover page (app/discover/page.tsx): with no signal selected
 * every profile is listed; otherwise a profile is listed when one of its
 * signals is among the selected ones. Its signal grouping is
 * SignalsLib.GetSignalsByCategory.
 */
module DiscoverPage {
  import opened Seqs
  import opened Schema
  import opened SignalRules
  import DiscoverContent

  /** `profile.signals.some(us => selectedSignals.includes(us.signal_id))` */
  function HasSelectedSignal(selected: seq<Id>): ProfileWithSignals -> bool
  {
    (profile: ProfileWithSignals) => exists j :: 0 <= j < |profile.signals| && profile.signals[j].row.signalId in selected
  }

  /** The filter effect of this page. */
  function FilterProfiles(profiles: seq<ProfileWithSignals>, selected: seq<Id>): (r: seq<ProfileWithSignals>)
    ensures selected == [] ==> r == profiles
    ensures IsSubsequence(r, profiles)
    ensures selected != [] ==> forall p :: p in r <==>
      (p in profiles && exists us :: us in p.signals && us.row.signalId in selected)
  {
    if selected == [] then
      SubsequenceReflexive(profiles);
      profiles
    else
      forall p ensures HasSelectedSignal(selected)(p) <==> exists us :: us in p.signals && us.row.signalId in selected {
        if exists us :: us in p.signals && us.row.signalId in selected {
          var us :| us in p.signals && us.row.signalId in selected;
          var j :| 0 <= j < |p.signals| && p.signals[j] == us;
        }
      }
      Filter(profiles, HasSelectedSignal(selected))
  }

  /**
   * The two discover screens differ only when nothing is selected (this page
   * lists everyone, the newer one no one); for any selection they list the
   * same profiles in the same order.
   */
  lemma SameMatchesForASelection(profiles: seq<ProfileWithSignals>, selected: seq<Id>)
    requires selected != []
    ensures FilterProfiles(profiles, selected) == DiscoverContent.MatchingProfiles(profiles, selected)
  {
    forall p ensures HasSelectedSignal(selected)(p) == DiscoverContent.HasAnySelected(selected)(p) {
      if HasSelectedSignal(selected)(p) {
        var j :| 0 <= j < |p.signals| && p.signals[j].row.signalId in selected;
        var i :| 0 <= i < |selected| && selected[i] == p.signals[j].row.signalId;
        assert DiscoverContent.HasAnySelected(selected)(p);
      }
    }
    FilterExtensional(profiles, HasSelectedSignal(selected), DiscoverContent.HasAnySelected(selected));
  }
}
