/** What the status page shows over a whole run. */
module StatusSafety {
  import opened Common
  import opened Fleet
  import opened FleetSafety
  import opened Leaders
  import opened SystemSafety

  /**
    A package that is shown finished is shown finished for good: wherever the shown states agree
    with the leases, as every method of the leader keeps them, no later event takes it back.
   */
  lemma FinishedForGood(s: State, events: seq<Event>, before: seq<PkgState>, after: seq<PkgState>, p: nat)
    requires Inv(s) && Legal(s, events) && s.ready && PackagesAgree(s, before) && PackagesAgree(Run(s, events), after)
    requires p < |s.pkgs| && SomeOf(s.work, p) && before[p] == Finished
    ensures p < |after| && after[p] == Finished
  {
    var r := Run(s, events);
    RunSameTests(s, events);
    forall t | 0 <= t < |r.work| && r.work[t].pkg == p
      ensures r.work[t].done
    {
      DoneIsForever(s, events, t);
    }
    var t :| 0 <= t < |s.work| && s.work[t].pkg == p;
    assert r.work[t].pkg == p;
  }
}
