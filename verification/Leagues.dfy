/**
 cmd/football_leagues.go: which leagues a multi-league job runs, and running each of them so
 that one league's failure costs no other.
 */
module Leagues {
  import opened Wrappers
  import opened Sorting
  import opened Text

  datatype League = League(id: string, name: string, complete: bool)

  /** What Sleeper lists for the user under a season; None is a failed fetch. */
  type Lister = string -> Option<seq<League>>

  datatype Discovery =
    | NoUserConfigured
    | FetchFailed(season: string)
    | NoLeagues
    | OffSeason
    | Found(leagues: seq<League>)

  /** The season in play, and the one leagues are being created into when it has moved ahead. */
  function Seasons(season: string, create: string): seq<string> {
    [season] + if create != "" && create != season then [create] else []
  }

  predicate HasId(leagues: seq<League>, id: string) { exists i :: 0 <= i < |leagues| && leagues[i].id == id }

  /** The first listing of each league. */
  function Distinct(listed: seq<League>): seq<League> {
    if listed == [] then []
    else
      var kept := Distinct(listed[..|listed| - 1]);
      var last := listed[|listed| - 1];
      if HasId(kept, last.id) then kept else kept + [last]
  }

  /** Everything listed under some seasons, in the order they are asked. */
  function Listed(seasons: seq<string>, lister: Lister): seq<League> {
    if seasons == [] then []
    else
      Listed(seasons[..|seasons| - 1], lister) +
      match lister(seasons[|seasons| - 1]) case Some(ls) => ls case None => []
  }

  predicate InPlay(l: League) { !l.complete }

  predicate ByName(a: League, b: League) {
    if a.name != b.name then LexLeq(a.name, b.name) else LexLeq(a.id, b.id)
  }

  lemma ByNameIsTotal()
    ensures TotalPreorder(ByName)
  {
    LexLeqIsTotalOrder();
  }

  /** `leagueContexts`: drop the finished leagues, order the rest by name and id. */
  method LeagueContexts(leagues: seq<League>) returns (out: seq<League>)
    ensures SortedPerm(ByName, Filter(InPlay, leagues), out)
    ensures forall i, j :: 0 <= i < j < |out| ==>
      LexLeq(out[i].name, out[j].name) && (out[i].name == out[j].name ==> LexLeq(out[i].id, out[j].id))
  {
    out := [];
    for i := 0 to |leagues|
      invariant out == Filter(InPlay, leagues[..i])
    {
      FilterStep(InPlay, leagues, i);
      if leagues[i].complete { continue; }
      out := out + [leagues[i]];
    }
    assert leagues[..|leagues|] == leagues;
    ByNameIsTotal();
    SortSorts(ByName, out);
    out := Sort(ByName, out);
    forall i, j | 0 <= i < j < |out|
      ensures LexLeq(out[i].name, out[j].name) && (out[i].name == out[j].name ==> LexLeq(out[i].id, out[j].id))
    {
      assert ByName(out[i], out[j]);
      LexLeqTotal(out[i].name, out[j].name);
    }
  }

  /** The leagues kept so far, and the ids seen with them. */
  ghost predicate Seen(seen: set<string>, leagues: seq<League>) {
    forall id :: id in seen <==> HasId(leagues, id)
  }

  lemma HasIdGrows(leagues: seq<League>, l: League)
    ensures forall id :: HasId(leagues + [l], id) <==> HasId(leagues, id) || id == l.id
  {
    var more := leagues + [l];
    assert more[|leagues|] == l;
    assert forall i :: 0 <= i < |leagues| ==> more[i] == leagues[i];
    forall id | HasId(leagues, id) ensures HasId(more, id) {
      var i :| 0 <= i < |leagues| && leagues[i].id == id;
      assert more[i].id == id;
    }
  }

  lemma DistinctStep(listed: seq<League>, l: League)
    ensures Distinct(listed + [l]) ==
      if HasId(Distinct(listed), l.id) then Distinct(listed) else Distinct(listed) + [l]
  {
    assert (listed + [l])[..|listed|] == listed;
  }

  /** One fetch folded into what is known. */
  method Fold(leagues: seq<League>, seen: set<string>, ls: seq<League>, ghost listed: seq<League>)
    returns (more: seq<League>, seen': set<string>)
    requires leagues == Distinct(listed) && Seen(seen, leagues)
    ensures more == Distinct(listed + ls) && Seen(seen', more)
  {
    more, seen' := leagues, seen;
    assert listed + ls[..0] == listed;
    for i := 0 to |ls|
      invariant more == Distinct(listed + ls[..i]) && Seen(seen', more)
    {
      DistinctStep(listed + ls[..i], ls[i]);
      assert listed + ls[..i] + [ls[i]] == listed + ls[..i + 1];
      if ls[i].id in seen' { continue; }
      HasIdGrows(more, ls[i]);
      seen', more := seen' + {ls[i].id}, more + [ls[i]];
    }
    assert ls[..|ls|] == ls;
  }

  /** Whether every season of a list could be fetched. */
  predicate AllFetched(seasons: seq<string>, lister: Lister) {
    forall i :: 0 <= i < |seasons| ==> lister(seasons[i]).Some?
  }

  /** The seasons discovery asks about, in order: last season only when the others list
      nothing at all and it is not one of them. */
  function Asked(season: string, create: string, previous: string, lister: Lister): seq<string> {
    var seasons := Seasons(season, create);
    if AllFetched(seasons, lister) && Listed(seasons, lister) == [] && previous != "" && previous !in seasons
    then seasons + [previous] else seasons
  }

  /** Which seasons those are: the one in play first, the one being created into if there is
      one, and the one before only if each of those could be fetched and lists nothing. None is
      asked twice. */
  lemma SeasonsAskedExactly(season: string, create: string, previous: string, lister: Lister)
    ensures var asked := Asked(season, create, previous, lister);
      var nothing := lister(season) == Some([]) && (create != "" ==> lister(create) == Some([]));
      && asked[0] == season && |asked| <= 3
      && (forall x :: x in asked <==>
            x == season || (create != "" && x == create) || (previous != "" && nothing && x == previous))
      && (forall i, j :: 0 <= i < j < |asked| ==> asked[i] != asked[j])
      && (create != "" && create != season ==> asked[1] == create)
  {
    var seasons := Seasons(season, create);
    assert seasons[..0] == [];
    if create != "" && create != season {
      assert seasons == [season, create] && seasons[..1] == [season] && [season][..0] == [];
    } else {
      assert seasons == [season];
    }
    assert Listed([season], lister) == match lister(season) case Some(ls) => ls case None => [] by {
      assert [season][..0] == [];
    }
    assert AllFetched(seasons, lister) <==> lister(season).Some? && (create != "" ==> lister(create).Some?) by {
      assert seasons[0] == season;
      if create != "" && create != season { assert seasons[1] == create; }
    }
  }

  lemma {:induction false} DistinctKeeps(listed: seq<League>)
    ensures Distinct(listed) == [] <==> listed == []
    ensures forall i, j :: 0 <= i < j < |Distinct(listed)| ==> Distinct(listed)[i].id != Distinct(listed)[j].id
  {
    if listed != [] {
      var init, last := listed[..|listed| - 1], listed[|listed| - 1];
      DistinctKeeps(init);
      var kept := Distinct(init);
      if !HasId(kept, last.id) {
        assert forall i :: 0 <= i < |kept| ==> kept[i].id != last.id;
      }
    }
  }

  /** `discoverLeagues`. `previous` is the season before, empty when the season is no year. */
  method DiscoverLeagues(userId: string, season: string, create: string, previous: string, lister: Lister)
    returns (d: Discovery)
    ensures d.NoUserConfigured? <==> userId == ""
    ensures userId != "" ==>
      (d.FetchFailed? <==> !AllFetched(Asked(season, create, previous, lister), lister))
    ensures userId != "" && !d.FetchFailed? ==>
      var all := Listed(Asked(season, create, previous, lister), lister);
      var inPlay := Filter(InPlay, Distinct(all));
      && (d.NoLeagues? <==> all == [])
      && (d.OffSeason? <==> all != [] && inPlay == [])
      && (d.Found? <==> inPlay != [])
      && (d.Found? ==> multiset(d.leagues) == multiset(inPlay))
      && (d.Found? ==> forall i, j :: 0 <= i < j < |d.leagues| ==>
            LexLeq(d.leagues[i].name, d.leagues[j].name) &&
            (d.leagues[i].name == d.leagues[j].name ==> LexLeq(d.leagues[i].id, d.leagues[j].id)))
  {
    if userId == "" { return NoUserConfigured; }
    ghost var asked := Asked(season, create, previous, lister);
    var seasons := Seasons(season, create);
    var failed, leagues, seen := FetchSeasons(seasons, lister);
    if failed.Some? { return FetchFailed(failed.value); }
    DistinctKeeps(Listed(seasons, lister));
    if leagues == [] && previous != "" && previous !in seasons {
      OneMoreSeason(seasons, previous, lister);
      var ls := lister(previous);
      if ls.None? { return FetchFailed(previous); }
      leagues, seen := Fold(leagues, seen, ls.value, Listed(seasons, lister));
    }
    DistinctKeeps(Listed(asked, lister));
    if leagues == [] { return NoLeagues; }
    var out := LeagueContexts(leagues);
    SameElements(Filter(InPlay, leagues), out);
    d := if out == [] then OffSeason else Found(out);
  }

  lemma OneMoreSeason(seasons: seq<string>, previous: string, lister: Lister)
    ensures AllFetched(seasons + [previous], lister) <==> AllFetched(seasons, lister) && lister(previous).Some?
    ensures Listed(seasons + [previous], lister) ==
      Listed(seasons, lister) + match lister(previous) case Some(ls) => ls case None => []
  {
    var all := seasons + [previous];
    assert all[|seasons|] == previous && all[..|seasons|] == seasons;
    assert forall i :: 0 <= i < |seasons| ==> all[i] == seasons[i];
  }

  /** The seasons always asked; the first that fails ends it. */
  method FetchSeasons(seasons: seq<string>, lister: Lister)
    returns (failed: Option<string>, leagues: seq<League>, seen: set<string>)
    ensures failed.Some? <==> !AllFetched(seasons, lister)
    ensures failed.None? ==> leagues == Distinct(Listed(seasons, lister)) && Seen(seen, leagues)
  {
    leagues, seen, failed := [], {}, None;
    for i := 0 to |seasons|
      invariant failed.None? && AllFetched(seasons[..i], lister)
      invariant leagues == Distinct(Listed(seasons[..i], lister)) && Seen(seen, leagues)
    {
      var ls := lister(seasons[i]);
      OneMoreSeason(seasons[..i], seasons[i], lister);
      assert seasons[..i + 1] == seasons[..i] + [seasons[i]];
      if ls.None? { return Some(seasons[i]), leagues, seen; }
      leagues, seen := Fold(leagues, seen, ls.value, Listed(seasons[..i], lister));
    }
    assert seasons[..|seasons|] == seasons;
  }

  /** The first listing under an id. */
  function FirstWithId(listed: seq<League>, id: string): (l: Option<League>)
    ensures l.Some? ==> l.value in listed && l.value.id == id
    ensures l.None? <==> !HasId(listed, id)
  {
    if listed == [] then None
    else if listed[0].id == id then Some(listed[0])
    else
      assert forall i :: 0 < i < |listed| ==> listed[i] == listed[1..][i - 1];
      FirstWithId(listed[1..], id)
  }

  lemma {:induction false} FirstAppend(listed: seq<League>, last: League, id: string)
    ensures FirstWithId(listed + [last], id) ==
      if FirstWithId(listed, id).Some? then FirstWithId(listed, id)
      else if last.id == id then Some(last) else None
  {
    if listed != [] {
      assert (listed + [last])[1..] == listed[1..] + [last];
      FirstAppend(listed[1..], last, id);
    }
  }

  lemma {:induction false} DistinctIsFirsts(listed: seq<League>, l: League)
    ensures l in Distinct(listed) <==> FirstWithId(listed, l.id) == Some(l)
    ensures HasId(Distinct(listed), l.id) <==> HasId(listed, l.id)
  {
    if listed != [] {
      var init, last := listed[..|listed| - 1], listed[|listed| - 1];
      assert listed == init + [last];
      DistinctIsFirsts(init, l);
      DistinctIsFirsts(init, last);
      FirstAppend(init, last, l.id);
      HasIdGrows(init, last);
      HasIdGrows(Distinct(init), last);
    }
  }

  /** Across seasons each league is taken once, as the season asked first lists it, and left
      out exactly when that listing says it is complete. */
  lemma DiscoveryTakesTheFirstListing(listed: seq<League>, l: League)
    ensures l in Filter(InPlay, Distinct(listed)) <==>
      !l.complete && FirstWithId(listed, l.id) == Some(l)
  {
    DistinctIsFirsts(listed, l);
    FilterKeeps(InPlay, Distinct(listed), l);
  }

  // ---------------------------------------------------------------- one job over every league

  /** How loading one league ends; an aborting failure would befall every league alike. */
  datatype Load = Loaded | LoadFailed(aborts: bool)

  predicate Aborts(l: Load) { l.LoadFailed? && l.aborts }

  /** The leagues before `n` whose load went one way, in order. */
  function Went(leagues: seq<League>, load: League -> Load, loaded: bool): seq<League> {
    Filter((l: League) => load(l).Loaded? == loaded, leagues)
  }

  /** `forEachLeague`: a failed load costs its own league and no other; an aborting one ends
      the run before any later league is touched. */
  method ForEachLeague(leagues: seq<League>, load: League -> Load, abort: bool)
    returns (ran: seq<League>, failed: seq<League>, stoppedAt: Option<nat>)
    ensures forall l :: l in ran ==> load(l).Loaded?
    ensures forall l :: l in failed ==> load(l).LoadFailed?
    ensures stoppedAt.None? ==>
      && ran == Went(leagues, load, true) && failed == Went(leagues, load, false)
      && (abort ==> forall i :: 0 <= i < |leagues| ==> !Aborts(load(leagues[i])))
    ensures stoppedAt.Some? ==> var n := stoppedAt.value;
      && abort && n < |leagues| && Aborts(load(leagues[n]))
      && (forall i :: 0 <= i < n ==> !Aborts(load(leagues[i])))
      && ran == Went(leagues[..n], load, true) && failed == Went(leagues[..n], load, false)
  {
    ran, failed, stoppedAt := [], [], None;
    for i := 0 to |leagues|
      invariant stoppedAt.None?
      invariant ran == Went(leagues[..i], load, true) && failed == Went(leagues[..i], load, false)
      invariant forall l :: l in ran ==> load(l).Loaded?
      invariant forall l :: l in failed ==> load(l).LoadFailed?
      invariant abort ==> forall k :: 0 <= k < i ==> !Aborts(load(leagues[k]))
    {
      FilterStep((l: League) => load(l).Loaded? == true, leagues, i);
      FilterStep((l: League) => load(l).Loaded? == false, leagues, i);
      match load(leagues[i]) {
        case LoadFailed(aborts) =>
          if abort && aborts { return ran, failed, Some(i); }
          failed := failed + [leagues[i]];
        case Loaded =>
          ran := ran + [leagues[i]];
      }
    }
    assert leagues[..|leagues|] == leagues;
  }
}
