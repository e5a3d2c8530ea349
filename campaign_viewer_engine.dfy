/** The campaign viewer (`_site/assets/js/campaignViewerEngine.js`): the views it derives
    from the campaign data fetched from the campaign server (members, their gangs, owned
    and available territories, statistics, name and id mappings), the cooldown before
    the next fetch, and the check of API territory names against the local territory
    list. Fetching and the browser's storage are not modelled: the data is handed to
    `SetCampaignData`, and the clock and the stored cache time are parameters. */
module CampaignViewerEngine {
  import opened Common
  import opened JsText

  /** `cacheDuration`: fifteen minutes, in milliseconds. */
  const CacheDuration: int := 15 * 60 * 1000

  /** A territory record from the API; its other fields travel along unchanged and are
      not modelled. */
  datatype ApiTerritory = ApiTerritory(name: string)

  /** A gang record from the API. `territories` is `None` when absent or not an array. */
  datatype ApiGang = ApiGang(name: string, gangType: string, colour: string, rating: int, wealth: int,
                             territories: Option<seq<ApiTerritory>>)

  /** `{ ...gang, owner: member.user_info.username }` */
  datatype TaggedGang = TaggedGang(gang: ApiGang, owner: string)

  /** A campaign member; `gangs` is `None` when absent or not an array. */
  datatype Member = Member(username: string, gangs: Option<seq<ApiGang>>)

  /** The fetched campaign data; a missing list is `None`. */
  datatype CampaignData = CampaignData(members: Option<seq<Member>>, availableTerritories: Option<seq<ApiTerritory>>)

  /** `{ ...territory, gang_name, gang_type, gang_colour }`: the tags win over any field of
      the same name. */
  datatype OwnedTerritory = OwnedTerritory(territory: ApiTerritory, gangName: string, gangType: string, gangColour: string)

  /** The counts and sums of `getCampaignStats`. */
  datatype CampaignStats = CampaignStats(totalGangs: nat, totalMembers: nat, totalOwnedTerritories: nat,
                                         totalAvailableTerritories: nat, totalWealth: int)

  /** A gang type entry of the local gangs data. */
  datatype GangInfo = GangInfo(name: string)

  /** A local territory: its id (falsy when "") and its display name. */
  datatype LocalTerritory = LocalTerritory(id: string, name: string)

  /** `{ apiName, territoryId }` */
  datatype ValidMapping = ValidMapping(apiName: string, territoryId: string)

  /** The result of `validateTerritoryMappings`. */
  datatype MappingReport = MappingReport(valid: seq<ValidMapping>, invalid: seq<string>, allValid: bool, totalChecked: nat)

  // ---------------------------------------------------------------------------------
  // Flattening and objects built key by key

  /** The combined length of a list of lists. */
  function TotalLength<T>(parts: seq<seq<T>>): nat {
    if parts == [] then 0 else TotalLength(parts[..|parts| - 1]) + |parts[|parts| - 1]|
  }

  /** The lists one after the other, as nested `forEach` loops pushing into one array
      produce them. */
  function Flatten<T>(parts: seq<seq<T>>): (r: seq<T>)
    ensures |r| == TotalLength(parts)
  {
    if parts == [] then [] else Flatten(parts[..|parts| - 1]) + parts[|parts| - 1]
  }

  lemma FlattenSnoc<T>(parts: seq<seq<T>>, i: nat)
    requires i < |parts|
    ensures Flatten(parts[..i + 1]) == Flatten(parts[..i]) + parts[i]
  {
    assert parts[..i + 1][..i] == parts[..i];
  }

  /** Element `k` of list `j` sits at offset `TotalLength(parts[..j]) + k`. */
  lemma {:induction false} FlattenIndex<T>(parts: seq<seq<T>>, j: nat, k: nat)
    requires j < |parts| && k < |parts[j]|
    ensures TotalLength(parts[..j]) + k < |Flatten(parts)|
    ensures Flatten(parts)[TotalLength(parts[..j]) + k] == parts[j][k]
  {
    var init := parts[..|parts| - 1];
    if j == |parts| - 1 {
      assert parts[..j] == init;
    } else {
      assert init[..j] == parts[..j];
      FlattenIndex(init, j, k);
    }
  }

  /** Every element of the flattened list is element `k` of some list `j`. */
  lemma {:induction false} FlattenSource<T>(parts: seq<seq<T>>, i: nat)
    requires i < |Flatten(parts)|
    ensures exists j, k :: 0 <= j < |parts| && 0 <= k < |parts[j]| && TotalLength(parts[..j]) + k == i &&
                           Flatten(parts)[i] == parts[j][k]
  {
    var init := parts[..|parts| - 1];
    var j := |parts| - 1;
    if i < |Flatten(init)| {
      FlattenSource(init, i);
      var j', k' :| 0 <= j' < |init| && 0 <= k' < |init[j']| && TotalLength(init[..j']) + k' == i &&
                    Flatten(init)[i] == init[j'][k'];
      assert init[..j'] == parts[..j'];
      assert parts[j'][k'] == init[j'][k'];
    } else {
      assert parts[..j] == init;
      var k := i - TotalLength(init);
      assert Flatten(parts)[i] == parts[j][k];
    }
  }

  /** The key of entry `i` does not come up again after it. */
  ghost predicate LastWith<T>(pairs: seq<(string, T)>, key: string, i: int) {
    0 <= i < |pairs| && pairs[i].0 == key && forall j :: i < j < |pairs| ==> pairs[j].0 != key
  }

  /** `obj[k] = v` for each pair in order, starting from `{}`. */
  function BuildMap<T>(pairs: seq<(string, T)>): map<string, T> {
    if pairs == [] then map[]
    else BuildMap(pairs[..|pairs| - 1])[pairs[|pairs| - 1].0 := pairs[|pairs| - 1].1]
  }

  /** Extending the pairs by one more assigns one more key. */
  lemma BuildMapSnoc<T>(pairs: seq<(string, T)>, i: nat)
    requires i < |pairs|
    ensures BuildMap(pairs[..i + 1]) == BuildMap(pairs[..i])[pairs[i].0 := pairs[i].1]
  {
    assert pairs[..i + 1][..i] == pairs[..i];
  }

  lemma BuildMapPush<T>(pairs: seq<(string, T)>, key: string, value: T)
    ensures BuildMap(pairs + [(key, value)]) == BuildMap(pairs)[key := value]
  {
    assert (pairs + [(key, value)])[..|pairs|] == pairs;
  }

  /** The built object has exactly the keys of the pairs, and the last pair with a key
      gives its value. */
  lemma {:induction false} BuildMapLastWins<T>(pairs: seq<(string, T)>, key: string)
    ensures key in BuildMap(pairs) <==> exists i :: 0 <= i < |pairs| && pairs[i].0 == key
    ensures key in BuildMap(pairs) ==> exists i :: LastWith(pairs, key, i)
    ensures forall i :: LastWith(pairs, key, i) ==> key in BuildMap(pairs) && BuildMap(pairs)[key] == pairs[i].1
  {
    if pairs != [] {
      var n := |pairs| - 1;
      var init := pairs[..n];
      BuildMapLastWins(init, key);
      assert forall i :: 0 <= i < n ==> init[i] == pairs[i];
      if pairs[n].0 == key {
        assert LastWith(pairs, key, n);
      } else {
        if key in BuildMap(pairs) {
          var i :| LastWith(init, key, i);
          assert LastWith(pairs, key, i);
        }
        forall i | LastWith(pairs, key, i)
          ensures key in BuildMap(pairs) && BuildMap(pairs)[key] == pairs[i].1
        {
          assert LastWith(init, key, i);
        }
      }
    }
  }

  // ---------------------------------------------------------------------------------
  // The derived views

  /** `getAllMembers()`: none without data, and `members || []` otherwise. */
  function AllMembers(data: Option<CampaignData>): (r: seq<Member>)
    ensures data.None? ==> r == []
  {
    if data.None? then [] else data.value.members.GetOr([])
  }

  /** A member's gangs, each tagged with the member's username. */
  function GangsOf(member: Member): (r: seq<TaggedGang>)
    ensures member.gangs.None? ==> r == []
    ensures member.gangs.Some? ==> |r| == |member.gangs.value|
  {
    if member.gangs.None? then []
    else seq(|member.gangs.value|, k requires 0 <= k < |member.gangs.value| => TaggedGang(member.gangs.value[k], member.username))
  }

  function MemberParts(members: seq<Member>): seq<seq<TaggedGang>> {
    seq(|members|, j requires 0 <= j < |members| => GangsOf(members[j]))
  }

  /** The result of `getAllGangs()`. */
  function AllGangs(data: Option<CampaignData>): seq<TaggedGang> {
    Flatten(MemberParts(AllMembers(data)))
  }

  /** `getAllGangs` lists each member's gangs in member order, each tagged with its
      owner: gang `k` of member `j` comes right after the gangs of the members before
      `j`, and every listed gang is one of these. */
  lemma AllGangsInMemberOrder(data: Option<CampaignData>, j: nat, k: nat)
    requires j < |AllMembers(data)|
    requires AllMembers(data)[j].gangs.Some? && k < |AllMembers(data)[j].gangs.value|
    ensures var members := AllMembers(data);
      var at := TotalLength(MemberParts(members)[..j]) + k;
      at < |AllGangs(data)| && AllGangs(data)[at] == TaggedGang(members[j].gangs.value[k], members[j].username)
  {
    FlattenIndex(MemberParts(AllMembers(data)), j, k);
  }

  /** Every gang `getAllGangs` lists belongs to a member and carries that member's name. */
  lemma AllGangsOwned(data: Option<CampaignData>, i: nat)
    requires i < |AllGangs(data)|
    ensures exists j, k :: (0 <= j < |AllMembers(data)| && AllMembers(data)[j].gangs.Some? &&
                            0 <= k < |AllMembers(data)[j].gangs.value| &&
                            AllGangs(data)[i] == TaggedGang(AllMembers(data)[j].gangs.value[k], AllMembers(data)[j].username))
  {
    var parts := MemberParts(AllMembers(data));
    FlattenSource(parts, i);
    var j, k :| 0 <= j < |parts| && 0 <= k < |parts[j]| && TotalLength(parts[..j]) + k == i &&
                Flatten(parts)[i] == parts[j][k];
    assert AllMembers(data)[j].gangs.Some?;
  }

  /** A gang's territories tagged with its name, type and colour. */
  function TerritoriesOf(g: TaggedGang): (r: seq<OwnedTerritory>)
    ensures g.gang.territories.None? ==> r == []
    ensures g.gang.territories.Some? ==> |r| == |g.gang.territories.value|
  {
    if g.gang.territories.None? then []
    else
      var ts := g.gang.territories.value;
      seq(|ts|, k requires 0 <= k < |ts| => OwnedTerritory(ts[k], g.gang.name, g.gang.gangType, g.gang.colour))
  }

  function GangParts(gangs: seq<TaggedGang>): seq<seq<OwnedTerritory>> {
    seq(|gangs|, i requires 0 <= i < |gangs| => TerritoriesOf(gangs[i]))
  }

  /** `owned` of `getAllTerritories()`. */
  function OwnedTerritories(data: Option<CampaignData>): seq<OwnedTerritory> {
    if data.None? then [] else Flatten(GangParts(AllGangs(data)))
  }

  /** `available` of `getAllTerritories()`: `available_territories || []`. */
  function AvailableTerritories(data: Option<CampaignData>): (r: seq<ApiTerritory>)
    ensures data.None? ==> r == []
  {
    if data.None? then [] else data.value.availableTerritories.GetOr([])
  }

  /** Each owned territory is listed after the territories of the gangs before its gang,
      tagged with its gang's name, type and colour. */
  lemma OwnedTerritoriesTagged(data: Option<CampaignData>, i: nat, k: nat)
    requires data.Some? && i < |AllGangs(data)|
    requires AllGangs(data)[i].gang.territories.Some? && k < |AllGangs(data)[i].gang.territories.value|
    ensures var g := AllGangs(data)[i].gang;
      var at := TotalLength(GangParts(AllGangs(data))[..i]) + k;
      at < |OwnedTerritories(data)| &&
      OwnedTerritories(data)[at] == OwnedTerritory(g.territories.value[k], g.name, g.gangType, g.colour)
  {
    FlattenIndex(GangParts(AllGangs(data)), i, k);
  }

  /** `wealth` summed over the gangs, as `reduce` adds them from 0. */
  function SumWealth(gangs: seq<TaggedGang>): int {
    if gangs == [] then 0 else SumWealth(gangs[..|gangs| - 1]) + gangs[|gangs| - 1].gang.wealth
  }

  lemma {:induction false} SumWealthAppend(a: seq<TaggedGang>, b: seq<TaggedGang>)
    ensures SumWealth(a + b) == SumWealth(a) + SumWealth(b)
    decreases |b|
  {
    if b != [] {
      var b' := b[..|b| - 1];
      assert (a + b)[..|a + b| - 1] == a + b';
      assert (a + b)[|a + b| - 1] == b[|b| - 1];
      SumWealthAppend(a, b');
    } else {
      assert a + b == a;
    }
  }

  /** The wealth of a list of lists of gangs, list by list. */
  function SumWealthOfParts(parts: seq<seq<TaggedGang>>): int {
    if parts == [] then 0 else SumWealthOfParts(parts[..|parts| - 1]) + SumWealth(parts[|parts| - 1])
  }

  /** Summing the flattened gangs is summing member by member. */
  lemma {:induction false} WealthByMember(parts: seq<seq<TaggedGang>>)
    ensures SumWealth(Flatten(parts)) == SumWealthOfParts(parts)
  {
    if parts != [] {
      var init := parts[..|parts| - 1];
      WealthByMember(init);
      SumWealthAppend(Flatten(init), parts[|parts| - 1]);
    }
  }

  /** A stable insertion by rating into a list sorted highest first: after every gang
      rated at least as high. */
  function InsertByRating(g: TaggedGang, sorted: seq<TaggedGang>): (r: seq<TaggedGang>)
    ensures |r| == |sorted| + 1
  {
    if sorted == [] then [g]
    else if sorted[0].gang.rating >= g.gang.rating then [sorted[0]] + InsertByRating(g, sorted[1..])
    else [g] + sorted
  }

  /** Inserting adds exactly the one gang. */
  lemma {:induction false} InsertByRatingPermutes(g: TaggedGang, sorted: seq<TaggedGang>)
    ensures multiset(InsertByRating(g, sorted)) == multiset(sorted) + multiset{g}
  {
    if sorted != [] && sorted[0].gang.rating >= g.gang.rating {
      assert sorted == [sorted[0]] + sorted[1..];
      InsertByRatingPermutes(g, sorted[1..]);
      assert InsertByRating(g, sorted) == [sorted[0]] + InsertByRating(g, sorted[1..]);
    }
  }

  /** `gangs.sort((a, b) => b.rating - a.rating)`: the engine's `sort` is stable, so this
      is the stable sort by rating, highest first. */
  function SortByRating(gangs: seq<TaggedGang>): seq<TaggedGang> {
    if gangs == [] then [] else InsertByRating(gangs[|gangs| - 1], SortByRating(gangs[..|gangs| - 1]))
  }

  predicate SortedByRating(gangs: seq<TaggedGang>) {
    forall i, j :: 0 <= i < j < |gangs| ==> gangs[i].gang.rating >= gangs[j].gang.rating
  }

  /** The gangs with one rating, in list order. */
  function WithRating(gangs: seq<TaggedGang>, rating: int): (r: seq<TaggedGang>) {
    if gangs == [] then []
    else (if gangs[0].gang.rating == rating then [gangs[0]] else []) + WithRating(gangs[1..], rating)
  }

  lemma {:induction false} WithRatingAppend(a: seq<TaggedGang>, b: seq<TaggedGang>, rating: int)
    ensures WithRating(a + b, rating) == WithRating(a, rating) + WithRating(b, rating)
  {
    if a == [] {
      assert a + b == b;
    } else {
      var head := if a[0].gang.rating == rating then [a[0]] else [];
      assert (a + b)[1..] == a[1..] + b;
      assert (a + b)[0] == a[0];
      assert WithRating(a + b, rating) == head + WithRating(a[1..] + b, rating);
      WithRatingAppend(a[1..], b, rating);
      assert WithRating(a, rating) == head + WithRating(a[1..], rating);
    }
  }

  /** Nothing in a list sorted highest first is rated above its head. */
  lemma {:induction false} WithRatingAboveHead(sorted: seq<TaggedGang>, rating: int)
    requires SortedByRating(sorted) && sorted != [] && rating > sorted[0].gang.rating
    ensures WithRating(sorted, rating) == []
  {
    if |sorted| > 1 {
      SortedTail(sorted);
      assert sorted[1..][0] == sorted[1];
      WithRatingAboveHead(sorted[1..], rating);
    }
  }

  lemma SortedTail(sorted: seq<TaggedGang>)
    requires SortedByRating(sorted) && sorted != []
    ensures SortedByRating(sorted[1..])
  {
    forall i, j | 0 <= i < j < |sorted| - 1
      ensures sorted[1..][i].gang.rating >= sorted[1..][j].gang.rating
    {
      assert sorted[1..][i] == sorted[i + 1] && sorted[1..][j] == sorted[j + 1];
    }
  }

  /** A head rated at least as high as everything in a sorted list keeps it sorted. */
  lemma ConsSorted(h: TaggedGang, rest: seq<TaggedGang>)
    requires SortedByRating(rest)
    requires rest != [] ==> rest[0].gang.rating <= h.gang.rating
    ensures SortedByRating([h] + rest)
  {
    var r := [h] + rest;
    forall i, j | 0 <= i < j < |r|
      ensures r[i].gang.rating >= r[j].gang.rating
    {
      assert r[j] == rest[j - 1];
      if i == 0 {
        assert rest[0].gang.rating >= rest[j - 1].gang.rating;
      } else {
        assert r[i] == rest[i - 1];
      }
    }
  }

  lemma {:induction false} InsertByRatingSorted(g: TaggedGang, sorted: seq<TaggedGang>)
    requires SortedByRating(sorted)
    ensures SortedByRating(InsertByRating(g, sorted))
    ensures InsertByRating(g, sorted)[0] ==
      (if sorted != [] && sorted[0].gang.rating >= g.gang.rating then sorted[0] else g)
  {
    if sorted != [] && sorted[0].gang.rating >= g.gang.rating {
      var rest := sorted[1..];
      SortedTail(sorted);
      InsertByRatingSorted(g, rest);
      var r' := InsertByRating(g, rest);
      assert InsertByRating(g, sorted) == [sorted[0]] + r';
      assert r'[0].gang.rating <= sorted[0].gang.rating by {
        if rest != [] {
          assert rest[0] == sorted[1];
        }
      }
      ConsSorted(sorted[0], r');
    } else {
      assert InsertByRating(g, sorted) == [g] + sorted;
      ConsSorted(g, sorted);
    }
  }

  lemma {:induction false} InsertByRatingStable(g: TaggedGang, sorted: seq<TaggedGang>, rating: int)
    requires SortedByRating(sorted)
    ensures WithRating(InsertByRating(g, sorted), rating) ==
      WithRating(sorted, rating) + (if g.gang.rating == rating then [g] else [])
  {
    var r := InsertByRating(g, sorted);
    if sorted == [] {
      assert r == [g];
      assert r[1..] == [];
    } else if sorted[0].gang.rating >= g.gang.rating {
      var rest := sorted[1..];
      var head := if sorted[0].gang.rating == rating then [sorted[0]] else [];
      SortedTail(sorted);
      InsertByRatingStable(g, rest, rating);
      var r' := InsertByRating(g, rest);
      assert r == [sorted[0]] + r';
      assert r[0] == sorted[0] && r[1..] == r';
      assert WithRating(r, rating) == head + WithRating(r', rating);
      assert WithRating(sorted, rating) == head + WithRating(rest, rating);
    } else {
      assert r == [g] + sorted;
      assert r[0] == g && r[1..] == sorted;
      if g.gang.rating == rating {
        WithRatingAboveHead(sorted, rating);
      }
    }
  }

  /** `getGangsByRating` orders the gangs highest rating first, keeps them all, and keeps
      gangs of equal rating in the order `getAllGangs` lists them. */
  lemma {:induction false} SortByRatingCorrect(gangs: seq<TaggedGang>)
    ensures SortedByRating(SortByRating(gangs))
    ensures multiset(SortByRating(gangs)) == multiset(gangs)
    ensures forall rating :: WithRating(SortByRating(gangs), rating) == WithRating(gangs, rating)
  {
    if gangs != [] {
      var init := gangs[..|gangs| - 1];
      var last := gangs[|gangs| - 1];
      var sortedInit := SortByRating(init);
      assert gangs == init + [last];
      assert SortByRating(gangs) == InsertByRating(last, sortedInit);
      SortByRatingCorrect(init);
      InsertByRatingSorted(last, sortedInit);
      InsertByRatingPermutes(last, sortedInit);
      forall rating
        ensures WithRating(SortByRating(gangs), rating) == WithRating(gangs, rating)
      {
        InsertByRatingStable(last, sortedInit, rating);
        WithRatingAppend(init, [last], rating);
        assert WithRating([last], rating) == (if last.gang.rating == rating then [last] else []);
      }
    }
  }

  /** The counts and sums of `getCampaignStats()`. */
  function Stats(data: Option<CampaignData>): CampaignStats {
    CampaignStats(|AllGangs(data)|, |AllMembers(data)|, |OwnedTerritories(data)|,
                  |AvailableTerritories(data)|, SumWealth(AllGangs(data)))
  }

  /** The statistics count what the views list: the gangs are the members' gangs
      together, the owned territories the gangs' territories together, and the wealth is
      the members' wealth added up member by member. */
  lemma StatsAddUp(data: Option<CampaignData>)
    ensures Stats(data).totalGangs == TotalLength(MemberParts(AllMembers(data)))
    ensures data.Some? ==> Stats(data).totalOwnedTerritories == TotalLength(GangParts(AllGangs(data)))
    ensures Stats(data).totalWealth == SumWealthOfParts(MemberParts(AllMembers(data)))
    ensures data.None? ==> Stats(data) == CampaignStats(0, 0, 0, 0, 0)
  {
    WealthByMember(MemberParts(AllMembers(data)));
  }

  /** The name-to-id object of `getPlayerGangToIdMapping`, built from the gangs data. */
  function TypePairs(gangsData: seq<(string, GangInfo)>): seq<(string, string)> {
    seq(|gangsData|, i requires 0 <= i < |gangsData| => (gangsData[i].1.name, gangsData[i].0))
  }

  /** The `mapping[gang.name] = gangId` assignments, for the gangs whose type has a truthy
      id. */
  function MappingPairs(gangs: seq<TaggedGang>, typeToId: map<string, string>): seq<(string, string)> {
    if gangs == [] then []
    else
      var g := gangs[|gangs| - 1];
      MappingPairs(gangs[..|gangs| - 1], typeToId) +
      (if g.gang.gangType in typeToId && typeToId[g.gang.gangType] != "" then [(g.gang.name, typeToId[g.gang.gangType])] else [])
  }

  lemma MappingPairsStep(gangs: seq<TaggedGang>, i: nat, typeToId: map<string, string>)
    requires i < |gangs|
    ensures var g := gangs[i];
      g.gang.gangType in typeToId && typeToId[g.gang.gangType] != "" ==>
        MappingPairs(gangs[..i + 1], typeToId) == MappingPairs(gangs[..i], typeToId) + [(g.gang.name, typeToId[g.gang.gangType])]
    ensures var g := gangs[i];
      !(g.gang.gangType in typeToId && typeToId[g.gang.gangType] != "") ==>
        MappingPairs(gangs[..i + 1], typeToId) == MappingPairs(gangs[..i], typeToId)
  {
    assert gangs[..i + 1][..i] == gangs[..i];
    assert gangs[..i + 1][i] == gangs[i];
  }

  /** The result of `getPlayerGangToIdMapping(gangsData)`: `{}` without campaign data or
      gangs data. */
  function PlayerGangToId(data: Option<CampaignData>, gangsData: Option<seq<(string, GangInfo)>>): map<string, string> {
    if data.None? || gangsData.None? then map[]
    else BuildMap(MappingPairs(AllGangs(data), BuildMap(TypePairs(gangsData.value))))
  }

  /** A mapped player gang got the id of its type: the id of the last gangs-data entry
      carrying that type's name. */
  lemma {:induction false} MappingPairsFromTypes(gangs: seq<TaggedGang>, typeToId: map<string, string>, i: nat)
    requires i < |MappingPairs(gangs, typeToId)|
    ensures exists j :: (0 <= j < |gangs| && MappingPairs(gangs, typeToId)[i].0 == gangs[j].gang.name &&
                         gangs[j].gang.gangType in typeToId &&
                         MappingPairs(gangs, typeToId)[i].1 == typeToId[gangs[j].gang.gangType] &&
                         typeToId[gangs[j].gang.gangType] != "")
  {
    var init := gangs[..|gangs| - 1];
    if i < |MappingPairs(init, typeToId)| {
      MappingPairsFromTypes(init, typeToId, i);
      var j :| 0 <= j < |init| && MappingPairs(init, typeToId)[i].0 == init[j].gang.name &&
        init[j].gang.gangType in typeToId && MappingPairs(init, typeToId)[i].1 == typeToId[init[j].gang.gangType] &&
        typeToId[init[j].gang.gangType] != "";
      assert init[j] == gangs[j];
    } else {
      assert gangs[|gangs| - 1] == gangs[|gangs| - 1];
    }
  }

  /** Every value of the mapping is the truthy id of the type of a gang of that name. */
  lemma PlayerGangToIdSound(data: Option<CampaignData>, gangsData: Option<seq<(string, GangInfo)>>, name: string)
    requires name in PlayerGangToId(data, gangsData)
    ensures data.Some? && gangsData.Some?
    ensures var gangs := AllGangs(data); var typeToId := BuildMap(TypePairs(gangsData.value));
      exists j :: 0 <= j < |gangs| && gangs[j].gang.name == name && gangs[j].gang.gangType in typeToId &&
        typeToId[gangs[j].gang.gangType] == PlayerGangToId(data, gangsData)[name] && PlayerGangToId(data, gangsData)[name] != ""
  {
    var gangs := AllGangs(data);
    var typeToId := BuildMap(TypePairs(gangsData.value));
    var pairs := MappingPairs(gangs, typeToId);
    BuildMapLastWins(pairs, name);
    var i :| LastWith(pairs, name, i);
    MappingPairsFromTypes(gangs, typeToId, i);
  }

  /** Player gang territories: each gang's territory names, `[]` without a list. */
  function TerritoryNames(g: TaggedGang): (r: seq<string>)
    ensures g.gang.territories.None? ==> r == []
    ensures g.gang.territories.Some? ==> (|r| == |g.gang.territories.value| &&
      forall k :: 0 <= k < |r| ==> r[k] == g.gang.territories.value[k].name)
  {
    if g.gang.territories.None? then []
    else seq(|g.gang.territories.value|, k requires 0 <= k < |g.gang.territories.value| => g.gang.territories.value[k].name)
  }

  function GangTerritoryPairs(gangs: seq<TaggedGang>): seq<(string, seq<string>)> {
    seq(|gangs|, i requires 0 <= i < |gangs| => (gangs[i].gang.name, TerritoryNames(gangs[i])))
  }

  /** The result of `getPlayerGangTerritories()`. */
  function PlayerGangTerritories(data: Option<CampaignData>): map<string, seq<string>> {
    if data.None? then map[] else BuildMap(GangTerritoryPairs(AllGangs(data)))
  }

  /** A gang name maps to the territory names of the last gang of that name. */
  lemma PlayerGangTerritoriesLastWins(data: Option<CampaignData>, i: nat)
    requires data.Some? && i < |AllGangs(data)|
    requires forall j :: i < j < |AllGangs(data)| ==> AllGangs(data)[j].gang.name != AllGangs(data)[i].gang.name
    ensures var g := AllGangs(data)[i];
      g.gang.name in PlayerGangTerritories(data) && PlayerGangTerritories(data)[g.gang.name] == TerritoryNames(g)
  {
    var pairs := GangTerritoryPairs(AllGangs(data));
    BuildMapLastWins(pairs, AllGangs(data)[i].gang.name);
    assert LastWith(pairs, AllGangs(data)[i].gang.name, i);
  }

  // ---------------------------------------------------------------------------------
  // Territory names

  predicate AllSpace(s: string) {
    forall i :: 0 <= i < |s| ==> IsSpace(s[i])
  }

  predicate NoCloseParen(s: string) {
    forall i :: 0 <= i < |s| ==> s[i] != ')'
  }

  /** `\s*\([^)]*\)\s*$` matches all of `t`: white space, `(`, anything but `)`, `)`, and
      white space up to the end. */
  ghost predicate SuffixPattern(t: string) {
    exists a, b :: 0 <= a < b < |t| && AllSpace(t[..a]) && t[a] == '(' && NoCloseParen(t[a + 1..b]) &&
                   t[b] == ')' && AllSpace(t[b + 1..])
  }

  predicate IsNotCloseParen(c: char) {
    c != ')'
  }

  /** The pattern tried at position `i`: the white space run, then `(`, then everything up
      to the first `)`, which must be followed by white space only. */
  predicate MatchesAt(s: string, i: nat)
    requires i <= |s|
  {
    var t := s[i..];
    var a := |PrefixWhile(t, IsSpace)|;
    a < |t| && t[a] == '(' &&
    var b := a + 1 + |PrefixWhile(t[a + 1..], IsNotCloseParen)|;
    b < |t| && AllSpace(t[b + 1..])
  }

  /** What the scan finds is a match of the regular expression. */
  lemma MatchesAtIsPattern(s: string, i: nat)
    requires i <= |s| && MatchesAt(s, i)
    ensures SuffixPattern(s[i..])
  {
    var t := s[i..];
    var ws := PrefixWhile(t, IsSpace);
    var a := |ws|;
    var body := PrefixWhile(t[a + 1..], IsNotCloseParen);
    var b := a + 1 + |body|;
    assert t[..a] == ws;
    assert t[a + 1..b] == body;
    assert t[b] == t[a + 1..][|body|];
    assert NoCloseParen(t[a + 1..b]);
  }

  /** The longest prefix satisfying `p` ends at the first character that does not. */
  lemma PrefixWhileStopsAt(t: string, p: char -> bool, n: nat)
    requires n < |t| && !p(t[n])
    requires forall k :: 0 <= k < n ==> p(t[k])
    ensures |PrefixWhile(t, p)| == n
  {
  }

  /** The pattern split at `(` (offset `a`) and `)` (offset `b`) of `t`. */
  ghost predicate PatternAt(t: string, a: nat, b: nat) {
    a < b < |t| && AllSpace(t[..a]) && t[a] == '(' && NoCloseParen(t[a + 1..b]) && t[b] == ')' && AllSpace(t[b + 1..])
  }

  /** A match of the regular expression, split at its parentheses, is found by the scan. */
  lemma PatternAtIsMatchesAt(s: string, i: nat, a: nat, b: nat)
    requires i <= |s| && PatternAt(s[i..], a, b)
    ensures MatchesAt(s, i)
  {
    var t := s[i..];
    forall k | 0 <= k < a
      ensures IsSpace(t[k])
    {
      assert t[..a][k] == t[k];
    }
    assert !IsSpace(t[a]);
    PrefixWhileStopsAt(t, IsSpace, a);
    var u := t[a + 1..];
    var len := b - a - 1;
    forall k | 0 <= k < len
      ensures IsNotCloseParen(u[k])
    {
      assert u[k] == t[a + 1..b][k];
    }
    assert u[len] == t[b] == ')';
    PrefixWhileStopsAt(u, IsNotCloseParen, len);
  }

  /** A match of the regular expression is found by the scan. */
  lemma PatternIsMatchesAt(s: string, i: nat)
    requires i <= |s| && SuffixPattern(s[i..])
    ensures MatchesAt(s, i)
  {
    var a, b :| 0 <= a < b < |s[i..]| && AllSpace(s[i..][..a]) && s[i..][a] == '(' && NoCloseParen(s[i..][a + 1..b]) &&
                s[i..][b] == ')' && AllSpace(s[i..][b + 1..]);
    assert PatternAt(s[i..], a, b);
    PatternAtIsMatchesAt(s, i, a, b);
  }

  /** The leftmost position, from `i` on, where the pattern matches. */
  function SuffixStart(s: string, i: nat): (r: Option<nat>)
    requires i <= |s|
    ensures r.Some? ==> (i <= r.value <= |s| && MatchesAt(s, r.value) &&
      forall j :: i <= j < r.value ==> !MatchesAt(s, j))
    ensures r.None? ==> forall j :: i <= j <= |s| ==> !MatchesAt(s, j)
    decreases |s| - i
  {
    if MatchesAt(s, i) then Some(i)
    else if i == |s| then None
    else SuffixStart(s, i + 1)
  }

  /** `normalizeTerritoryName(name)`: the first match of the suffix pattern removed, then
      the result trimmed. */
  function NormalizeTerritoryName(name: string): string {
    var kept := match SuffixStart(name, 0) case None => name case Some(i) => name[..i];
    Trim(kept)
  }

  /** The normalised name is trimmed, and it is the name cut before the leftmost match of
      the suffix pattern, or the whole name when nothing matches. */
  lemma NormalizeTerritoryNameSpec(name: string)
    ensures IsTrimmed(NormalizeTerritoryName(name))
    ensures SuffixStart(name, 0).None? ==> NormalizeTerritoryName(name) == Trim(name)
    ensures SuffixStart(name, 0).Some? ==>
      NormalizeTerritoryName(name) == Trim(name[..SuffixStart(name, 0).value])
  {
    var kept := match SuffixStart(name, 0) case None => name case Some(i) => name[..i];
    TrimIsTrimmed(kept);
  }

  /** A name without a `)` only loses its surrounding white space. */
  lemma NormalizeWithoutParen(name: string)
    requires NoCloseParen(name)
    ensures NormalizeTerritoryName(name) == Trim(name)
  {
    forall j | 0 <= j <= |name|
      ensures !MatchesAt(name, j)
    {
      NoParenNoMatch(name, j);
    }
    assert SuffixStart(name, 0).None?;
  }

  /** Without a `)` the pattern matches nowhere. */
  lemma NoParenNoMatch(s: string, i: nat)
    requires i <= |s| && NoCloseParen(s)
    ensures !MatchesAt(s, i)
  {
    var t := s[i..];
    var a := |PrefixWhile(t, IsSpace)|;
    if a < |t| && t[a] == '(' {
      var u := t[a + 1..];
      var body := PrefixWhile(u, IsNotCloseParen);
      assert forall k :: 0 <= k < |u| ==> u[k] == s[i + a + 1 + k];
    }
  }

  /** The scan from 0 stops at the first position where the pattern matches. */
  lemma SuffixStartFirst(s: string, n: nat)
    requires n <= |s| && MatchesAt(s, n)
    requires forall j :: 0 <= j < n ==> !MatchesAt(s, j)
    ensures SuffixStart(s, 0) == Some(n)
  {
  }

  /** No match starts inside a name part without parentheses that ends in a
      non-space character. */
  lemma NoMatchBefore(s: string, n: nat, j: nat)
    requires j < n <= |s| && !IsSpace(s[n - 1])
    requires forall k :: 0 <= k < n ==> s[k] != '('
    ensures !MatchesAt(s, j)
  {
    var t := s[j..];
    var ws := PrefixWhile(t, IsSpace);
    if j + |ws| < n {
      assert t[|ws|] == s[j + |ws|];
    }
  }

  /** The suffix " (tag)" matches where it starts. */
  lemma GangSuffixMatches(base: string, tag: string)
    requires NoCloseParen(tag)
    ensures MatchesAt(base + " (" + tag + ")", |base|)
  {
    var s := base + " (" + tag + ")";
    var t := s[|base|..];
    assert t == " (" + tag + ")";
    assert t[..1] == " " && t[2..|t| - 1] == tag && t[|t| - 1 + 1..] == [];
    assert PatternAt(t, 1, |t| - 1);
    PatternAtIsMatchesAt(s, |base|, 1, |t| - 1);
  }

  /** A gang-specific suffix such as " (AWN)" or " (*)" after a plain territory name is
      removed, giving back the plain name. */
  lemma NormalizeStripsGangSuffix(base: string, tag: string)
    requires base != [] && IsTrimmed(base)
    requires forall i :: 0 <= i < |base| ==> base[i] != '(' && base[i] != ')'
    requires NoCloseParen(tag)
    ensures NormalizeTerritoryName(base + " (" + tag + ")") == base
  {
    var s := base + " (" + tag + ")";
    var n := |base|;
    GangSuffixMatches(base, tag);
    forall j | 0 <= j < n
      ensures !MatchesAt(s, j)
    {
      assert s[n - 1] == base[n - 1];
      NoMatchBefore(s, n, j);
    }
    SuffixStartFirst(s, n);
    assert s[..n] == base;
    TrimmedUnchanged(base);
  }

  // ---------------------------------------------------------------------------------
  // Territory mapping validation

  /** `nameToIdMap`: each local territory's normalised name to its id, later entries
      winning. */
  function NameToId(local: seq<LocalTerritory>): map<string, string> {
    BuildMap(LocalPairs(local))
  }

  /** Each local territory as the assignment `nameToIdMap[normalised name] = id`. */
  function LocalPairs(local: seq<LocalTerritory>): (r: seq<(string, string)>)
    ensures |r| == |local|
  {
    seq(|local|, i requires 0 <= i < |local| => (NormalizeTerritoryName(local[i].name), local[i].id))
  }

  /** The API names checked: owned territories first, then available ones. */
  function CheckedNames(data: Option<CampaignData>): (r: seq<string>)
    ensures |r| == |OwnedTerritories(data)| + |AvailableTerritories(data)|
  {
    NamesOf(OwnedTerritories(data), AvailableTerritories(data))
  }

  /** `[...owned, ...available]`, by name. */
  function NamesOf(owned: seq<OwnedTerritory>, available: seq<ApiTerritory>): (r: seq<string>)
    ensures |r| == |owned| + |available|
  {
    seq(|owned|, i requires 0 <= i < |owned| => owned[i].territory.name) +
    seq(|available|, i requires 0 <= i < |available| => available[i].name)
  }

  /** Whether `nameToIdMap[apiName]` is truthy. */
  predicate Maps(ids: map<string, string>, apiName: string) {
    apiName in ids && ids[apiName] != ""
  }

  /** The names with a truthy id, in order, with their ids. */
  function ValidOf(names: seq<string>, ids: map<string, string>): seq<ValidMapping> {
    if names == [] then []
    else
      var name := names[|names| - 1];
      ValidOf(names[..|names| - 1], ids) + (if Maps(ids, name) then [ValidMapping(name, ids[name])] else [])
  }

  /** The names without one, in order. */
  function InvalidOf(names: seq<string>, ids: map<string, string>): seq<string> {
    if names == [] then []
    else
      var name := names[|names| - 1];
      InvalidOf(names[..|names| - 1], ids) + (if Maps(ids, name) then [] else [name])
  }

  /** Every checked name lands in exactly one of the two lists: the sizes add up, a name
      is in `valid` (with its id) when it maps and in `invalid` when it does not. */
  lemma {:induction false} ValidInvalidPartition(names: seq<string>, ids: map<string, string>)
    ensures |ValidOf(names, ids)| + |InvalidOf(names, ids)| == |names|
    ensures forall i :: 0 <= i < |names| && Maps(ids, names[i]) ==> ValidMapping(names[i], ids[names[i]]) in ValidOf(names, ids)
    ensures forall i :: 0 <= i < |names| && !Maps(ids, names[i]) ==> names[i] in InvalidOf(names, ids)
    ensures forall m :: m in ValidOf(names, ids) ==> m.apiName in names && Maps(ids, m.apiName) && m.territoryId == ids[m.apiName]
    ensures forall n :: n in InvalidOf(names, ids) ==> n in names && !Maps(ids, n)
  {
    if names != [] {
      var init := names[..|names| - 1];
      ValidInvalidPartition(init, ids);
      assert forall i :: 0 <= i < |init| ==> init[i] == names[i];
      assert names == init + [names[|names| - 1]];
    }
  }

  /** The result of `validateTerritoryMappings(localTerritories)`. */
  function MappingsReport(data: Option<CampaignData>, local: seq<LocalTerritory>): MappingReport {
    if data.None? then MappingReport([], [], true, 0)
    else
      var names := CheckedNames(data);
      var ids := NameToId(local);
      MappingReport(ValidOf(names, ids), InvalidOf(names, ids), |InvalidOf(names, ids)| == 0, |names|)
  }

  /** An API name is valid exactly when some local territory normalises to it and the last
      such local territory has a truthy id. */
  lemma ValidIffLastLocalHasId(local: seq<LocalTerritory>, apiName: string)
    ensures Maps(NameToId(local), apiName) <==> exists i :: LastWith(LocalPairs(local), apiName, i) && local[i].id != ""
  {
    BuildMapLastWins(LocalPairs(local), apiName);
  }

  /** The report's totals: `totalChecked` is every owned and available territory, split
      between `valid` and `invalid`, and `allValid` holds exactly when `invalid` is
      empty; without data nothing is checked. */
  lemma MappingsReportTotals(data: Option<CampaignData>, local: seq<LocalTerritory>)
    ensures var r := MappingsReport(data, local);
      r.totalChecked == |OwnedTerritories(data)| + |AvailableTerritories(data)| &&
      |r.valid| + |r.invalid| == r.totalChecked && (r.allValid <==> r.invalid == [])
    ensures data.None? ==> MappingsReport(data, local) == MappingReport([], [], true, 0)
  {
    ValidInvalidPartition(CheckedNames(data), NameToId(local));
  }

  // ---------------------------------------------------------------------------------
  // Fetch cooldown

  /** The cache time as `parseInt` reads it, `None` when nothing is stored (`!cacheTime`)
      or it is not a number. */
  function CacheStamp(cacheTime: Option<string>): (r: Option<int>)
    ensures cacheTime.None? || cacheTime.value == "" ==> r.None?
  {
    if cacheTime.None? || cacheTime.value == "" then None else ParseInt(cacheTime.value)
  }

  /** `getTimeUntilNextFetch()` at time `now` with the stored cache time: the rest of the
      fifteen minutes since the cache was written, and 0 once they are over, when
      nothing is stored, or when the stored time is not a number. */
  function TimeUntilNextFetch(now: int, cacheTime: Option<string>): (r: int)
    ensures r >= 0
    ensures CacheStamp(cacheTime).None? ==> r == 0
    ensures r > 0 <==> CacheStamp(cacheTime).Some? && now - CacheStamp(cacheTime).value < CacheDuration
    ensures r > 0 ==> r == CacheDuration - (now - CacheStamp(cacheTime).value)
  {
    if cacheTime.None? || cacheTime.value == "" then 0
    else
      match ParseInt(cacheTime.value)
      case None => 0
      case Some(stamp) =>
        var remaining := CacheDuration - (now - stamp);
        if remaining > 0 then remaining else 0
  }

  /** With the time `saveToCache` stores (`Date.now().toString()` at time `saved`), the
      wait is what is left of the fifteen minutes, never more than fifteen minutes once
      the clock has passed `saved`, and it only shrinks as time goes on. */
  lemma TimeUntilNextFetchAfterSave(saved: nat, now: int, later: int)
    requires saved <= now <= later
    ensures TimeUntilNextFetch(now, Some(NatToString(saved))) ==
      (if CacheDuration - (now - saved) > 0 then CacheDuration - (now - saved) else 0)
    ensures TimeUntilNextFetch(now, Some(NatToString(saved))) <= CacheDuration
    ensures TimeUntilNextFetch(later, Some(NatToString(saved))) <= TimeUntilNextFetch(now, Some(NatToString(saved)))
  {
    ParseIntOfNatToString(saved);
    NatToStringValue(saved);
  }

  /** `isCacheValid()` at time `now`. */
  predicate CacheValid(now: int, cacheTime: Option<string>) {
    CacheStamp(cacheTime).Some? && now - CacheStamp(cacheTime).value < CacheDuration
  }

  /** The cooldown refusal of `fetchCampaignData(forceRefresh)` as written: a forced
      refresh is refused while time remains, but only when the cache is NOT valid. */
  predicate CooldownRefusalAsWritten(forceRefresh: bool, now: int, cacheTime: Option<string>) {
    forceRefresh && !CacheValid(now, cacheTime) && TimeUntilNextFetch(now, cacheTime) > 0
  }

  /** As written the refusal can never happen: an invalid cache leaves no time to wait, so
      a forced refresh one minute after a fetch goes to the server. */
  lemma CooldownRefusalNeverAsWritten(forceRefresh: bool, now: int, cacheTime: Option<string>)
    ensures !CooldownRefusalAsWritten(forceRefresh, now, cacheTime)
    ensures CacheValid(60000, Some("0")) && TimeUntilNextFetch(60000, Some("0")) == CacheDuration - 60000
  {
    ParseIntOfNatToString(0);
    assert NatToString(0) == "0";
  }

  /** The refusal as meant ("within cooldown"): a forced refresh while the cache is
      still valid and time remains. */
  predicate CooldownRefusal(forceRefresh: bool, now: int, cacheTime: Option<string>) {
    forceRefresh && CacheValid(now, cacheTime) && TimeUntilNextFetch(now, cacheTime) > 0
  }

  /** With the check as meant, a forced refresh is refused exactly while the cache is
      valid, for the time the cooldown still has to run. */
  lemma CooldownRefusalWhileValid(forceRefresh: bool, now: int, cacheTime: Option<string>)
    ensures CooldownRefusal(forceRefresh, now, cacheTime) <==> forceRefresh && CacheValid(now, cacheTime)
    ensures CooldownRefusal(forceRefresh, now, cacheTime) ==>
      TimeUntilNextFetch(now, cacheTime) == CacheDuration - (now - CacheStamp(cacheTime).value)
  {
  }

  /** The `localTerritories.forEach` loop that fills `nameToIdMap`. */
  method BuildNameToId(local: seq<LocalTerritory>) returns (nameToId: map<string, string>)
    ensures nameToId == NameToId(local)
  {
    ghost var pairs := LocalPairs(local);
    nameToId := map[];
    for i := 0 to |local|
      invariant nameToId == BuildMap(pairs[..i])
    {
      var normalizedName := NormalizeTerritoryName(local[i].name);
      LocalPairsStep(local, pairs, i, normalizedName);
      nameToId := nameToId[normalizedName := local[i].id];
    }
    WholePrefix(pairs);
  }

  lemma LocalPairsStep(local: seq<LocalTerritory>, pairs: seq<(string, string)>, i: nat, name: string)
    requires pairs == LocalPairs(local) && i < |local|
    requires name == NormalizeTerritoryName(local[i].name)
    ensures BuildMap(pairs[..i + 1]) == BuildMap(pairs[..i])[name := local[i].id]
  {
    assert pairs[i] == (name, local[i].id);
    BuildMapSnoc(pairs, i);
  }

  lemma WholePrefix<T>(s: seq<T>)
    ensures s[..|s|] == s
  {
  }

  /** The `allTerritories.forEach` loop that pushes each API name to `valid` or
      `invalid`. */
  method SplitByMapping(all: seq<string>, nameToId: map<string, string>) returns (valid: seq<ValidMapping>, invalid: seq<string>)
    ensures valid == ValidOf(all, nameToId) && invalid == InvalidOf(all, nameToId)
  {
    valid := [];
    invalid := [];
    for i := 0 to |all|
      invariant valid == ValidOf(all[..i], nameToId) && invalid == InvalidOf(all[..i], nameToId)
    {
      var apiName := all[i];
      assert all[..i + 1][..i] == all[..i] && all[..i + 1][i] == apiName;
      if apiName in nameToId && nameToId[apiName] != "" {
        valid := valid + [ValidMapping(apiName, nameToId[apiName])];
        assert InvalidOf(all[..i + 1], nameToId) == InvalidOf(all[..i], nameToId) + [];
      } else {
        invalid := invalid + [apiName];
        assert ValidOf(all[..i + 1], nameToId) == ValidOf(all[..i], nameToId) + [];
      }
    }
    assert all[..|all|] == all;
  }

  // ---------------------------------------------------------------------------------
  // The engine object

  class CampaignViewer {
    /** The last campaign data received, `None` before any. */
    var campaignData: Option<CampaignData>

    constructor()
      ensures campaignData.None?
    {
      campaignData := None;
    }

    /** `this.campaignData = data` after a fetch or a cache hit. */
    method SetCampaignData(data: CampaignData)
      modifies this
      ensures campaignData == Some(data)
    {
      campaignData := Some(data);
    }

    /** `getAllGangs()`: every member's gangs, in member order, tagged with the owner. */
    method GetAllGangs() returns (gangs: seq<TaggedGang>)
      ensures gangs == AllGangs(campaignData)
    {
      var members := AllMembers(campaignData);
      ghost var parts := MemberParts(members);
      gangs := [];
      for i := 0 to |members|
        invariant gangs == Flatten(parts[..i])
      {
        var member := members[i];
        if member.gangs.Some? {
          var memberGangs := member.gangs.value;
          for k := 0 to |memberGangs|
            invariant gangs == Flatten(parts[..i]) + parts[i][..k]
          {
            gangs := gangs + [TaggedGang(memberGangs[k], member.username)];
            assert parts[i][..k + 1] == parts[i][..k] + [parts[i][k]];
          }
          assert parts[i][..|memberGangs|] == parts[i];
        } else {
          assert parts[i] == [];
        }
        assert parts[..i + 1][..i] == parts[..i];
      }
      assert parts[..|members|] == parts;
    }

    /** `getGangsByRating()`: the gangs, highest rating first, ties in listing order. */
    method GetGangsByRating() returns (gangs: seq<TaggedGang>)
      ensures gangs == SortByRating(AllGangs(campaignData))
      ensures SortedByRating(gangs) && multiset(gangs) == multiset(AllGangs(campaignData))
    {
      var all := GetAllGangs();
      gangs := SortByRating(all);
      SortByRatingCorrect(all);
    }

    /** `getAllTerritories()`: the gangs' territories tagged with their gang, and the
        available territories passed through; both empty without data. */
    method GetAllTerritories() returns (owned: seq<OwnedTerritory>, available: seq<ApiTerritory>)
      ensures owned == OwnedTerritories(campaignData)
      ensures available == AvailableTerritories(campaignData)
    {
      if campaignData.None? {
        return [], [];
      }
      owned := [];
      available := campaignData.value.availableTerritories.GetOr([]);
      var gangs := GetAllGangs();
      ghost var parts := GangParts(gangs);
      for i := 0 to |gangs|
        invariant owned == Flatten(parts[..i])
      {
        var gang := gangs[i];
        assert parts[i] == TerritoriesOf(gang);
        FlattenSnoc(parts, i);
        if gang.gang.territories.Some? {
          var territories := gang.gang.territories.value;
          for k := 0 to |territories|
            invariant owned == Flatten(parts[..i]) + parts[i][..k]
          {
            assert parts[i][k] == OwnedTerritory(territories[k], gang.gang.name, gang.gang.gangType, gang.gang.colour);
            assert parts[i][..k + 1] == parts[i][..k] + [parts[i][k]];
            owned := owned + [OwnedTerritory(territories[k], gang.gang.name, gang.gang.gangType, gang.gang.colour)];
          }
          assert parts[i][..|territories|] == parts[i];
        }
      }
      assert parts[..|gangs|] == parts;
    }

    /** `getCampaignStats()`: the gang, member and territory counts and the total wealth
        (the average rating is not modelled). */
    method GetCampaignStats() returns (stats: CampaignStats)
      ensures stats == Stats(campaignData)
    {
      var gangs := GetAllGangs();
      var owned, available := GetAllTerritories();
      stats := CampaignStats(|gangs|, |AllMembers(campaignData)|, |owned|, |available|, SumWealth(gangs));
    }

    /** `getPlayerGangToIdMapping(gangsData)`: each player gang's name to the id of its
        gang type in the gangs data; gangs whose type has no id are skipped. */
    method GetPlayerGangToIdMapping(gangsData: Option<seq<(string, GangInfo)>>) returns (mapping: map<string, string>)
      ensures mapping == PlayerGangToId(campaignData, gangsData)
    {
      if campaignData.None? || gangsData.None? {
        return map[];
      }
      var entries := gangsData.value;
      var gangs := GetAllGangs();
      var typeToId: map<string, string> := map[];
      ghost var typePairs := TypePairs(entries);
      for i := 0 to |entries|
        invariant typeToId == BuildMap(typePairs[..i])
      {
        assert typePairs[i] == (entries[i].1.name, entries[i].0);
        BuildMapSnoc(typePairs, i);
        typeToId := typeToId[entries[i].1.name := entries[i].0];
      }
      assert typePairs[..|entries|] == typePairs;
      mapping := map[];
      for i := 0 to |gangs|
        invariant mapping == BuildMap(MappingPairs(gangs[..i], typeToId))
      {
        var gang := gangs[i];
        MappingPairsStep(gangs, i, typeToId);
        if gang.gang.gangType in typeToId && typeToId[gang.gang.gangType] != "" {
          var gangId := typeToId[gang.gang.gangType];
          BuildMapPush(MappingPairs(gangs[..i], typeToId), gang.gang.name, gangId);
          mapping := mapping[gang.gang.name := gangId];
        }
      }
      assert gangs[..|gangs|] == gangs;
    }

    /** `getPlayerGangTerritories()`: each player gang's name to its territory names,
        a later gang of the same name winning. */
    method GetPlayerGangTerritories() returns (territories: map<string, seq<string>>)
      ensures territories == PlayerGangTerritories(campaignData)
    {
      if campaignData.None? {
        return map[];
      }
      territories := map[];
      var gangs := GetAllGangs();
      ghost var pairs := GangTerritoryPairs(gangs);
      for i := 0 to |gangs|
        invariant territories == BuildMap(pairs[..i])
      {
        territories := territories[gangs[i].gang.name := TerritoryNames(gangs[i])];
        assert pairs[..i + 1][..i] == pairs[..i];
      }
      assert pairs[..|gangs|] == pairs;
    }

    /** `validateTerritoryMappings(localTerritories)`: each owned, then available, API
        territory name looked up among the normalised local names. */
    method ValidateTerritoryMappings(local: seq<LocalTerritory>) returns (report: MappingReport)
      ensures report == MappingsReport(campaignData, local)
    {
      if campaignData.None? {
        return MappingReport([], [], true, 0);
      }
      var nameToId := BuildNameToId(local);
      var owned, available := GetAllTerritories();
      var all := NamesOf(owned, available);
      var valid, invalid := SplitByMapping(all, nameToId);
      report := MappingReport(valid, invalid, |invalid| == 0, |all|);
    }
  }
}
