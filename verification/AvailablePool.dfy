/**
 internal/availablepool: joining every unowned player of the league's pool onto one value
 table, refusing names two pool players share, and accounting for every row.

 The value lookup and the name normalization are parameters: nothing here depends on them.
 */
module AvailablePool {
  import opened Wrappers
  import opened Sorting
  import opened Text
  import opened PoolText

  datatype PoolRow = PoolRow(id: string, name: string, team: string, positions: string, status: string,
                             minors: bool)

  datatype Valued = Valued(name: string, value: int, prospect: bool)

  datatype Player = Player(id: string, name: string, team: string, positions: seq<string>,
                           value: int, prospect: bool, status: string, clearsOn: string)

  datatype Decline = Decline(name: string, team: string, wouldBe: int)

  type Lookup = PoolRow -> Option<Valued>
  type Normalize = string -> string

  datatype Table = Table(mlb: seq<Player>, prospects: seq<Player>, declined: seq<Decline>,
                         unmatched: nat, namesakes: nat)

  /** How many pool rows carry a name, as it compares. */
  function Census(pool: seq<PoolRow>, norm: Normalize, key: string): nat {
    if pool == [] then 0
    else Census(pool[..|pool| - 1], norm, key) + if norm(pool[|pool| - 1].name) == key then 1 else 0
  }

  datatype Fate = Owned | Unmatched | Declined | Major | Prospect

  /** Where a row of the pool ends up. */
  function FateOf(pool: seq<PoolRow>, norm: Normalize, lookup: Lookup, row: PoolRow): Fate {
    if !IsUnowned(row.status) then Owned
    else
      match lookup(row)
      case None => Unmatched
      case Some(v) =>
        if Census(pool, norm, norm(row.name)) > 1 then Declined
        else if v.prospect then Prospect else Major
  }

  function PlayerOf(row: PoolRow, v: Valued): Player {
    var (status, clears) := ParseStatus(row.status);
    Player(row.id, v.name, row.team, Positions(row.positions), v.value, v.prospect, status, clears)
  }

  /** The rows that meet one fate, in pool order. */
  function Meeting(pool: seq<PoolRow>, fate: PoolRow -> Fate, f: Fate): seq<PoolRow> {
    Filter((row: PoolRow) => fate(row) == f, pool)
  }

  /** The table entries of rows that have a value. */
  function Players(rows: seq<PoolRow>, lookup: Lookup): seq<Player> {
    if rows == [] then []
    else
      var row := rows[|rows| - 1];
      Players(rows[..|rows| - 1], lookup) +
      match lookup(row) case Some(v) => [PlayerOf(row, v)] case None => []
  }

  function Declines(rows: seq<PoolRow>, lookup: Lookup): seq<Decline> {
    if rows == [] then []
    else
      var row := rows[|rows| - 1];
      Declines(rows[..|rows| - 1], lookup) +
      match lookup(row) case Some(v) => [Decline(row.name, row.team, v.value)] case None => []
  }

  /** Most valuable first, then by name. */
  predicate MoreValuable(a: Player, b: Player) {
    a.value > b.value || (a.value == b.value && LexLeq(a.name, b.name))
  }

  predicate MoreDangerous(a: Decline, b: Decline) {
    a.wouldBe > b.wouldBe || (a.wouldBe == b.wouldBe && LexLeq(a.name, b.name))
  }

  lemma OrdersAreTotal()
    ensures TotalPreorder(MoreValuable) && TotalPreorder(MoreDangerous)
  {
    LexLeqIsTotalOrder();
  }

  method TakeCensus(pool: seq<PoolRow>, norm: Normalize) returns (census: map<string, nat>)
    ensures forall key :: (if key in census then census[key] else 0) == Census(pool, norm, key)
  {
    census := map[];
    for i := 0 to |pool|
      invariant forall key :: (if key in census then census[key] else 0) == Census(pool[..i], norm, key)
    {
      assert pool[..i + 1][..i] == pool[..i];
      var key := norm(pool[i].name);
      census := census[key := (if key in census then census[key] else 0) + 1];
    }
    assert pool[..|pool|] == pool;
  }

  /** The fate function of one pool. */
  function Fates(pool: seq<PoolRow>, norm: Normalize, lookup: Lookup): PoolRow -> Fate {
    (row: PoolRow) => FateOf(pool, norm, lookup, row)
  }

  /** What the table must be: each list, up to the order of ties, the rows of its fate. */
  ghost predicate IsTableOf(t: Table, pool: seq<PoolRow>, norm: Normalize, lookup: Lookup) {
    var fate := Fates(pool, norm, lookup);
    && SortedPerm(MoreValuable, Players(Meeting(pool, fate, Major), lookup), t.mlb)
    && SortedPerm(MoreValuable, Players(Meeting(pool, fate, Prospect), lookup), t.prospects)
    && SortedPerm(MoreDangerous, Declines(Meeting(pool, fate, Declined), lookup), t.declined)
    && t.unmatched == |Meeting(pool, fate, Unmatched)|
    && t.namesakes == |Meeting(pool, fate, Declined)|
  }

  /** The lists after the first rows, before sorting. */
  ghost predicate Collected(t: Table, rows: seq<PoolRow>, fate: PoolRow -> Fate, lookup: Lookup) {
    && t.mlb == Players(Meeting(rows, fate, Major), lookup)
    && t.prospects == Players(Meeting(rows, fate, Prospect), lookup)
    && t.declined == Declines(Meeting(rows, fate, Declined), lookup)
    && t.unmatched == |Meeting(rows, fate, Unmatched)|
    && t.namesakes == |Meeting(rows, fate, Declined)|
  }

  lemma PlayersAppend(rows: seq<PoolRow>, row: PoolRow, lookup: Lookup)
    ensures Players(rows + [row], lookup) ==
      Players(rows, lookup) + match lookup(row) case Some(v) => [PlayerOf(row, v)] case None => []
    ensures Declines(rows + [row], lookup) ==
      Declines(rows, lookup) + match lookup(row) case Some(v) => [Decline(row.name, row.team, v.value)] case None => []
  {
    assert (rows + [row])[..|rows|] == rows;
  }

  lemma MeetingStep(pool: seq<PoolRow>, i: nat, fate: PoolRow -> Fate, f: Fate)
    requires i < |pool|
    ensures Meeting(pool[..i + 1], fate, f) ==
      Meeting(pool[..i], fate, f) + if fate(pool[i]) == f then [pool[i]] else []
  {
    FilterStep((row: PoolRow) => fate(row) == f, pool, i);
  }

  /** One row joins the list of its fate and no other. */
  function Place(t: Table, row: PoolRow, f: Fate, lookup: Lookup): Table {
    match f
    case Owned => t
    case Unmatched => t.(unmatched := t.unmatched + 1)
    case Declined =>
      t.(namesakes := t.namesakes + 1,
         declined := t.declined +
           match lookup(row) case Some(v) => [Decline(row.name, row.team, v.value)] case None => [])
    case Major =>
      t.(mlb := t.mlb + match lookup(row) case Some(v) => [PlayerOf(row, v)] case None => [])
    case Prospect =>
      t.(prospects := t.prospects + match lookup(row) case Some(v) => [PlayerOf(row, v)] case None => [])
  }

  lemma PlaceCollects(t: Table, pool: seq<PoolRow>, i: nat, fate: PoolRow -> Fate, lookup: Lookup)
    requires i < |pool| && Collected(t, pool[..i], fate, lookup)
    ensures Collected(Place(t, pool[i], fate(pool[i]), lookup), pool[..i + 1], fate, lookup)
  {
    MeetingStep(pool, i, fate, Major);
    MeetingStep(pool, i, fate, Prospect);
    MeetingStep(pool, i, fate, Declined);
    MeetingStep(pool, i, fate, Unmatched);
    PlayersAppend(Meeting(pool[..i], fate, fate(pool[i])), pool[i], lookup);
    assert Meeting(pool[..i], fate, Major) + [] == Meeting(pool[..i], fate, Major);
    assert Meeting(pool[..i], fate, Prospect) + [] == Meeting(pool[..i], fate, Prospect);
    assert Meeting(pool[..i], fate, Declined) + [] == Meeting(pool[..i], fate, Declined);
  }

  /** One row of the join. */
  method PlaceRow(t: Table, row: PoolRow, census: map<string, nat>, norm: Normalize, lookup: Lookup,
                  ghost pool: seq<PoolRow>)
    returns (u: Table)
    requires forall key :: (if key in census then census[key] else 0) == Census(pool, norm, key)
    ensures u == Place(t, row, FateOf(pool, norm, lookup, row), lookup)
  {
    if !IsUnowned(row.status) { return t; }
    var v := lookup(row);
    if v.None? { return t.(unmatched := t.unmatched + 1); }
    var key := norm(row.name);
    var n := if key in census then census[key] else 0;
    assert n == Census(pool, norm, key);
    if n > 1 {
      return t.(namesakes := t.namesakes + 1,
                declined := t.declined + [Decline(row.name, row.team, v.value.value)]);
    }
    var positions := ParsePositions(row.positions);
    var (status, clears) := ParseStatus(row.status);
    var p := Player(row.id, v.value.name, row.team, positions, v.value.value, v.value.prospect, status, clears);
    u := if v.value.prospect then t.(prospects := t.prospects + [p]) else t.(mlb := t.mlb + [p]);
  }

  method Build(pool: seq<PoolRow>, norm: Normalize, lookup: Lookup) returns (t: Table)
    ensures IsTableOf(t, pool, norm, lookup)
  {
    var census := TakeCensus(pool, norm);
    ghost var fate := Fates(pool, norm, lookup);
    t := Table([], [], [], 0, 0);
    for i := 0 to |pool|
      invariant Collected(t, pool[..i], fate, lookup)
    {
      PlaceCollects(t, pool, i, fate, lookup);
      t := PlaceRow(t, pool[i], census, norm, lookup, pool);
    }
    assert pool[..|pool|] == pool;
    OrdersAreTotal();
    SortSorts(MoreValuable, t.mlb);
    SortSorts(MoreValuable, t.prospects);
    SortSorts(MoreDangerous, t.declined);
    t := t.(mlb := Sort(MoreValuable, t.mlb), prospects := Sort(MoreValuable, t.prospects),
            declined := Sort(MoreDangerous, t.declined));
  }

  // ---------------------------------------------------------------- what the table promises

  lemma {:induction false} EveryRowHasOneFate(rows: seq<PoolRow>, fate: PoolRow -> Fate)
    ensures |rows| == |Meeting(rows, fate, Owned)| + |Meeting(rows, fate, Unmatched)|
      + |Meeting(rows, fate, Declined)| + |Meeting(rows, fate, Major)| + |Meeting(rows, fate, Prospect)|
  {
    if rows != [] {
      var n := |rows| - 1;
      EveryRowHasOneFate(rows[..n], fate);
      assert rows[..n + 1] == rows;
      MeetingStep(rows, n, fate, Owned);
      MeetingStep(rows, n, fate, Unmatched);
      MeetingStep(rows, n, fate, Declined);
      MeetingStep(rows, n, fate, Major);
      MeetingStep(rows, n, fate, Prospect);
    }
  }

  lemma {:induction false} AllValued(rows: seq<PoolRow>, lookup: Lookup)
    requires forall row :: row in rows ==> lookup(row).Some?
    ensures |Players(rows, lookup)| == |Declines(rows, lookup)| == |rows|
  {
    if rows != [] {
      assert rows[|rows| - 1] in rows;
      AllValued(rows[..|rows| - 1], lookup);
    }
  }

  lemma MeetingMeets(pool: seq<PoolRow>, fate: PoolRow -> Fate, f: Fate)
    ensures forall row :: row in Meeting(pool, fate, f) <==> row in pool && fate(row) == f
  {
    forall row ensures row in Meeting(pool, fate, f) <==> row in pool && fate(row) == f {
      FilterKeeps((r: PoolRow) => fate(r) == f, pool, row);
    }
  }

  lemma MeetingCounts(pool: seq<PoolRow>, norm: Normalize, lookup: Lookup, f: Fate)
    requires f in {Declined, Major, Prospect}
    ensures var rows := Meeting(pool, Fates(pool, norm, lookup), f);
      |Players(rows, lookup)| == |Declines(rows, lookup)| == |rows|
  {
    MeetingMeets(pool, Fates(pool, norm, lookup), f);
    AllValued(Meeting(pool, Fates(pool, norm, lookup), f), lookup);
  }

  function UnownedRows(pool: seq<PoolRow>): seq<PoolRow> { Filter((row: PoolRow) => IsUnowned(row.status), pool) }

  lemma {:induction false} OwnedOrNot(rows: seq<PoolRow>, fate: PoolRow -> Fate)
    requires forall row :: fate(row) == Owned <==> !IsUnowned(row.status)
    ensures |Meeting(rows, fate, Owned)| + |UnownedRows(rows)| == |rows|
  {
    if rows != [] {
      var n := |rows| - 1;
      OwnedOrNot(rows[..n], fate);
      assert rows[..n + 1] == rows;
      MeetingStep(rows, n, fate, Owned);
      FilterStep((row: PoolRow) => IsUnowned(row.status), rows, n);
    }
  }

  /** Every unowned row is in exactly one of the four places, and the counts add up to the
      number of unowned rows. */
  lemma EveryUnownedRowIsCounted(t: Table, pool: seq<PoolRow>, norm: Normalize, lookup: Lookup)
    requires IsTableOf(t, pool, norm, lookup)
    ensures |t.mlb| + |t.prospects| + t.unmatched + t.namesakes == |UnownedRows(pool)|
    ensures t.namesakes == |t.declined|
  {
    var fate := Fates(pool, norm, lookup);
    EveryRowHasOneFate(pool, fate);
    OwnedOrNot(pool, fate);
    MeetingCounts(pool, norm, lookup, Major);
    MeetingCounts(pool, norm, lookup, Prospect);
    MeetingCounts(pool, norm, lookup, Declined);
    SameElements(t.mlb, Players(Meeting(pool, fate, Major), lookup));
    SameElements(t.prospects, Players(Meeting(pool, fate, Prospect), lookup));
    SameElements(t.declined, Declines(Meeting(pool, fate, Declined), lookup));
  }

  lemma {:induction false} PlayersFrom(rows: seq<PoolRow>, lookup: Lookup, p: Player)
    requires p in Players(rows, lookup)
    ensures exists row :: row in rows && lookup(row).Some? && p == PlayerOf(row, lookup(row).value)
  {
    var row := rows[|rows| - 1];
    if p in Players(rows[..|rows| - 1], lookup) {
      PlayersFrom(rows[..|rows| - 1], lookup, p);
      var r :| r in rows[..|rows| - 1] && lookup(r).Some? && p == PlayerOf(r, lookup(r).value);
      assert r in rows;
    } else {
      assert row in rows && lookup(row).Some?;
    }
  }

  lemma {:induction false} CensusIsPositive(pool: seq<PoolRow>, norm: Normalize, row: PoolRow)
    requires row in pool
    ensures Census(pool, norm, norm(row.name)) >= 1
  {
    if row != pool[|pool| - 1] {
      assert pool == pool[..|pool| - 1] + [pool[|pool| - 1]];
      CensusIsPositive(pool[..|pool| - 1], norm, row);
    }
  }

  /** The rows of the whole pool, owned ones included, whose name compares equal to this one. */
  function Namesakes(pool: seq<PoolRow>, norm: Normalize, name: string): seq<PoolRow> {
    Filter((r: PoolRow) => norm(r.name) == norm(name), pool)
  }

  lemma {:induction false} CensusCounts(pool: seq<PoolRow>, norm: Normalize, name: string)
    ensures Census(pool, norm, norm(name)) == |Namesakes(pool, norm, name)|
  {
    if pool != [] { CensusCounts(pool[..|pool| - 1], norm, name); }
  }

  /** The player is the entry of this row, field by field, and the row's name is its own alone. */
  predicate ShownFor(pool: seq<PoolRow>, norm: Normalize, lookup: Lookup, row: PoolRow, p: Player) {
    && row in pool && IsUnowned(row.status) && |Namesakes(pool, norm, row.name)| == 1
    && lookup(row).Some? && p.name == lookup(row).value.name && p.value == lookup(row).value.value
    && p.prospect == lookup(row).value.prospect
    && p.id == row.id && p.team == row.team && p.positions == Positions(row.positions)
    && p.status == ParseStatus(row.status).0 && p.clearsOn == ParseStatus(row.status).1
  }

  lemma SegmentIsShown(pool: seq<PoolRow>, norm: Normalize, lookup: Lookup, f: Fate, p: Player)
    requires f in {Major, Prospect} && p in Players(Meeting(pool, Fates(pool, norm, lookup), f), lookup)
    ensures exists row :: ShownFor(pool, norm, lookup, row, p)
    ensures p.prospect <==> f == Prospect
    ensures forall pos :: pos in p.positions ==> NoMarkup(pos) && pos != ""
  {
    var fate := Fates(pool, norm, lookup);
    MeetingMeets(pool, fate, f);
    PlayersFrom(Meeting(pool, fate, f), lookup, p);
    var row :| row in Meeting(pool, fate, f) && lookup(row).Some? && p == PlayerOf(row, lookup(row).value);
    assert row in pool && FateOf(pool, norm, lookup, row) == f;
    CensusIsPositive(pool, norm, row);
    CensusCounts(pool, norm, row.name);
    assert ShownFor(pool, norm, lookup, row, p);
    forall pos | pos in p.positions ensures NoMarkup(pos) && pos != "" {
      PositionsAreClean(row.positions, pos);
    }
  }

  /** A value is shown only for an unowned row whose name no other row of the whole pool
      carries, owned ones included; and no markup reaches its positions. */
  lemma NoNamesakeIsValued(t: Table, pool: seq<PoolRow>, norm: Normalize, lookup: Lookup, p: Player)
    requires IsTableOf(t, pool, norm, lookup) && (p in t.mlb || p in t.prospects)
    ensures exists row :: ShownFor(pool, norm, lookup, row, p)
    ensures (p in t.prospects <==> p.prospect) && (p in t.mlb <==> !p.prospect)
    ensures forall pos :: pos in p.positions ==> NoMarkup(pos) && pos != ""
  {
    var fate := Fates(pool, norm, lookup);
    SameElements(t.mlb, Players(Meeting(pool, fate, Major), lookup));
    SameElements(t.prospects, Players(Meeting(pool, fate, Prospect), lookup));
    if p in t.mlb { SegmentIsShown(pool, norm, lookup, Major, p); }
    if p in t.prospects { SegmentIsShown(pool, norm, lookup, Prospect, p); }
  }

  lemma {:induction false} EveryRowHasItsEntry(rows: seq<PoolRow>, lookup: Lookup, row: PoolRow)
    requires row in rows && lookup(row).Some?
    ensures PlayerOf(row, lookup(row).value) in Players(rows, lookup)
    ensures Decline(row.name, row.team, lookup(row).value.value) in Declines(rows, lookup)
  {
    var n := |rows| - 1;
    if row != rows[n] {
      assert rows == rows[..n] + [rows[n]];
      EveryRowHasItsEntry(rows[..n], lookup, row);
    }
  }

  /** And every row that may be valued is: an unowned row the value table knows is shown in the
      list of its kind if its name is its own alone, and otherwise declined by name, team and
      the value it would have shown. */
  lemma EveryKnownRowIsPlaced(t: Table, pool: seq<PoolRow>, norm: Normalize, lookup: Lookup, row: PoolRow)
    requires IsTableOf(t, pool, norm, lookup)
    requires row in pool && IsUnowned(row.status) && lookup(row).Some?
    ensures var v := lookup(row).value;
      if |Namesakes(pool, norm, row.name)| == 1
      then exists p :: p in (if v.prospect then t.prospects else t.mlb) && ShownFor(pool, norm, lookup, row, p)
      else Decline(row.name, row.team, v.value) in t.declined
  {
    var fate, v := Fates(pool, norm, lookup), lookup(row).value;
    var f := FateOf(pool, norm, lookup, row);
    CensusIsPositive(pool, norm, row);
    CensusCounts(pool, norm, row.name);
    MeetingMeets(pool, fate, f);
    EveryRowHasItsEntry(Meeting(pool, fate, f), lookup, row);
    SameElements(t.mlb, Players(Meeting(pool, fate, Major), lookup));
    SameElements(t.prospects, Players(Meeting(pool, fate, Prospect), lookup));
    SameElements(t.declined, Declines(Meeting(pool, fate, Declined), lookup));
    if f != Declined { assert ShownFor(pool, norm, lookup, row, PlayerOf(row, v)); }
  }

  /** What is counted as unmatched: the unowned rows the value table does not know. */
  lemma UnmatchedAreUnknown(t: Table, pool: seq<PoolRow>, norm: Normalize, lookup: Lookup)
    requires IsTableOf(t, pool, norm, lookup)
    ensures t.unmatched == |Filter((row: PoolRow) => IsUnowned(row.status) && lookup(row).None?, pool)|
  {
    var fate := Fates(pool, norm, lookup);
    FilterSame((row: PoolRow) => fate(row) == Unmatched,
               (row: PoolRow) => IsUnowned(row.status) && lookup(row).None?, pool);
  }

  lemma {:induction false} FilterSame(p: PoolRow -> bool, q: PoolRow -> bool, rows: seq<PoolRow>)
    requires forall row :: p(row) <==> q(row)
    ensures Filter(p, rows) == Filter(q, rows)
  {
    if rows != [] { FilterSame(p, q, rows[..|rows| - 1]); }
  }

  ghost predicate Ranked(ps: seq<Player>) {
    forall i, j :: 0 <= i < j < |ps| ==>
      ps[i].value >= ps[j].value && (ps[i].value == ps[j].value ==> LexLeq(ps[i].name, ps[j].name))
  }

  /** The lists are ranked: most valuable first, equal values by name. */
  lemma ListsAreRanked(t: Table, pool: seq<PoolRow>, norm: Normalize, lookup: Lookup)
    requires IsTableOf(t, pool, norm, lookup)
    ensures Ranked(t.mlb) && Ranked(t.prospects)
    ensures forall i, j :: 0 <= i < j < |t.declined| ==>
      t.declined[i].wouldBe >= t.declined[j].wouldBe &&
      (t.declined[i].wouldBe == t.declined[j].wouldBe ==> LexLeq(t.declined[i].name, t.declined[j].name))
  {
    forall i, j | 0 <= i < j < |t.mlb| ensures MoreValuable(t.mlb[i], t.mlb[j]) { }
    forall i, j | 0 <= i < j < |t.prospects| ensures MoreValuable(t.prospects[i], t.prospects[j]) { }
    forall i, j | 0 <= i < j < |t.declined| ensures MoreDangerous(t.declined[i], t.declined[j]) { }
  }
}
