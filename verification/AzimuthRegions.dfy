/**
 The Azimuth region catalogue (`backend/app/modules/carriers/azimuth_regions.py`): batches of the carrier's
 regions are merged in, and a city is looked up by normalised title.  Title normalisation is a parameter.
 */
module AzimuthRegions {
  import opened Prelude

  /** Which side of the carrier's catalogue a pass asked for. */
  datatype Direction = Origin | Destination | Both

  /** One entry of the carrier's answer; titles come stripped. */
  datatype Item = Item(id: Option<int>, title: string, path: string, zone: string, origin: bool, destination: bool)

  datatype Row = Row(
    title: string, path: string, zone: string, zoneNumber: int, origin: bool, destination: bool, key: string)

  datatype Entry = Entry(id: int, row: Row)

  type Normalizer = string -> string

  // ---- one batch ----

  predicate IsDigit(c: char) {
    '0' <= c <= '9'
  }

  /** The value of the leading digits, on top of the digits read so far. */
  function ReadNumber(s: string, sofar: nat): nat {
    if s == "" || !IsDigit(s[0]) then sofar else ReadNumber(s[1..], 10 * sofar + (s[0] - '0') as nat)
  }

  /** `_parse_zone_number`: the first number in the text, or 3. */
  function ParseZone(zone: string): nat {
    if zone == "" then 3 else if IsDigit(zone[0]) then ReadNumber(zone, 0) else ParseZone(zone[1..])
  }

  function Cut(s: string, n: nat): string {
    if |s| <= n then s else s[..n]
  }

  function RowOf(it: Item, norm: Normalizer): Row {
    Row(Cut(it.title, 255), Cut(it.path, 500), Cut(it.zone, 10), ParseZone(it.zone), it.origin, it.destination, norm(it.title))
  }

  /** Entries without an id or a title are passed over. */
  function EntryOf(it: Item, norm: Normalizer): seq<Entry> {
    if it.id.None? || it.id.value == 0 || it.title == "" then [] else [Entry(it.id.value, RowOf(it, norm))]
  }

  function Entries(items: seq<Item>, norm: Normalizer): seq<Entry> {
    if items == [] then []
    else Entries(items[..|items| - 1], norm) + EntryOf(items[|items| - 1], norm)
  }

  lemma EntriesStep(items: seq<Item>, norm: Normalizer, i: nat)
    requires i < |items|
    ensures Entries(items[..i + 1], norm) == Entries(items[..i], norm) + EntryOf(items[i], norm)
  {
    assert items[..i + 1][..i] == items[..i];
  }

  const SMALLINT_MAX: int := 32767

  /** One INSERT ... ON CONFLICT may not name a row twice, and zone numbers are small integers. */
  predicate Storable(entries: seq<Entry>) {
    && (forall i, j :: 0 <= i < j < |entries| ==> entries[i].id != entries[j].id)
    && forall i :: 0 <= i < |entries| ==> entries[i].row.zoneNumber <= SMALLINT_MAX
  }

  function Merge(table: map<int, Row>, e: Entry, direction: Direction): Row {
    if e.id !in table then e.row
    else
      match direction
      case Origin => e.row.(destination := table[e.id].destination)
      case Destination => e.row.(origin := table[e.id].origin)
      case Both => e.row
  }

  function MergeAll(table: map<int, Row>, entries: seq<Entry>, direction: Direction): map<int, Row> {
    if entries == [] then table
    else
      var n := |entries| - 1;
      MergeAll(table, entries[..n], direction)[entries[n].id := Merge(table, entries[n], direction)]
  }

  datatype Pass = Pass(entries: seq<Entry>, direction: Direction)

  /** `upsert_from_api` on the rows it built; a batch the database refuses changes nothing. */
  function Upserted(table: map<int, Row>, p: Pass): map<int, Row> {
    if Storable(p.entries) then MergeAll(table, p.entries, p.direction) else table
  }

  // ---- lookup ----

  /** Which end of the route a city is looked up for. */
  datatype End = Sending | Receiving

  function Flag(row: Row, end: End): bool {
    if end.Sending? then row.origin else row.destination
  }

  predicate Matches(row: Row, key: string, end: End) {
    key != "" && row.key == key && Flag(row, end)
  }

  /** What `find` may answer: any matching row of least zone, and nothing only if nothing matches. */
  predicate IsFound(table: map<int, Row>, key: string, end: End, found: Option<int>) {
    match found
    case None => forall id :: id in table ==> !Matches(table[id], key, end)
    case Some(best) =>
      && best in table && Matches(table[best], key, end)
      && forall id :: id in table && Matches(table[id], key, end) ==> table[best].zoneNumber <= table[id].zoneNumber
  }

  lemma EmptyIfNoId(ids: set<int>)
    ensures ids == {} || exists id :: id in ids
  {
    assert (forall id :: id !in ids) ==> ids == {};
  }

  class Catalogue {
    var rows: map<int, Row>

    constructor ()
      ensures rows == map[]
    {
      rows := map[];
    }

    /** The number of rows written, or None if the statement fails. */
    method UpsertFromApi(items: seq<Item>, direction: Direction, norm: Normalizer) returns (count: Option<nat>)
      modifies this
      ensures rows == Upserted(old(rows), Pass(Entries(items, norm), direction))
      ensures count == if Storable(Entries(items, norm)) then Some(|Entries(items, norm)|) else None
    {
      var entries: seq<Entry> := [];
      var i := 0;
      assert items[..i] == [];
      hide EntryOf;
      while i < |items|
        invariant i <= |items|
        invariant entries == Entries(items[..i], norm) && rows == old(rows)
      {
        EntriesStep(items, norm, i);
        entries := entries + EntryOf(items[i], norm);
        i := i + 1;
      }
      assert items[..i] == items && entries == Entries(items, norm);
      hide Entries;
      if !Storable(entries) {
        return None;
      }
      rows := MergeAll(rows, entries, direction);
      return Some(|entries|);
    }

    /** The row, by id, that a city is answered with; ties go as the database likes. */
    method Find(city: string, end: End, norm: Normalizer) returns (found: Option<int>)
      ensures IsFound(rows, norm(city), end, found)
    {
      var key := norm(city);
      if key == "" {
        return None;
      }
      found := None;
      var left: set<int> := rows.Keys;
      while left != {}
        invariant left <= rows.Keys
        invariant found.Some? ==> found.value in rows && Matches(rows[found.value], key, end)
        invariant forall id :: id in rows && id !in left && Matches(rows[id], key, end) ==>
                    found.Some? && rows[found.value].zoneNumber <= rows[id].zoneNumber
      {
        EmptyIfNoId(left);
        var id :| id in left;
        if Matches(rows[id], key, end) && (found.None? || rows[id].zoneNumber < rows[found.value].zoneNumber) {
          found := Some(id);
        }
        left := left - {id};
      }
    }
  }

  /** A pass that only adds rows never raises a city's zone, and never loses a city. */
  lemma NewRowsNeverRaiseZone(table: map<int, Row>, p: Pass, key: string, end: End, was: int, found: Option<int>)
    requires forall i :: 0 <= i < |p.entries| ==> p.entries[i].id !in table
    requires IsFound(table, key, end, Some(was)) && IsFound(Upserted(table, p), key, end, found)
    ensures found.Some? && Upserted(table, p)[found.value].zoneNumber <= table[was].zoneNumber
  {
    if Storable(p.entries) {
      MergedRow(table, p.entries, p.direction, was);
    }
  }

  // ---- flags over many passes ----

  function Synced(passes: seq<Pass>): map<int, Row> {
    if passes == [] then map[] else Upserted(Synced(passes[..|passes| - 1]), passes[|passes| - 1])
  }

  predicate Names(p: Pass, e: Entry) {
    Storable(p.entries) && e in p.entries
  }

  /** A landed entry replaces its row, and rows the batch does not name stay as they were. */
  lemma {:induction false} MergedRow(table: map<int, Row>, entries: seq<Entry>, direction: Direction, id: int)
    requires Storable(entries)
    ensures var merged := MergeAll(table, entries, direction);
            && (forall e :: e in entries && e.id == id ==> id in merged && merged[id] == Merge(table, e, direction))
            && ((forall e :: e in entries ==> e.id != id) ==>
                  (id in merged <==> id in table) && (id in table ==> merged[id] == table[id]))
  {
    hide Merge;
    if entries != [] {
      var n := |entries| - 1;
      MergedRow(table, entries[..n], direction, id);
      assert entries == entries[..n] + [entries[n]];
    }
  }

  predicate Sets(d: Direction, end: End) {
    d.Both? || if end.Sending? then d.Origin? else d.Destination?
  }

  /** No pass in the list both names the row and sets its flag. */
  ghost predicate Untouched(passes: seq<Pass>, id: int, end: End) {
    forall j, e :: 0 <= j < |passes| && Names(passes[j], e) && e.id == id ==> !Sets(passes[j].direction, end)
  }

  lemma PassLeavesFlag(table: map<int, Row>, p: Pass, id: int, end: End)
    requires id in table && (Sets(p.direction, end) ==> forall e :: Names(p, e) ==> e.id != id)
    ensures id in Upserted(table, p) && Flag(Upserted(table, p)[id], end) == Flag(table[id], end)
  {
    if Storable(p.entries) {
      MergedRow(table, p.entries, p.direction, id);
      if e :| e in p.entries && e.id == id {
        assert Names(p, e);
      }
    }
  }

  /**
   A row's origin (destination) flag is what the last landed pass of that direction naming it said, or
   else what the pass that inserted it said: passes of the other direction never change it.
   */
  lemma {:induction false} FlagIsLastWord(passes: seq<Pass>, k: nat, e: Entry, end: End)
    requires k < |passes| && Names(passes[k], e)
    requires Sets(passes[k].direction, end) || e.id !in Synced(passes[..k])
    requires Untouched(passes[k + 1..], e.id, end)
    ensures e.id in Synced(passes) && Flag(Synced(passes)[e.id], end) == Flag(e.row, end)
  {
    var n := |passes| - 1;
    if k == n {
      MergedRow(Synced(passes[..n]), passes[n].entries, passes[n].direction, e.id);
    } else {
      var before := passes[..n];
      assert before[k] == passes[k] && before[..k] == passes[..k];
      assert passes[k + 1..][n - k - 1] == passes[n];
      var later := before[k + 1..];
      forall j, f | 0 <= j < |later| && Names(later[j], f) && f.id == e.id
        ensures !Sets(later[j].direction, end)
      {
        assert later[j] == passes[k + 1..][j];
      }
      FlagIsLastWord(before, k, e, end);
      PassLeavesFlag(Synced(before), passes[n], e.id, end);
    }
  }

  /** No landed pass in the list names the row. */
  ghost predicate Unnamed(passes: seq<Pass>, id: int) {
    forall j, e :: 0 <= j < |passes| && Names(passes[j], e) ==> e.id != id
  }

  /** Everything but the flags is what the last landed pass naming the row said, whatever its direction. */
  lemma {:induction false} RowIsLastWord(passes: seq<Pass>, k: nat, e: Entry)
    requires k < |passes| && Names(passes[k], e) && Unnamed(passes[k + 1..], e.id)
    ensures e.id in Synced(passes)
    ensures Synced(passes)[e.id] == e.row.(origin := Synced(passes)[e.id].origin, destination := Synced(passes)[e.id].destination)
  {
    var n := |passes| - 1;
    if k == n {
      MergedRow(Synced(passes[..n]), passes[n].entries, passes[n].direction, e.id);
    } else {
      var before := passes[..n];
      assert before[k] == passes[k] && passes[k + 1..][n - k - 1] == passes[n];
      var later := before[k + 1..];
      forall j, f | 0 <= j < |later| && Names(later[j], f)
        ensures f.id != e.id
      {
        assert later[j] == passes[k + 1..][j];
      }
      RowIsLastWord(before, k, e);
      if Storable(passes[n].entries) {
        MergedRow(Synced(before), passes[n].entries, passes[n].direction, e.id);
        forall f | f in passes[n].entries
          ensures f.id != e.id
        {
          assert Names(passes[n], f);
        }
      }
    }
  }

  // ---- what one entry becomes ----

  /** The start of a text, cut off only at the limit. */
  predicate CutAt(text: string, whole: string, limit: nat) {
    text <= whole && (text == whole || |text| == limit)
  }

  /** An entry with an id other than zero and a title becomes one row, its texts cut to the columns; any other none. */
  lemma EntryBecomes(it: Item, norm: Normalizer)
    ensures var entries := EntryOf(it, norm);
            && (entries == [] <==> it.id == None || it.id == Some(0) || it.title == "")
            && (entries != [] ==>
                  && |entries| == 1 && Some(entries[0].id) == it.id
                  && var row := entries[0].row;
                     && CutAt(row.title, it.title, 255) && CutAt(row.path, it.path, 500) && CutAt(row.zone, it.zone, 10)
                     && row.key == norm(it.title) && row.zoneNumber == ParseZone(it.zone)
                     && row.origin == it.origin && row.destination == it.destination)
  {
  }

  predicate Digits(s: string) {
    forall i :: 0 <= i < |s| ==> '0' <= s[i] <= '9'
  }

  /** The number that digits spell. */
  function Spelled(digits: string): int {
    if digits == "" then 0 else 10 * Spelled(digits[..|digits| - 1]) + (digits[|digits| - 1] as int - '0' as int)
  }

  lemma OneMoreDigit(done: string, c: char)
    ensures Spelled(done + [c]) == 10 * Spelled(done) + (c as int - '0' as int)
  {
    assert (done + [c])[..|done|] == done;
  }

  lemma ReadStep(s: string, sofar: nat)
    ensures s == "" || !IsDigit(s[0]) ==> ReadNumber(s, sofar) == sofar
    ensures s != "" && IsDigit(s[0]) ==> ReadNumber(s, sofar) == ReadNumber(s[1..], 10 * sofar + (s[0] - '0') as nat)
  {
  }

  lemma {:induction false} ReadNumberIs(digits: string, rest: string, done: string)
    requires Digits(digits) && (rest == "" || !Digits(rest[..1])) && Spelled(done) >= 0
    ensures ReadNumber(digits + rest, Spelled(done)) == Spelled(done + digits)
  {
    hide ReadNumber;
    hide Spelled;
    var s := digits + rest;
    ReadStep(s, Spelled(done));
    if digits == "" {
      assert done + digits == done && s == rest;
    } else {
      var next := done + [digits[0]];
      OneMoreDigit(done, digits[0]);
      assert s[1..] == digits[1..] + rest && next + digits[1..] == done + digits;
      ReadNumberIs(digits[1..], rest, next);
    }
  }

  /** A zone's number is its first run of digits; without any it is 3. */
  lemma {:induction false} ZoneNumber(before: string, digits: string, rest: string)
    requires forall i :: 0 <= i < |before| ==> !('0' <= before[i] <= '9')
    requires Digits(digits) && (rest == "" || !Digits(rest[..1]))
    requires digits == "" ==> rest == ""
    ensures ParseZone(before + digits + rest) == if digits == "" then 3 else Spelled(digits)
  {
    if before != "" {
      ZoneNumber(before[1..], digits, rest);
      assert (before + digits + rest)[1..] == before[1..] + digits + rest;
    } else if digits != "" {
      ReadNumberIs(digits, rest, "");
      assert before + digits + rest == digits + rest && "" + digits == digits;
    }
  }

  /** A row exists exactly when some landed pass named it. */
  lemma {:induction false} RowIffNamed(passes: seq<Pass>, id: int)
    ensures id in Synced(passes) <==> exists k, e :: 0 <= k < |passes| && Names(passes[k], e) && e.id == id
  {
    if passes != [] {
      var n := |passes| - 1;
      var before, p := passes[..n], passes[n];
      RowIffNamed(before, id);
      if Storable(p.entries) {
        MergedRow(Synced(before), p.entries, p.direction, id);
      }
      if id in Synced(before) {
        var k, e :| 0 <= k < |before| && Names(before[k], e) && e.id == id;
        assert passes[k] == before[k];
      }
      if k, e :| 0 <= k < |passes| && Names(passes[k], e) && e.id == id {
        assert k < n ==> before[k] == passes[k];
      }
    }
  }
}
